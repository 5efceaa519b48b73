/** The embedded settings page (pages/index.js): the five credential
    fields, their validation errors, loading the saved settings and
    submitting the form. */
module SettingsPage {
  import opened Common

  /** The five credentials of the form. */
  datatype Field = AccountName | AppKey | AppToken | SellerId | AccessToken

  /** One value per field of the form. */
  datatype PerField<T> = PerField(accountName: T, appKey: T, appToken: T, sellerId: T, accessToken: T)
  {
    function Get(f: Field): T
    {
      match f
      case AccountName => accountName
      case AppKey => appKey
      case AppToken => appToken
      case SellerId => sellerId
      case AccessToken => accessToken
    }

    function Set(f: Field, v: T): (r: PerField<T>)
      ensures r.Get(f) == v
      ensures forall g: Field :: g != f ==> r.Get(g) == Get(g)
    {
      match f
      case AccountName => this.(accountName := v)
      case AppKey => this.(appKey := v)
      case AppToken => this.(appToken := v)
      case SellerId => this.(sellerId := v)
      case AccessToken => this.(accessToken := v)
    }
  }

  /** The JSON key of a field, as the settings routes name the column. */
  function Key(f: Field): string
  {
    match f
    case AccountName => "account_name"
    case AppKey => "app_key"
    case AppToken => "app_token"
    case SellerId => "seller_id"
    case AccessToken => "access_token"
  }

  /** The column of a settings row a field shows. */
  function Column(row: SettingsRow, f: Field): Option<string>
  {
    match f
    case AccountName => row.accountName
    case AppKey => row.appKey
    case AppToken => row.appToken
    case SellerId => row.sellerId
    case AccessToken => row.accessToken
  }

  /** A value the form accepts: a non-empty string. */
  predicate Filled(v: Option<string>)
  {
    v.Some? && v.value != ""
  }

  /** The error a field shows under the corrected check. */
  function ErrorOf(v: Option<string>): Option<string>
  {
    if Filled(v) then None else Some("Required")
  }

  /** The form passes validation: every field is filled in. */
  predicate Validates(values: PerField<Option<string>>)
  {
    forall f: Field :: Filled(values.Get(f))
  }

  /** `validateForm` as written: a field fails only when it is the empty
      string, so a null value loaded from the server passes. */
  predicate ValidatesAsWritten(values: PerField<Option<string>>)
  {
    forall f: Field :: values.Get(f) != Some("")
  }

  /** The corrected check is stricter, and the two agree once no field is null. */
  lemma ValidationAgreesOnStrings(values: PerField<Option<string>>)
    ensures Validates(values) ==> ValidatesAsWritten(values)
    ensures (forall f: Field :: values.Get(f).Some?) ==> (Validates(values) <==> ValidatesAsWritten(values))
  {
    if Validates(values) {
      forall f: Field ensures values.Get(f) != Some("") {
        assert Filled(values.Get(f));
      }
    }
  }

  /** A JSON value by key; a missing key reads as undefined. */
  function Lookup(json: map<string, Option<string>>, key: string): Option<string>
  {
    if key in json then json[key] else None
  }

  /** The form values after the settings GET answered `json`: an empty
      object leaves them as they are; otherwise each field takes its key's value. */
  function Loaded(values: PerField<Option<string>>, json: map<string, Option<string>>): PerField<Option<string>>
  {
    if |json| == 0 then values
    else PerField(Lookup(json, "account_name"), Lookup(json, "app_key"), Lookup(json, "app_token"),
                  Lookup(json, "seller_id"), Lookup(json, "access_token"))
  }

  /** Loading a non-empty answer shows in every field the value under its key. */
  lemma LoadReadsKeys(values: PerField<Option<string>>, json: map<string, Option<string>>)
    requires |json| > 0
    ensures forall f: Field :: Loaded(values, json).Get(f) == Lookup(json, Key(f))
  {
    forall f: Field ensures Loaded(values, json).Get(f) == Lookup(json, Key(f)) {
      match f
      case AccountName =>
      case AppKey =>
      case AppToken =>
      case SellerId =>
      case AccessToken =>
    }
  }

  /** Loading a saved row shows each of its credentials in its field. */
  lemma LoadShowsRow(values: PerField<Option<string>>, row: SettingsRow)
    ensures forall f: Field :: Loaded(values, RowJson(row)).Get(f) == Column(row, f)
  {
    LoadReadsKeys(values, RowJson(row));
    forall f: Field ensures Loaded(values, RowJson(row)).Get(f) == Column(row, f) {
      match f
      case AccountName =>
      case AppKey =>
      case AppToken =>
      case SellerId =>
      case AccessToken =>
    }
  }

  /** The body the form posts. */
  function PayloadOf(values: PerField<Option<string>>): SettingsPayload
  {
    SettingsPayload(values.accountName, values.appKey, values.appToken, values.sellerId, values.accessToken)
  }

  /** Submitting a loaded row unchanged posts back its credentials. */
  lemma LoadThenSubmit(values: PerField<Option<string>>, row: SettingsRow)
    ensures PayloadOf(Loaded(values, RowJson(row)))
         == SettingsPayload(row.accountName, row.appKey, row.appToken, row.sellerId, row.accessToken)
  {
    var json := RowJson(row);
    assert Lookup(json, "account_name") == row.accountName;
  }

  /** A shop that has only been installed loads a row of nulls; as written
      the form accepts it and posts the nulls, the corrected check refuses. */
  lemma InstalledRowPassesAsWritten(values: PerField<Option<string>>, shop: string, token: string)
    ensures var loaded := Loaded(values, RowJson(SettingsRow(None, None, None, None, None, Some(shop), Some(token))));
      && ValidatesAsWritten(loaded)
      && !Validates(loaded)
      && PayloadOf(loaded) == SettingsPayload(None, None, None, None, None)
  {
    var row := SettingsRow(None, None, None, None, None, Some(shop), Some(token));
    LoadShowsRow(values, row);
    LoadThenSubmit(values, row);
    var loaded := Loaded(values, RowJson(row));
    assert loaded.Get(AccountName) == None;
    forall f: Field ensures loaded.Get(f) != Some("") {
      assert Column(row, f) == None;
    }
  }

  /** The form's component state. */
  class SettingsForm {
    var values: PerField<Option<string>>
    var errors: PerField<Option<string>>

    /** Every field starts empty and without an error. */
    constructor ()
      ensures forall f: Field :: values.Get(f) == Some("") && errors.Get(f) == None
    {
      values := PerField(Some(""), Some(""), Some(""), Some(""), Some(""));
      errors := PerField(None, None, None, None, None);
    }

    /** `getSettings`: `json` is the settings GET's answer, None when the
        request or its JSON fails. */
    method GetSettings(json: Option<map<string, Option<string>>>)
      modifies this
      ensures errors == old(errors)
      ensures json.None? ==> values == old(values)
      ensures json.Some? ==> values == Loaded(old(values), json.value)
    {
      if json.Some? && |json.value| > 0 {
        values := PerField(Lookup(json.value, "account_name"), Lookup(json.value, "app_key"),
                           Lookup(json.value, "app_token"), Lookup(json.value, "seller_id"),
                           Lookup(json.value, "access_token"));
      }
    }

    /** A field's `onChange`. */
    method OnChange(f: Field, value: string)
      modifies this
      ensures errors == old(errors)
      ensures values == old(values).Set(f, Some(value))
    {
      values := values.Set(f, Some(value));
    }

    /** `validateForm`, corrected: a field is in error unless it holds a
        non-empty string, and the form is valid when no field is. */
    method ValidateForm() returns (ok: bool)
      modifies this
      ensures values == old(values)
      ensures forall f: Field :: errors.Get(f) == ErrorOf(values.Get(f))
      ensures ok <==> Validates(values)
      ensures ok <==> forall f: Field :: errors.Get(f).None?
    {
      var accountNameError := if Filled(values.accountName) then None else Some("Required");
      var appKeyError := if Filled(values.appKey) then None else Some("Required");
      var appTokenError := if Filled(values.appToken) then None else Some("Required");
      var sellerIdError := if Filled(values.sellerId) then None else Some("Required");
      var accessTokenError := if Filled(values.accessToken) then None else Some("Required");
      errors := PerField(accountNameError, appKeyError, appTokenError, sellerIdError, accessTokenError);
      ok := accountNameError.None? && appKeyError.None? && appTokenError.None?
            && sellerIdError.None? && accessTokenError.None?;
      forall f: Field ensures errors.Get(f) == ErrorOf(values.Get(f)) {
        match f
        case AccountName =>
        case AppKey =>
        case AppToken =>
        case SellerId =>
        case AccessToken =>
      }
      assert !ok ==> exists f: Field :: !Filled(values.Get(f)) by {
        if !accountNameError.None? {
          assert !Filled(values.Get(AccountName));
        } else if !appKeyError.None? {
          assert !Filled(values.Get(AppKey));
        } else if !appTokenError.None? {
          assert !Filled(values.Get(AppToken));
        } else if !sellerIdError.None? {
          assert !Filled(values.Get(SellerId));
        } else if !accessTokenError.None? {
          assert !Filled(values.Get(AccessToken));
        }
      }
    }

    /** `handleSubmit`: the body posted to the settings route, only when
        the form validates; every posted credential is then filled in. */
    method HandleSubmit() returns (submitted: Option<SettingsPayload>)
      modifies this
      ensures values == old(values)
      ensures forall f: Field :: errors.Get(f) == ErrorOf(values.Get(f))
      ensures submitted.Some? <==> Validates(values)
      ensures submitted.Some? ==> submitted.value == PayloadOf(values)
      ensures submitted.Some? ==>
        && Filled(submitted.value.accountName) && Filled(submitted.value.appKey)
        && Filled(submitted.value.appToken) && Filled(submitted.value.sellerId)
        && Filled(submitted.value.accessToken)
    {
      var ok := ValidateForm();
      if ok {
        submitted := Some(PayloadOf(values));
        assert Filled(values.Get(AccountName)) && Filled(values.Get(AppKey)) && Filled(values.Get(AppToken));
        assert Filled(values.Get(SellerId)) && Filled(values.Get(AccessToken));
      } else {
        submitted := None;
      }
    }
  }
}
