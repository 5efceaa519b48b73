/** The server's own state and routes (server/server.js): the in-memory
    set of installed shops, the `settings` table as the OAuth callback and
    the settings routes change it, and the catch-all page route. */
module Server {
  import opened Common
  import opened VtexHandlers

  // ---------------------------------------------------------------------
  // The settings table as the routes change it
  // ---------------------------------------------------------------------

  /** How an optional query value reads inside a template literal. */
  function QueryText(s: Option<string>): string
  {
    if s.Some? then s.value else "undefined"
  }

  /** A row holds exactly the credentials of a form payload. */
  predicate Holds(row: SettingsRow, p: SettingsPayload)
  {
    && row.accountName == p.accountName && row.appKey == p.appKey && row.appToken == p.appToken
    && row.sellerId == p.sellerId && row.accessToken == p.accessToken
  }

  /** The OAuth callback's upsert: store the storefront token on the
      shop's first row, or create a row holding only the shop and token. */
  function WithToken(rows: seq<SettingsRow>, shop: string, token: string): (r: seq<SettingsRow>)
    ensures |r| == (if ShopIndex(rows, shop).Some? then |rows| else |rows| + 1)
  {
    match ShopIndex(rows, shop)
    case Some(i) => rows[i := rows[i].(shopifyToken := Some(token))]
    case None => rows + [SettingsRow(None, None, None, None, None, Some(shop), Some(token))]
  }

  /** The row the settings POST writes for `shop`: the shop's first row
      updated with the body, or else a row created from the body with its
      `shop` key set to `shop`. */
  function SavedRow(rows: seq<SettingsRow>, shop: string, body: map<string, Option<string>>): SettingsRow
  {
    match ShopIndex(rows, shop)
    case Some(i) => Merge(rows[i], body)
    case None => Merge(NullRow, body["shop" := Some(shop)])
  }

  /** The settings POST's upsert: the saved row replaces the shop's first
      row, or is appended when the shop has none. */
  function WithForm(rows: seq<SettingsRow>, shop: string, body: map<string, Option<string>>): (r: seq<SettingsRow>)
    ensures |r| == (if ShopIndex(rows, shop).Some? then |rows| else |rows| + 1)
  {
    match ShopIndex(rows, shop)
    case Some(i) => rows[i := SavedRow(rows, shop, body)]
    case None => rows + [SavedRow(rows, shop, body)]
  }

  /** A body that leaves the row with its shop: no `shop` key, or the same shop. */
  predicate KeepsShop(body: map<string, Option<string>>, shop: string)
  {
    "shop" !in body || body["shop"] == Some(shop)
  }

  /** After an install the shop's row holds the new storefront token and
      keeps any credentials it had; a first install creates a row with
      nothing but the shop and the token. */
  lemma InstallReadBack(rows: seq<SettingsRow>, shop: string, token: string)
    ensures FindByShop(WithToken(rows, shop, token), shop).Some?
    ensures var after := FindByShop(WithToken(rows, shop, token), shop).value;
      && after.shopifyToken == Some(token)
      && (FindByShop(rows, shop).Some? ==> after == FindByShop(rows, shop).value.(shopifyToken := Some(token)))
      && (FindByShop(rows, shop).None? ==> after == SettingsRow(None, None, None, None, None, Some(shop), Some(token)))
  {
    var r := WithToken(rows, shop, token);
    match ShopIndex(rows, shop)
    case Some(i) => ShopIndexIs(r, shop, Some(i));
    case None => ShopIndexIs(r, shop, Some(|rows|));
  }

  /** An install touches no other shop's row. */
  lemma InstallKeepsOtherShops(rows: seq<SettingsRow>, shop: string, other: string, token: string)
    requires other != shop
    ensures FindByShop(WithToken(rows, shop, token), other) == FindByShop(rows, other)
  {
    ShopIndexIs(WithToken(rows, shop, token), other, ShopIndex(rows, other));
  }

  /** An install never changes which shop a presented token authenticates
      as; the row found differs at most in its storefront token. */
  lemma InstallKeepsAuthentication(rows: seq<SettingsRow>, shop: string, token: string, presented: string)
    ensures var before := FindByAccessToken(rows, Some(presented));
      var after := FindByAccessToken(WithToken(rows, shop, token), Some(presented));
      && (after.Some? <==> before.Some?)
      && (after.Some? ==> after.value.shop == before.value.shop
                          && after.value.(shopifyToken := before.value.shopifyToken) == before.value)
  {
    var r := WithToken(rows, shop, token);
    match ShopIndex(rows, shop)
    case Some(i) =>
      assert forall j :: 0 <= j < |rows| ==> r[j].accessToken == rows[j].accessToken;
      TokenIndexIs(r, Some(presented), TokenIndex(rows, Some(presented)));
    case None =>
      assert r[|rows|].accessToken == None;
      TokenIndexIs(r, Some(presented), TokenIndex(rows, Some(presented)));
  }

  /** Saving writes every column the body names, keeps the other columns
      of the shop's row (null in a new row), and keeps the row's shop unless
      the body of an update names another; a body that keeps the shop is
      what the shop's lookup reads back. */
  lemma SaveMergesBody(rows: seq<SettingsRow>, shop: string, body: map<string, Option<string>>)
    ensures var saved := SavedRow(rows, shop, body);
      var before := FindByShop(rows, shop);
      && saved in WithForm(rows, shop, body)
      && (forall name :: name in Columns && name != "shop" ==>
            ColumnValue(saved, name) == (if name in body then body[name]
                                         else if before.Some? then ColumnValue(before.value, name) else None))
      && saved.shop == (if before.Some? && "shop" in body then body["shop"] else Some(shop))
    ensures KeepsShop(body, shop) ==> FindByShop(WithForm(rows, shop, body), shop) == Some(SavedRow(rows, shop, body))
  {
    var r := WithForm(rows, shop, body);
    var saved := SavedRow(rows, shop, body);
    match ShopIndex(rows, shop)
    case Some(i) =>
      assert r[i] == saved;
      assert ColumnValue(saved, "shop") == saved.shop;
      if KeepsShop(body, shop) {
        ShopIndexIs(r, shop, Some(i));
      }
    case None =>
      assert r[|rows|] == saved;
      var full := body["shop" := Some(shop)];
      forall name | name in Columns && name != "shop"
        ensures ColumnValue(saved, name) == (if name in body then body[name] else None)
      {
        assert ColumnValue(saved, name) == (if name in full then full[name] else ColumnValue(NullRow, name));
      }
      assert ColumnValue(saved, "shop") == saved.shop;
      ShopIndexIs(r, shop, Some(|rows|));
  }

  /** After saving the form the shop's row holds exactly the submitted
      credentials and keeps its shop and storefront token. */
  lemma SaveReadBack(rows: seq<SettingsRow>, shop: string, p: SettingsPayload)
    ensures FindByShop(WithForm(rows, shop, FormBody(p)), shop).Some?
    ensures var after := FindByShop(WithForm(rows, shop, FormBody(p)), shop).value;
      && Holds(after, p)
      && after.shop == Some(shop)
      && after.shopifyToken == (if FindByShop(rows, shop).Some? then FindByShop(rows, shop).value.shopifyToken else None)
  {
    var body := FormBody(p);
    SaveMergesBody(rows, shop, body);
    var saved := SavedRow(rows, shop, body);
    assert ColumnValue(saved, "account_name") == p.accountName;
    assert ColumnValue(saved, "app_key") == p.appKey;
    assert ColumnValue(saved, "app_token") == p.appToken;
    assert ColumnValue(saved, "seller_id") == p.sellerId;
    assert ColumnValue(saved, "access_token") == p.accessToken;
    assert ColumnValue(saved, "shopify_token") == saved.shopifyToken;
  }

  /** The route accepts any JSON body: one carrying `shopify_token`
      replaces the shop's storefront token. */
  lemma BodyCanReplaceStorefrontToken(rows: seq<SettingsRow>, shop: string, token: string)
    ensures var after := FindByShop(WithForm(rows, shop, map["shopify_token" := Some(token)]), shop);
      after.Some? && after.value.shopifyToken == Some(token)
  {
    var body := map["shopify_token" := Some(token)];
    SaveMergesBody(rows, shop, body);
    assert ColumnValue(SavedRow(rows, shop, body), "shopify_token") == Some(token);
  }

  /** Saving touches no other shop's row, unless the body moves the row to that shop. */
  lemma SaveKeepsOtherShops(rows: seq<SettingsRow>, shop: string, other: string, body: map<string, Option<string>>)
    requires other != shop
    ensures !("shop" in body && body["shop"] == Some(other)) ==>
      FindByShop(WithForm(rows, shop, body), other) == FindByShop(rows, other)
  {
    if !("shop" in body && body["shop"] == Some(other)) {
      SaveMergesBody(rows, shop, body);
      ShopIndexIs(WithForm(rows, shop, body), other, ShopIndex(rows, other));
    }
  }

  /** Once saved, a non-null access token authenticates the fulfillment routes. */
  lemma SavedTokenAuthenticates(rows: seq<SettingsRow>, shop: string, body: map<string, Option<string>>)
    requires "access_token" in body && body["access_token"].Some?
    ensures FindByAccessToken(WithForm(rows, shop, body), body["access_token"]).Some?
  {
    SaveMergesBody(rows, shop, body);
    var r := WithForm(rows, shop, body);
    var saved := SavedRow(rows, shop, body);
    assert ColumnValue(saved, "access_token") == body["access_token"];
    var i :| 0 <= i < |r| && r[i] == saved;
    assert r[i].accessToken == body["access_token"];
  }

  /** Reinstalling keeps the saved credentials and replaces only the token. */
  lemma SaveThenReinstall(rows: seq<SettingsRow>, shop: string, p: SettingsPayload, token: string)
    ensures var after := FindByShop(WithToken(WithForm(rows, shop, FormBody(p)), shop, token), shop);
      after.Some? && Holds(after.value, p) && after.value.shopifyToken == Some(token)
  {
    SaveReadBack(rows, shop, p);
    InstallReadBack(WithForm(rows, shop, FormBody(p)), shop, token);
  }

  // ---------------------------------------------------------------------
  // Settings routes
  // ---------------------------------------------------------------------

  /** The names every plain JavaScript object inherits from
      `Object.prototype`: looking one of them up in `{}` does not give undefined. */
  const InheritedKeys: set<string> :=
    {"constructor", "__defineGetter__", "__defineSetter__", "hasOwnProperty",
     "__lookupGetter__", "__lookupSetter__", "isPrototypeOf", "propertyIsEnumerable",
     "toString", "valueOf", "__proto__", "toLocaleString"}

  /** `ACTIVE_SHOPIFY_SHOPS[shop] !== undefined`: an installed shop, or a
      name the object inherits. */
  predicate Active(active: map<string, string>, shop: string)
  {
    shop in active || shop in InheritedKeys
  }

  /** The guard of both settings routes, as written: the referer names a
      host and a shop the active-shop object answers for. */
  predicate Authorized(active: map<string, string>, shopParam: Option<string>, hostParam: Option<string>)
  {
    hostParam.Some? && shopParam.Some? && Active(active, shopParam.value)
  }

  /** The guard as evidently intended: the shop is an own key of the
      active-shop object, that is, an installed shop. */
  predicate InstalledAuthorized(active: map<string, string>, shopParam: Option<string>, hostParam: Option<string>)
  {
    hostParam.Some? && shopParam.Some? && shopParam.value in active
  }

  /** The intended guard admits only installed shops, never a shop just
      uninstalled, admits nothing the written guard refuses, and agrees
      with it on every name that is not inherited. */
  lemma InstalledGuardAdmitsOnlyInstalled(active: map<string, string>, shopParam: Option<string>,
                                          hostParam: Option<string>)
    ensures InstalledAuthorized(active, shopParam, hostParam) ==> shopParam.Some? && shopParam.value in active
    ensures InstalledAuthorized(active, shopParam, hostParam) ==> Authorized(active, shopParam, hostParam)
    ensures shopParam.Some? && shopParam.value !in InheritedKeys ==>
      (InstalledAuthorized(active, shopParam, hostParam) <==> Authorized(active, shopParam, hostParam))
    ensures shopParam.Some? ==> !InstalledAuthorized(active - {shopParam.value}, shopParam, hostParam)
  {
  }

  /** The body of the settings GET route. */
  function SettingsResponse(rows: seq<SettingsRow>, active: map<string, string>,
                            shopParam: Option<string>, hostParam: Option<string>): (b: ResponseBody)
    ensures b.SettingsBody? || b.EmptyObjectBody?
    ensures b.SettingsBody? <==> Authorized(active, shopParam, hostParam) && FindByShop(rows, shopParam.value).Some?
    ensures b.SettingsBody? ==> b.row in rows && b.row.shop == shopParam
  {
    if !Authorized(active, shopParam, hostParam) then EmptyObjectBody
    else match FindByShop(rows, shopParam.value)
      case None => EmptyObjectBody
      case Some(row) => SettingsBody(row)
  }

  /** What the form saves is what the settings page reads back. */
  lemma SaveThenLoad(rows: seq<SettingsRow>, active: map<string, string>,
                     shopParam: Option<string>, hostParam: Option<string>, p: SettingsPayload)
    requires Authorized(active, shopParam, hostParam)
    ensures var b := SettingsResponse(WithForm(rows, shopParam.value, FormBody(p)), active, shopParam, hostParam);
      b.SettingsBody? && Holds(b.row, p)
  {
    SaveReadBack(rows, shopParam.value, p);
  }

  /** The settings POST route as written: its handler closes over the shop
      of the OAuth callback that registered it, so the upsert goes to the
      row of that shop (`routeShop`) whichever shop the referer names. */
  function SettingsPostAsWritten(rows: seq<SettingsRow>, routeShop: string, active: map<string, string>,
                                 shopParam: Option<string>, hostParam: Option<string>,
                                 body: map<string, Option<string>>)
    : seq<SettingsRow>
  {
    if Authorized(active, shopParam, hostParam) then WithForm(rows, routeShop, body) else rows
  }

  /** With two installed shops, a save from the second shop overwrites, as
      written, the first shop's credentials and leaves its own row as it
      was; keyed on the referer's shop, the save lands on the right row. */
  lemma SettingsPostWrongShop(rows: seq<SettingsRow>, active: map<string, string>,
                              first: string, second: string, host: string, p: SettingsPayload)
    requires first != second && second in active
    ensures var asWritten := SettingsPostAsWritten(rows, first, active, Some(second), Some(host), FormBody(p));
      && FindByShop(asWritten, second) == FindByShop(rows, second)
      && FindByShop(asWritten, first).Some? && Holds(FindByShop(asWritten, first).value, p)
    ensures var corrected := WithForm(rows, second, FormBody(p));
      && FindByShop(corrected, first) == FindByShop(rows, first)
      && FindByShop(corrected, second).Some? && Holds(FindByShop(corrected, second).value, p)
  {
    SaveKeepsOtherShops(rows, first, second, FormBody(p));
    SaveReadBack(rows, first, p);
    SaveKeepsOtherShops(rows, second, first, FormBody(p));
    SaveReadBack(rows, second, p);
  }

  /** A referer naming `toString`, which no shop is installed as, passes
      the written guard: the settings POST then writes the body into the row
      of the shop that registered the route, and the catch-all route serves
      the app to `constructor`. The intended guard refuses it. */
  lemma InheritedShopPassesGuard(rows: seq<SettingsRow>, routeShop: string, active: map<string, string>,
                                 host: string, body: map<string, Option<string>>)
    requires "toString" !in active
    ensures Authorized(active, Some("toString"), Some(host))
    ensures SettingsPostAsWritten(rows, routeShop, active, Some("toString"), Some(host), body)
         == WithForm(rows, routeShop, body)
    ensures Active(active, "constructor")
    ensures !InstalledAuthorized(active, Some("toString"), Some(host))
  {
  }

  class Server {
    /** `ACTIVE_SHOPIFY_SHOPS`: installed shop to granted scope. */
    var activeShops: map<string, string>
    /** The `settings` table. */
    var settings: seq<SettingsRow>
    /** The shop whose OAuth callback first registered the settings POST
        route; the route does not exist before any install. */
    var settingsRouteShop: Option<string>

    /** Start-up: no shop is active; the `settings` table keeps the rows
        it already held, since syncing the schema does not drop it. */
    constructor (rows: seq<SettingsRow>)
      ensures activeShops == map[] && settings == rows && settingsRouteShop == None
    {
      activeShops := map[];
      settings := rows;
      settingsRouteShop := None;
    }

    /** `afterAuth`: record the shop as installed, upsert its storefront
        token, register one more handler on the settings POST route and
        redirect to the app. The handler registered first answers every
        POST, so the route keeps the shop of the first call. */
    method AfterAuth(shop: string, token: string, scope: string, host: Option<string>, ctx: Context)
      modifies this, ctx
      ensures activeShops == old(activeShops)[shop := scope]
      ensures settings == WithToken(old(settings), shop, token)
      ensures settingsRouteShop == (if old(settingsRouteShop).None? then Some(shop) else old(settingsRouteShop))
      ensures ctx.status == 302 && ctx.location == Some("/?shop=" + shop + "&host=" + QueryText(host))
      ensures ctx.body == old(ctx.body)
    {
      activeShops := activeShops[shop := scope];
      var i := ShopIndex(settings, shop);
      if i.Some? {
        settings := settings[i.value := settings[i.value].(shopifyToken := Some(token))];
      } else {
        settings := settings + [SettingsRow(None, None, None, None, None, Some(shop), Some(token))];
      }
      if settingsRouteShop.None? {
        settingsRouteShop := Some(shop);
      }
      ctx.status := 302;
      ctx.location := Some("/?shop=" + shop + "&host=" + QueryText(host));
    }

    /** The uninstall webhook: forget the shop; its settings row stays. */
    method Uninstall(shop: string)
      modifies this
      ensures activeShops == old(activeShops) - {shop}
      ensures settings == old(settings) && settingsRouteShop == old(settingsRouteShop)
    {
      activeShops := activeShops - {shop};
    }

    /** The settings POST route, keyed on the shop the referer names;
        `payload` is the JSON body. The answer is the row written. */
    method PostSettings(ctx: Context, shopParam: Option<string>, hostParam: Option<string>,
                        payload: map<string, Option<string>>)
      modifies this, ctx
      ensures activeShops == old(activeShops) && settingsRouteShop == old(settingsRouteShop)
      ensures ctx.location == old(ctx.location)
      ensures settingsRouteShop.None? ==>
        settings == old(settings) && ctx.status == old(ctx.status) && ctx.body == old(ctx.body)
      ensures settingsRouteShop.Some? && !Authorized(activeShops, shopParam, hostParam) ==>
        settings == old(settings) && ctx.status == 401 && ctx.body == MessageBody("Unauthorized!")
      ensures settingsRouteShop.Some? && Authorized(activeShops, shopParam, hostParam) ==>
        && settings == WithForm(old(settings), shopParam.value, payload)
        && ctx.status == 200
        && ctx.body == SettingsBody(SavedRow(old(settings), shopParam.value, payload))
        && ctx.body.row in settings
        && (KeepsShop(payload, shopParam.value) ==> FindByShop(settings, shopParam.value) == Some(ctx.body.row))
    {
      if settingsRouteShop.None? {
        return;
      }
      if hostParam.None? || shopParam.None? || !Active(activeShops, shopParam.value) {
        ctx.status := 401;
        ctx.body := MessageBody("Unauthorized!");
        return;
      }
      var shop := shopParam.value;
      SaveMergesBody(settings, shop, payload);
      var i := ShopIndex(settings, shop);
      var model: SettingsRow;
      if i.Some? {
        model := Merge(settings[i.value], payload);
        settings := settings[i.value := model];
      } else {
        model := Merge(NullRow, payload["shop" := Some(shop)]);
        settings := settings + [model];
      }
      ctx.status := 200;
      ctx.body := SettingsBody(model);
    }

    /** The settings GET route: always 200, the shop's row or `{}`. */
    method GetSettingsRoute(ctx: Context, shopParam: Option<string>, hostParam: Option<string>)
      modifies ctx
      ensures ctx.status == 200
      ensures ctx.body == SettingsResponse(settings, activeShops, shopParam, hostParam)
      ensures ctx.location == old(ctx.location)
    {
      ctx.status := 200;
      if hostParam.None? || shopParam.None? || !Active(activeShops, shopParam.value) {
        ctx.body := EmptyObjectBody;
      } else {
        var response := FindByShop(settings, shopParam.value);
        if response.None? {
          ctx.body := EmptyObjectBody;
        } else {
          ctx.body := SettingsBody(response.value);
        }
      }
    }

    /** The catch-all page route: a shop the active-shop object does not
        answer for goes through OAuth; any other gets the app page. */
    method CatchAll(ctx: Context, shop: Option<string>)
      modifies ctx
      ensures !Active(activeShops, QueryText(shop)) ==>
        ctx.status == 302 && ctx.location == Some("/auth?shop=" + QueryText(shop))
      ensures Active(activeShops, QueryText(shop)) ==>
        ctx.status == 200 && ctx.location == old(ctx.location)
      ensures ctx.body == old(ctx.body)
    {
      if !Active(activeShops, QueryText(shop)) {
        ctx.status := 302;
        ctx.location := Some("/auth?shop=" + QueryText(shop));
      } else {
        ctx.status := 200;
      }
    }
  }
}
