/** Values shared by every part of the connector: optional and failing results,
    JavaScript numbers after a division, the `settings` table and its lookups. */
module Common {

  datatype Option<+T> = None | Some(value: T)

  /** A computation that either produces a value or rejects (a thrown
      exception or a rejected promise in the connector). */
  datatype Result<+T> = Ok(value: T) | Err(reason: string)

  /** A JavaScript number that came out of a division: finite, or the
      Infinity/NaN that a zero divisor produces. */
  datatype Num = Finite(value: real) | NonFinite

  function Divide(x: Num, d: real): Num
  {
    if x.Finite? && d != 0.0 then Finite(x.value / d) else NonFinite
  }

  /** How a nullable text column reads inside a template literal. */
  function Text(s: Option<string>): string
  {
    if s.Some? then s.value else "null"
  }

  /** JavaScript truthiness of a nullable string. */
  predicate Truthy(s: Option<string>)
  {
    s.Some? && s.value != ""
  }

  /** The index of the first element satisfying `p`, as `filter(p)[0]`
      or a `findOne` over rows in table order would find it. */
  function FirstIndex<T>(s: seq<T>, p: T -> bool): (r: Option<nat>)
    ensures r.Some? ==> r.value < |s| && p(s[r.value])
    ensures r.Some? ==> forall j :: 0 <= j < r.value ==> !p(s[j])
    ensures r.None? ==> forall j :: 0 <= j < |s| ==> !p(s[j])
  {
    if s == [] then None
    else if p(s[0]) then Some(0)
    else match FirstIndex(s[1..], p)
      case None => None
      case Some(k) => Some(k + 1)
  }

  /** One row of the `settings` table: every column is nullable. */
  datatype SettingsRow = SettingsRow(
    accountName: Option<string>,
    appKey: Option<string>,
    appToken: Option<string>,
    sellerId: Option<string>,
    accessToken: Option<string>,
    shop: Option<string>,
    shopifyToken: Option<string>)

  /** The five credentials the settings form submits. */
  datatype SettingsPayload = SettingsPayload(
    accountName: Option<string>,
    appKey: Option<string>,
    appToken: Option<string>,
    sellerId: Option<string>,
    accessToken: Option<string>)

  /** A row with every column null. */
  const NullRow := SettingsRow(None, None, None, None, None, None, None)

  /** The column names of the `settings` table. */
  const Columns: set<string> :=
    {"account_name", "app_key", "app_token", "seller_id", "access_token", "shop", "shopify_token"}

  /** A row's column by name; a name that is not a column reads as null. */
  function ColumnValue(row: SettingsRow, name: string): Option<string>
  {
    if name == "account_name" then row.accountName
    else if name == "app_key" then row.appKey
    else if name == "app_token" then row.appToken
    else if name == "seller_id" then row.sellerId
    else if name == "access_token" then row.accessToken
    else if name == "shop" then row.shop
    else if name == "shopify_token" then row.shopifyToken
    else None
  }

  /** The value a JSON body gives a column, or `current` when it has no such key. */
  function Pick(body: map<string, Option<string>>, name: string, current: Option<string>): Option<string>
  {
    if name in body then body[name] else current
  }

  /** A row after `update(body)`, or a new row after `create(body)` when
      `row` is the null row: every column the body names takes the body's
      value, every other column keeps its own, and keys that name no
      column are ignored. */
  function Merge(row: SettingsRow, body: map<string, Option<string>>): (r: SettingsRow)
    ensures forall name :: name in Columns ==>
      ColumnValue(r, name) == (if name in body then body[name] else ColumnValue(row, name))
  {
    SettingsRow(Pick(body, "account_name", row.accountName), Pick(body, "app_key", row.appKey),
                Pick(body, "app_token", row.appToken), Pick(body, "seller_id", row.sellerId),
                Pick(body, "access_token", row.accessToken), Pick(body, "shop", row.shop),
                Pick(body, "shopify_token", row.shopifyToken))
  }

  /** The JSON body the settings form posts: its five credentials by column name. */
  function FormBody(p: SettingsPayload): (body: map<string, Option<string>>)
    ensures body.Keys == Columns - {"shop", "shopify_token"}
    ensures body["account_name"] == p.accountName && body["app_key"] == p.appKey
    ensures body["app_token"] == p.appToken && body["seller_id"] == p.sellerId
    ensures body["access_token"] == p.accessToken
  {
    map["account_name" := p.accountName, "app_key" := p.appKey, "app_token" := p.appToken,
        "seller_id" := p.sellerId, "access_token" := p.accessToken]
  }

  /** `findOne({where: {shop: shop}})`. */
  function ShopIndex(rows: seq<SettingsRow>, shop: string): (r: Option<nat>)
    ensures r.Some? ==> r.value < |rows| && rows[r.value].shop == Some(shop)
    ensures r.Some? ==> forall j :: 0 <= j < r.value ==> rows[j].shop != Some(shop)
    ensures r.None? <==> forall j :: 0 <= j < |rows| ==> rows[j].shop != Some(shop)
  {
    FirstIndex(rows, (row: SettingsRow) => row.shop == Some(shop))
  }

  /** The first row of a shop is determined by the rows' shop columns alone. */
  lemma ShopIndexIs(rows: seq<SettingsRow>, shop: string, r: Option<nat>)
    requires r.Some? ==> r.value < |rows| && rows[r.value].shop == Some(shop)
    requires r.Some? ==> forall j :: 0 <= j < r.value ==> rows[j].shop != Some(shop)
    requires r.None? ==> forall j :: 0 <= j < |rows| ==> rows[j].shop != Some(shop)
    ensures ShopIndex(rows, shop) == r
  {
  }

  function FindByShop(rows: seq<SettingsRow>, shop: string): (r: Option<SettingsRow>)
    ensures r.Some? <==> exists i :: 0 <= i < |rows| && rows[i].shop == Some(shop)
    ensures r.Some? ==> r.value in rows && r.value.shop == Some(shop)
  {
    match ShopIndex(rows, shop)
    case None => None
    case Some(i) => Some(rows[i])
  }

  /** `findOne({where: {access_token: token}})`: a null token is an
      `IS NULL` condition, so it matches rows whose token is null. */
  function TokenIndex(rows: seq<SettingsRow>, token: Option<string>): (r: Option<nat>)
    ensures r.Some? ==> r.value < |rows| && rows[r.value].accessToken == token
    ensures r.Some? ==> forall j :: 0 <= j < r.value ==> rows[j].accessToken != token
    ensures r.None? <==> forall j :: 0 <= j < |rows| ==> rows[j].accessToken != token
  {
    FirstIndex(rows, (row: SettingsRow) => row.accessToken == token)
  }

  /** The first row holding a token is determined by the rows' token columns alone. */
  lemma TokenIndexIs(rows: seq<SettingsRow>, token: Option<string>, r: Option<nat>)
    requires r.Some? ==> r.value < |rows| && rows[r.value].accessToken == token
    requires r.Some? ==> forall j :: 0 <= j < r.value ==> rows[j].accessToken != token
    requires r.None? ==> forall j :: 0 <= j < |rows| ==> rows[j].accessToken != token
    ensures TokenIndex(rows, token) == r
  {
  }

  function FindByAccessToken(rows: seq<SettingsRow>, token: Option<string>): (r: Option<SettingsRow>)
    ensures r.Some? <==> exists i :: 0 <= i < |rows| && rows[i].accessToken == token
    ensures r.Some? ==> r.value in rows && r.value.accessToken == token
  {
    match TokenIndex(rows, token)
    case None => None
    case Some(i) => Some(rows[i])
  }

  /** The JSON object a row serialises to, by column name. */
  function RowJson(row: SettingsRow): (json: map<string, Option<string>>)
    ensures json.Keys == Columns
    ensures forall name :: name in Columns ==> json[name] == ColumnValue(row, name)
  {
    map["account_name" := row.accountName, "app_key" := row.appKey,
        "app_token" := row.appToken, "seller_id" := row.sellerId,
        "access_token" := row.accessToken, "shop" := row.shop,
        "shopify_token" := row.shopifyToken]
  }

  /** A permutation of 0..n-1: the order in which n concurrent lookups complete. */
  predicate IsOrdering(order: seq<nat>, n: nat)
  {
    && |order| == n
    && (forall k :: 0 <= k < n ==> order[k] < n)
    && (forall k, l :: 0 <= k < l < n ==> order[k] != order[l])
  }

  /** The set {0, ..., n-1}. */
  function Range(n: nat): (r: set<nat>)
    ensures forall x: int :: x in r <==> 0 <= x < n
    ensures |r| == n
  {
    if n == 0 then {} else Range(n - 1) + {n - 1}
  }

  lemma {:induction false} SubsetSize<T>(a: set<T>, b: set<T>)
    requires a <= b
    ensures |a| <= |b|
  {
    if a != {} {
      var x :| x in a;
      SubsetSize(a - {x}, b - {x});
    }
  }

  lemma {:induction false} ImageSize(order: seq<nat>, m: nat)
    requires m <= |order|
    requires forall k, l :: 0 <= k < l < |order| ==> order[k] != order[l]
    ensures |set k | 0 <= k < m :: order[k]| == m
  {
    if m > 0 {
      ImageSize(order, m - 1);
      var before := set k | 0 <= k < m - 1 :: order[k];
      assert (set k | 0 <= k < m :: order[k]) == before + {order[m - 1]};
      assert order[m - 1] !in before;
    }
  }

  /** Every index 0..n-1 completes exactly once in an ordering. */
  lemma OrderingCovers(order: seq<nat>, n: nat, i: nat)
    requires IsOrdering(order, n)
    requires i < n
    ensures exists k :: 0 <= k < n && order[k] == i
  {
    var image := set k | 0 <= k < n :: order[k];
    ImageSize(order, n);
    if i !in image {
      SubsetSize(image, Range(n) - {i});
      assert false;
    }
  }
}
