/** The request handlers of the marketplace's fulfillment routes and of
    the storefront's product webhook, the token check that guards the
    routes, and the activity log written around every request
    (server/vtex/vtexHandlers.js). */
module VtexHandlers {
  import opened Common
  import opened Fetch
  import opened VtexHelper
  import opened ShopifyHelper
  import opened VtexClient

  // ---------------------------------------------------------------------
  // Token extraction and authentication
  // ---------------------------------------------------------------------

  /** The position of the first `c` in `s`. */
  function IndexOf(s: string, c: char): (r: Option<nat>)
    ensures r.Some? ==> r.value < |s| && s[r.value] == c
    ensures r.Some? ==> forall j :: 0 <= j < r.value ==> s[j] != c
    ensures r.None? <==> c !in s
  {
    FirstIndex(s, (x: char) => x == c)
  }

  /** `url.split("?")[1]`: the text between the first and the second "?",
      or undefined when the URL has no "?". */
  function QuerySegment(url: string): (r: Option<string>)
    ensures r.None? <==> '?' !in url
    ensures r.Some? ==> '?' !in r.value && |r.value| < |url|
  {
    match IndexOf(url, '?')
    case None => None
    case Some(i) =>
      var rest := url[i + 1..];
      match IndexOf(rest, '?')
      case None => Some(rest)
      case Some(j) => Some(rest[..j])
  }

  /** The key of one pair: the text before its first "=", or all of it. */
  function PairKey(pair: string): string
  {
    match IndexOf(pair, '=')
    case None => pair
    case Some(i) => pair[..i]
  }

  /** The value of one pair: the text after its first "=", or empty. */
  function PairValue(pair: string): (v: string)
    ensures forall c :: c in v ==> c in pair
    ensures pair != "" ==> |v| < |pair|
  {
    match IndexOf(pair, '=')
    case None => ""
    case Some(i) => pair[i + 1..]
  }

  /** A pair `get(name)` answers with: a non-empty pair whose key is `name`. */
  predicate Matches(pair: string, name: string)
  {
    pair != "" && PairKey(pair) == name
  }

  /** `new URLSearchParams(query).get(name)`: the value of the first
      `&`-separated pair whose key is `name`; a pair without "=" has the
      empty value. */
  function ParamValue(query: string, name: string): (r: Option<string>)
    ensures r.Some? ==> '&' !in r.value && |r.value| < |query|
    ensures r.Some? ==> forall c :: c in r.value ==> c in query
    decreases |query|
  {
    var end := IndexOf(query, '&');
    var pair := if end.Some? then query[..end.value] else query;
    if Matches(pair, name) then Some(PairValue(pair))
    else if end.Some? then ParamValue(query[end.value + 1..], name)
    else None
  }

  /** Pairs joined by "&", as a query string lists them. */
  function JoinPairs(pairs: seq<string>): string
  {
    if |pairs| == 0 then "" else if |pairs| == 1 then pairs[0]
    else pairs[0] + "&" + JoinPairs(pairs[1..])
  }

  /** A query made of one pair answers for that pair alone. */
  lemma ParamValueSingle(pair: string, name: string)
    requires '&' !in pair
    ensures ParamValue(pair, name) == if Matches(pair, name) then Some(PairValue(pair)) else None
  {
  }

  /** A query whose first pair is `pair` answers with that pair when it
      matches, and otherwise with the rest of the query. */
  lemma ParamValueSplit(pair: string, rest: string, name: string)
    requires '&' !in pair
    ensures ParamValue(pair + "&" + rest, name)
         == if Matches(pair, name) then Some(PairValue(pair)) else ParamValue(rest, name)
  {
    var query := pair + "&" + rest;
    assert query[|pair|] == '&';
    assert forall j :: 0 <= j < |pair| ==> query[j] == pair[j];
    assert IndexOf(query, '&') == Some(|pair|);
    assert query[..|pair|] == pair;
    assert query[|pair| + 1..] == rest;
  }

  /** `get(name)` finds a value exactly when some pair matches, and it is
      the value of the first pair that matches. */
  lemma {:induction false} ParamValueIsFirstMatch(pairs: seq<string>, name: string)
    requires forall i :: 0 <= i < |pairs| ==> '&' !in pairs[i]
    ensures ParamValue(JoinPairs(pairs), name).Some? <==> exists i :: 0 <= i < |pairs| && Matches(pairs[i], name)
    ensures forall i :: 0 <= i < |pairs| && Matches(pairs[i], name)
                        && (forall j :: 0 <= j < i ==> !Matches(pairs[j], name)) ==>
      ParamValue(JoinPairs(pairs), name) == Some(PairValue(pairs[i]))
  {
    if |pairs| == 0 {
      assert ParamValue("", name) == None;
    } else if |pairs| == 1 {
      ParamValueSingle(pairs[0], name);
    } else {
      var rest := pairs[1..];
      ParamValueIsFirstMatch(rest, name);
      ParamValueSplit(pairs[0], JoinPairs(rest), name);
      if !Matches(pairs[0], name) {
        assert forall i :: 1 <= i < |pairs| ==> pairs[i] == rest[i - 1];
        forall i | 0 <= i < |pairs| && Matches(pairs[i], name)
                   && (forall j :: 0 <= j < i ==> !Matches(pairs[j], name))
          ensures ParamValue(JoinPairs(pairs), name) == Some(PairValue(pairs[i]))
        {
          assert i > 0 && rest[i - 1] == pairs[i];
          assert forall j :: 0 <= j < i - 1 ==> !Matches(rest[j], name) by {
            forall j | 0 <= j < i - 1 ensures !Matches(rest[j], name) {
              assert rest[j] == pairs[j + 1];
            }
          }
        }
        if exists i :: 0 <= i < |pairs| && Matches(pairs[i], name) {
          var i :| 0 <= i < |pairs| && Matches(pairs[i], name);
          assert i > 0 && Matches(rest[i - 1], name);
        }
      }
    }
  }

  /** The `token` query parameter of a request URL. */
  function TokenOf(url: string): (r: Option<string>)
    ensures r.Some? ==> '?' !in r.value && '&' !in r.value
  {
    match QuerySegment(url)
    case None => None
    case Some(query) => ParamValue(query, "token")
  }

  /** The query of a path without "?" is the text after the "?" appended to it. */
  lemma QueryOfAppended(path: string, query: string)
    requires '?' !in path && '?' !in query
    ensures QuerySegment(path + "?" + query) == Some(query)
  {
    var url := path + "?" + query;
    assert url[|path|] == '?';
    assert forall j :: 0 <= j < |path| ==> url[j] == path[j];
    assert IndexOf(url, '?') == Some(|path|);
    assert url[|path| + 1..] == query;
  }

  /** A query made of the single pair `token=…` yields that token. */
  lemma SingleTokenParam(token: string)
    requires '&' !in token
    ensures ParamValue("token=" + token, "token") == Some(token)
  {
    var query := "token=" + token;
    assert forall j :: 0 <= j < |query| ==> query[j] != '&';
    assert IndexOf(query, '&').None?;
    assert query[5] == '=';
    assert IndexOf(query, '=') == Some(5);
    assert query[..5] == "token";
    assert query[6..] == token;
  }

  /** A token appended as the query of a path is the token read back. */
  lemma TokenRoundTrip(path: string, token: string)
    requires '?' !in path && '?' !in token && '&' !in token
    ensures TokenOf(path + "?token=" + token) == Some(token)
  {
    var query := "token=" + token;
    assert '?' !in query by {
      assert forall j :: 0 <= j < |query| ==> query[j] != '?';
    }
    assert path + "?token=" + token == path + "?" + query;
    QueryOfAppended(path, query);
    SingleTokenParam(token);
  }

  /** Every character of joined pairs is a separator or comes from a pair. */
  lemma {:induction false} JoinPairsChars(pairs: seq<string>)
    ensures forall c :: c in JoinPairs(pairs) ==> c == '&' || exists i :: 0 <= i < |pairs| && c in pairs[i]
  {
    if |pairs| >= 2 {
      var rest := pairs[1..];
      JoinPairsChars(rest);
      forall c | c in JoinPairs(pairs)
        ensures c == '&' || exists i :: 0 <= i < |pairs| && c in pairs[i]
      {
        if c in JoinPairs(rest) && c != '&' {
          var i :| 0 <= i < |rest| && c in rest[i];
          assert rest[i] == pairs[i + 1];
        }
      }
    }
  }

  /** The pair `token=…` matches the key "token" and carries the token. */
  lemma TokenPair(token: string)
    ensures Matches("token=" + token, "token") && PairValue("token=" + token) == token
  {
    var pair := "token=" + token;
    assert pair[5] == '=';
    assert IndexOf(pair, '=') == Some(5);
    assert pair[..5] == "token";
    assert pair[6..] == token;
  }

  /** Joining pairs adds no '?'. */
  lemma JoinPairsNoMark(pairs: seq<string>)
    requires forall i :: 0 <= i < |pairs| ==> '?' !in pairs[i]
    ensures '?' !in JoinPairs(pairs)
  {
    JoinPairsChars(pairs);
  }

  /** The token is read from a query that lists other parameters around
      it, as the marketplace's calls do, when no pair before it is a token. */
  lemma TokenAmongParams(path: string, pairs: seq<string>, k: nat, token: string)
    requires '?' !in path
    requires forall i :: 0 <= i < |pairs| ==> '&' !in pairs[i] && '?' !in pairs[i]
    requires k < |pairs| && pairs[k] == "token=" + token
    requires forall j :: 0 <= j < k ==> !Matches(pairs[j], "token")
    ensures TokenOf(path + "?" + JoinPairs(pairs)) == Some(token)
  {
    JoinPairsNoMark(pairs);
    QueryOfAppended(path, JoinPairs(pairs));
    TokenPair(token);
    ParamValueIsFirstMatch(pairs, "token");
  }

  /** `checkAuth` as written: the settings row whose access token equals
      the request's token. A request without a token looks up a null
      token, and Sequelize turns that into `IS NULL`. */
  function CheckAuthAsWritten(url: string, rows: seq<SettingsRow>): (r: Option<SettingsRow>)
    ensures r.Some? ==> r.value in rows && r.value.accessToken == TokenOf(url)
  {
    FindByAccessToken(rows, TokenOf(url))
  }

  /** A request without any query authenticates, as written, as the first
      shop that has not saved its credentials yet (the row created at
      install time has a null access token); the corrected check refuses it. */
  lemma MissingTokenAuthenticates(url: string, rows: seq<SettingsRow>, k: nat)
    requires '?' !in url
    requires k < |rows| && rows[k].accessToken.None?
    ensures CheckAuthAsWritten(url, rows).Some?
    ensures CheckAuthAsWritten(url, rows).value.accessToken.None?
    ensures CheckAuth(url, rows).None?
  {
    assert TokenOf(url).None?;
  }

  /** `checkAuth`, corrected: a request authenticates only by presenting
      a token, as the settings row holding that very token. */
  function CheckAuth(url: string, rows: seq<SettingsRow>): (r: Option<SettingsRow>)
    ensures r.Some? <==> TokenOf(url).Some? && exists i :: 0 <= i < |rows| && rows[i].accessToken == TokenOf(url)
    ensures r.Some? ==> r.value in rows && r.value.accessToken == TokenOf(url)
    ensures TokenOf(url).Some? ==> r == CheckAuthAsWritten(url, rows)
  {
    match TokenOf(url)
    case None => None
    case Some(token) => FindByAccessToken(rows, Some(token))
  }

  // ---------------------------------------------------------------------
  // Request context and activity log
  // ---------------------------------------------------------------------

  datatype SimulationResponse = SimulationResponse(
    country: Option<string>,
    postalCode: Option<string>,
    geoCoordinates: Option<seq<real>>,
    pickupPoints: seq<string>,
    messages: seq<string>,
    items: seq<Quote>,
    logisticsInfo: seq<LogisticsEntry>)

  datatype PlacedOrder = PlacedOrder(
    marketplaceOrderId: string,
    orderId: string,
    followUpEmail: string,
    items: seq<MarketplaceItem>,
    clientProfileData: ClientProfile,
    shippingData: ShippingData,
    paymentData: Option<string>)

  datatype Receipt = Receipt(
    date: string,
    marketplaceOrderId: Option<string>,
    orderId: string,
    receipt: Option<string>)

  /** The response body a route leaves in the context. */
  datatype ResponseBody =
    | NoBody
    | SimulationBody(simulation: SimulationResponse)
    | PlacementBody(orders: seq<PlacedOrder>)
    | ReceiptBody(receipt: Receipt)
    | MessageBody(message: string)
    | SettingsBody(row: SettingsRow)
    | EmptyObjectBody

  /** How a downstream handler's promise settled. */
  datatype Outcome = Resolved | Rejected(error: string)

  /** One request and the response the routes build for it. */
  class Context {
    const url: string
    const verb: string
    var status: int
    var body: ResponseBody
    var location: Option<string>

    constructor (url: string, verb: string)
      ensures this.url == url && this.verb == verb
      ensures status == 404 && body == NoBody && location == None
    {
      this.url := url;
      this.verb := verb;
      status := 404;
      body := NoBody;
      location := None;
    }
  }

  datatype LoggedResponse = BodyJson(body: ResponseBody) | ErrorJson(message: string)

  /** A row of the `activity_logs` table. */
  datatype LogRow = LogRow(
    createdAt: string,
    action: string,
    request: string,
    response: LoggedResponse,
    kind: string,
    shop: Option<string>)

  /** The append-only activity log. */
  class ActivityLog {
    var rows: seq<LogRow>

    constructor ()
      ensures rows == []
    {
      rows := [];
    }

    method Create(row: LogRow)
      modifies this
      ensures rows == old(rows) + [row]
    {
      rows := rows + [row];
    }
  }

  /** The log row for an authenticated request once its handler settled. */
  function ActivityRow(url: string, verb: string, body: ResponseBody, downstream: Outcome,
                       settings: SettingsRow, createdAt: string): (row: LogRow)
    ensures row.action == url && row.request == verb && row.shop == settings.shop
    ensures row.kind == "success" <==> downstream.Resolved?
    ensures row.kind == "error" <==> downstream.Rejected?
    ensures downstream.Resolved? ==> row.response == BodyJson(body)
    ensures downstream.Rejected? ==> row.response == ErrorJson(downstream.error)
  {
    match downstream
    case Resolved => LogRow(createdAt, url, verb, BodyJson(body), "success", settings.shop)
    case Rejected(e) => LogRow(createdAt, url, verb, ErrorJson(e), "error", settings.shop)
  }

  /** `logActivity`, called once the downstream handler has settled with
      `downstream` and left `ctx` as it is; `rows` is the settings table as
      the token check read it before. A row is written only for an
      authenticated request, and a rejection goes no further. */
  method LogActivity(ctx: Context, rows: seq<SettingsRow>, downstream: Outcome,
                     log: ActivityLog, createdAt: string)
    modifies log
    ensures CheckAuth(ctx.url, rows).None? ==> log.rows == old(log.rows)
    ensures CheckAuth(ctx.url, rows).Some? ==>
      log.rows == old(log.rows)
                  + [ActivityRow(ctx.url, ctx.verb, ctx.body, downstream, CheckAuth(ctx.url, rows).value, createdAt)]
  {
    var settings := CheckAuth(ctx.url, rows);
    if settings.Some? {
      match downstream
      case Resolved =>
        log.Create(LogRow(createdAt, ctx.url, ctx.verb, BodyJson(ctx.body), "success", settings.value.shop));
      case Rejected(error) =>
        log.Create(LogRow(createdAt, ctx.url, ctx.verb, ErrorJson(error), "error", settings.value.shop));
    }
  }

  // ---------------------------------------------------------------------
  // Product webhook
  // ---------------------------------------------------------------------

  /** The requests one step of the product loop issues: the change
      notification, then the suggestion when the marketplace answered 404
      and the suggestion was issued. */
  function StepCalls(notification: ClientCall, status: Option<int>, suggestion: ClientCall): seq<Request>
  {
    if notification.Sent? then
      [notification.request] + (if status == Some(404) && suggestion.Sent? then [suggestion.request] else [])
    else []
  }

  /** The requests one variant of an updated product causes. */
  function VariantCalls(body: ProductData, v: ProductVariant, shop: string, rows: seq<SettingsRow>,
                        notificationStatus: string -> Option<int>,
                        lookup: string -> Option<Variant>, currency: Option<string>): seq<Request>
  {
    StepCalls(ChangeNotification(v.id, shop, rows), notificationStatus(v.id),
              SendSkuSuggestion(v.id, body, shop, rows, lookup(v.id), currency))
  }

  /** The requests caused by the first `n` variants of the product, in order. */
  function ProductCalls(body: ProductData, n: nat, shop: string, rows: seq<SettingsRow>,
                        notificationStatus: string -> Option<int>,
                        lookup: string -> Option<Variant>, currency: Option<string>): seq<Request>
    requires n <= |body.variants|
  {
    if n == 0 then []
    else ProductCalls(body, n - 1, shop, rows, notificationStatus, lookup, currency)
         + VariantCalls(body, body.variants[n - 1], shop, rows, notificationStatus, lookup, currency)
  }

  /** Appending requests in two steps appends their concatenation. */
  lemma AppendAssociative(a: seq<Request>, b: seq<Request>, c: seq<Request>)
    ensures (a + b) + c == a + (b + c)
  {
  }

  /** The requests of `k + 1` variants extend those of `k` by the next variant's. */
  lemma ProductCallsNext(body: ProductData, k: nat, shop: string, rows: seq<SettingsRow>,
                         notificationStatus: string -> Option<int>,
                         lookup: string -> Option<Variant>, currency: Option<string>)
    requires k < |body.variants|
    ensures ProductCalls(body, k + 1, shop, rows, notificationStatus, lookup, currency)
         == ProductCalls(body, k, shop, rows, notificationStatus, lookup, currency)
            + VariantCalls(body, body.variants[k], shop, rows, notificationStatus, lookup, currency)
  {
  }

  /** The only PUT among a variant's requests is its suggestion: the
      change notification is a POST. */
  lemma PutIsSuggestion(body: ProductData, v: ProductVariant, shop: string, rows: seq<SettingsRow>,
                        notificationStatus: string -> Option<int>,
                        lookup: string -> Option<Variant>, currency: Option<string>)
    ensures var calls := VariantCalls(body, v, shop, rows, notificationStatus, lookup, currency);
      (exists k :: 0 <= k < |calls| && calls[k].verb == PUT) <==>
        && ChangeNotification(v.id, shop, rows).Sent?
        && notificationStatus(v.id) == Some(404)
        && SendSkuSuggestion(v.id, body, shop, rows, lookup(v.id), currency).Sent?
  {
    var calls := VariantCalls(body, v, shop, rows, notificationStatus, lookup, currency);
    var notification := ChangeNotification(v.id, shop, rows);
    var suggestion := SendSkuSuggestion(v.id, body, shop, rows, lookup(v.id), currency);
    if notification.Sent? {
      assert calls[0] == notification.request && calls[0].verb == POST;
      if notificationStatus(v.id) == Some(404) && suggestion.Sent? {
        assert calls == [notification.request, suggestion.request];
        assert calls[1].verb == PUT;
      } else {
        assert calls == [notification.request];
      }
    }
  }

  /** A suggestion is sent for a variant exactly when its change
      notification was answered with 404 and the product has an image. */
  lemma SuggestionOnlyAfterNotFound(body: ProductData, v: ProductVariant, shop: string, rows: seq<SettingsRow>,
                                    notificationStatus: string -> Option<int>,
                                    lookup: string -> Option<Variant>, currency: Option<string>)
    requires v in body.variants
    ensures var calls := VariantCalls(body, v, shop, rows, notificationStatus, lookup, currency);
      (exists k :: 0 <= k < |calls| && calls[k].verb == PUT) <==>
        && FindByShop(rows, shop).Some?
        && notificationStatus(v.id) == Some(404)
        && currency.Some?
        && |body.images| > 0
  {
    PutIsSuggestion(body, v, shop, rows, notificationStatus, lookup, currency);
    var i :| 0 <= i < |body.variants| && body.variants[i] == v;
    assert VariantIndex(body.variants, v.id).Some?;
  }

  /** Notify the change of one variant and, when the marketplace
      answered 404, send its suggestion. */
  method NotifyVariant(body: ProductData, item: ProductVariant, shop: string, rows: seq<SettingsRow>,
                       notificationStatus: string -> Option<int>,
                       lookup: string -> Option<Variant>, currency: Option<string>, outbox: Outbox)
    modifies outbox
    ensures outbox.sent == old(outbox.sent) + VariantCalls(body, item, shop, rows, notificationStatus, lookup, currency)
  {
    var notification := ChangeNotification(item.id, shop, rows);
    if notification.Sent? {
      outbox.Send(notification.request);
      if notificationStatus(item.id) == Some(404) {
        var suggestion := SendSkuSuggestion(item.id, body, shop, rows, lookup(item.id), currency);
        if suggestion.Sent? {
          outbox.Send(suggestion.request);
          AppendAssociative(old(outbox.sent), [notification.request], [suggestion.request]);
        }
      }
    }
  }

  /** One step of `handleProduct`: the requests of the `k`-th variant,
      after those of the variants before it. */
  method NotifyNext(body: ProductData, k: nat, shop: string, rows: seq<SettingsRow>,
                    notificationStatus: string -> Option<int>,
                    lookup: string -> Option<Variant>, currency: Option<string>,
                    outbox: Outbox, ghost before: seq<Request>)
    requires k < |body.variants|
    requires outbox.sent == before + ProductCalls(body, k, shop, rows, notificationStatus, lookup, currency)
    modifies outbox
    ensures outbox.sent == before + ProductCalls(body, k + 1, shop, rows, notificationStatus, lookup, currency)
  {
    ghost var done := ProductCalls(body, k, shop, rows, notificationStatus, lookup, currency);
    ghost var step := VariantCalls(body, body.variants[k], shop, rows, notificationStatus, lookup, currency);
    ProductCallsNext(body, k, shop, rows, notificationStatus, lookup, currency);
    NotifyVariant(body, body.variants[k], shop, rows, notificationStatus, lookup, currency, outbox);
    AppendAssociative(before, done, step);
  }

  /** `handleProduct`: for every variant, a change notification and,
      on a 404, a SKU suggestion. `notificationStatus` is the HTTP status
      the marketplace answers (None when the call fails); `lookup` and
      `currency` answer the suggestion's lookups. */
  method HandleProduct(body: ProductData, shop: string, rows: seq<SettingsRow>,
                       notificationStatus: string -> Option<int>,
                       lookup: string -> Option<Variant>, currency: Option<string>, outbox: Outbox)
    modifies outbox
    ensures outbox.sent == old(outbox.sent)
      + ProductCalls(body, |body.variants|, shop, rows, notificationStatus, lookup, currency)
  {
    var k := 0;
    while k < |body.variants|
      invariant 0 <= k <= |body.variants|
      invariant outbox.sent == old(outbox.sent)
        + ProductCalls(body, k, shop, rows, notificationStatus, lookup, currency)
    {
      NotifyNext(body, k, shop, rows, notificationStatus, lookup, currency, outbox, old(outbox.sent));
      k := k + 1;
    }
  }

  // ---------------------------------------------------------------------
  // Fulfillment routes
  // ---------------------------------------------------------------------

  /** The headers of a storefront admin API call. */
  function ShopifyHeaders(settings: SettingsRow): seq<Header>
  {
    [("Content-Type", "application/json"), ("X-Shopify-Access-Token", Text(settings.shopifyToken))]
  }

  /** `handleSimulation`: quote the cart. `zones` answers the shipping
      zone lookup (None when it fails), `lookup` the variant lookups, and
      the two orders are the completion orders of those lookups. */
  method HandleSimulation(ctx: Context, rows: seq<SettingsRow>, payload: SimulationRequest,
                          lookup: string -> Option<Variant>, zones: Option<seq<ShippingZone>>,
                          productOrder: seq<nat>, logisticsOrder: seq<nat>)
    returns (outcome: Outcome)
    requires IsOrdering(productOrder, |payload.items|) && IsOrdering(logisticsOrder, |payload.items|)
    modifies ctx
    ensures ctx.location == old(ctx.location)
    ensures CheckAuth(ctx.url, rows).None? ==> outcome == Resolved
    ensures CheckAuth(ctx.url, rows).Some? ==>
      (outcome.Resolved? <==> zones.Some? && AllResolve(payload.items, lookup))
    ensures CheckAuth(ctx.url, rows).None? || outcome.Rejected? ==>
      ctx.status == old(ctx.status) && ctx.body == old(ctx.body)
    ensures CheckAuth(ctx.url, rows).Some? && outcome.Resolved? ==>
      && ctx.status == 200
      && ctx.body == SimulationBody(SimulationResponse(
           payload.country, payload.postalCode, payload.geoCoordinates, [], [],
           QuotesInOrder(payload.items, lookup, CheckAuth(ctx.url, rows).value.sellerId, productOrder),
           LogisticsInOrder(payload, lookup, DomesticShipping(zones.value), logisticsOrder)))
  {
    var response := CheckAuth(ctx.url, rows);
    if response.None? {
      return Resolved;
    }
    var settings := response.value;
    var items := GetSimulationProducts(payload, settings.sellerId, lookup, productOrder);
    if items.Err? {
      return Rejected(items.reason);
    }
    var logisticsInfo := GetSimulationLogisticInfo(payload, zones, lookup, logisticsOrder);
    if logisticsInfo.Err? {
      return Rejected(logisticsInfo.reason);
    }
    ctx.status := 200;
    ctx.body := SimulationBody(SimulationResponse(payload.country, payload.postalCode, payload.geoCoordinates,
                                                  [], [], items.value, logisticsInfo.value));
    outcome := Resolved;
  }

  /** `orderPlacement`: create the storefront order and answer with it.
      `createdOrderId` is the id the storefront answers with (None when
      the call or its JSON fails). */
  method OrderPlacement(ctx: Context, rows: seq<SettingsRow>, payload: seq<MarketplaceOrder>,
                        lookup: string -> Option<Variant>, createdOrderId: Option<string>, outbox: Outbox)
    returns (outcome: Outcome)
    modifies ctx, outbox
    ensures ctx.location == old(ctx.location)
    ensures CheckAuth(ctx.url, rows).None? ==> outcome == Resolved && outbox.sent == old(outbox.sent)
    ensures CheckAuth(ctx.url, rows).None? || outcome.Rejected? ==>
      ctx.status == old(ctx.status) && ctx.body == old(ctx.body)
    ensures CheckAuth(ctx.url, rows).Some? && GenerateOrderObject(payload, lookup).Err? ==>
      outcome.Rejected? && outbox.sent == old(outbox.sent)
    ensures CheckAuth(ctx.url, rows).Some? && GenerateOrderObject(payload, lookup).Ok? ==>
      var settings := CheckAuth(ctx.url, rows).value;
      && outbox.sent == old(outbox.sent) + [Request(POST, "https://" + Text(settings.shop) + "/admin/api/2021-07/orders.json",
                                                     ShopifyHeaders(settings), OrderBody(GenerateOrderObject(payload, lookup).value))]
      && (outcome.Resolved? <==> createdOrderId.Some?)
      && (outcome.Resolved? ==>
            && ctx.status == 200
            && ctx.body == PlacementBody([PlacedOrder(payload[0].marketplaceOrderId, createdOrderId.value,
                                                      payload[0].clientProfileData.email, payload[0].items,
                                                      payload[0].clientProfileData, payload[0].shippingData, None)]))
  {
    var response := CheckAuth(ctx.url, rows);
    if response.None? {
      return Resolved;
    }
    var settings := response.value;
    var orderBody := GenerateOrderObject(payload, lookup);
    if orderBody.Err? {
      return Rejected(orderBody.reason);
    }
    outbox.Send(Request(POST, "https://" + Text(settings.shop) + "/admin/api/2021-07/orders.json",
                        ShopifyHeaders(settings), OrderBody(orderBody.value)));
    if createdOrderId.None? {
      return Rejected("order creation failed");
    }
    var first := payload[0];
    ctx.status := 200;
    ctx.body := PlacementBody([PlacedOrder(first.marketplaceOrderId, createdOrderId.value,
                                           first.clientProfileData.email, first.items,
                                           first.clientProfileData, first.shippingData, None)]);
    outcome := Resolved;
  }

  /** `orderCancel`: cancel the storefront order named by the route and
      answer with a receipt. `cancelled` says whether the storefront call
      and its JSON succeed; `date` is the current time. */
  method OrderCancel(ctx: Context, rows: seq<SettingsRow>, marketplaceOrderId: Option<string>,
                     orderId: string, cancelled: bool, date: string, outbox: Outbox)
    returns (outcome: Outcome)
    modifies ctx, outbox
    ensures ctx.location == old(ctx.location)
    ensures CheckAuth(ctx.url, rows).None? ==> outcome == Resolved && outbox.sent == old(outbox.sent)
    ensures CheckAuth(ctx.url, rows).None? || outcome.Rejected? ==>
      ctx.status == old(ctx.status) && ctx.body == old(ctx.body)
    ensures CheckAuth(ctx.url, rows).Some? ==>
      var settings := CheckAuth(ctx.url, rows).value;
      && outbox.sent == old(outbox.sent)
           + [Request(POST, "https://" + Text(settings.shop) + "/admin/api/2021-07/orders/" + orderId + "/cancel.json",
                      ShopifyHeaders(settings), EmptyJson)]
      && (outcome.Resolved? <==> cancelled)
      && (outcome.Resolved? ==>
            ctx.status == 200 && ctx.body == ReceiptBody(Receipt(date, marketplaceOrderId, orderId, None)))
  {
    var response := CheckAuth(ctx.url, rows);
    if response.None? {
      return Resolved;
    }
    var settings := response.value;
    outbox.Send(Request(POST, "https://" + Text(settings.shop) + "/admin/api/2021-07/orders/" + orderId + "/cancel.json",
                        ShopifyHeaders(settings), EmptyJson));
    if !cancelled {
      return Rejected("order cancellation failed");
    }
    ctx.status := 200;
    ctx.body := ReceiptBody(Receipt(date, marketplaceOrderId, orderId, None));
    outcome := Resolved;
  }

  /** `fulfillOrder`: answer with a receipt and call nothing; `date` is
      the current time. */
  method FulfillOrder(ctx: Context, rows: seq<SettingsRow>, marketplaceOrderId: Option<string>,
                      orderId: string, date: string)
    modifies ctx
    ensures ctx.location == old(ctx.location)
    ensures CheckAuth(ctx.url, rows).None? ==> ctx.status == old(ctx.status) && ctx.body == old(ctx.body)
    ensures CheckAuth(ctx.url, rows).Some? ==>
      ctx.status == 200 && ctx.body == ReceiptBody(Receipt(date, marketplaceOrderId, orderId, None))
  {
    var response := CheckAuth(ctx.url, rows);
    if response.Some? {
      ctx.status := 200;
      ctx.body := ReceiptBody(Receipt(date, marketplaceOrderId, orderId, None));
    }
  }
}
