/** The marketplace client: authentication headers and the requests each
    client function issues (server/vtex/vtexClient.js). Every function
    first loads the shop's settings row; a missing row makes it throw. */
module VtexClient {
  import opened Common
  import opened Fetch
  import VtexHelper

  /** What a client function does: issue one request, return without a
      call, or throw before any call. */
  datatype ClientCall = Sent(request: Request) | Skipped | Failed(reason: string)

  /** `headers`: JSON content negotiation plus the app key and token. */
  function Headers(settings: SettingsRow): (h: seq<Header>)
    ensures |h| == 4
    ensures forall i, j :: 0 <= i < j < |h| ==> h[i].0 != h[j].0
    ensures ("X-VTEX-API-AppKey", Text(settings.appKey)) in h
    ensures ("X-VTEX-API-AppToken", Text(settings.appToken)) in h
    ensures h[0] == ("Content-Type", "application/json; charset=utf-8") && h[1] == ("Accept", "application/json")
  {
    [("Content-Type", "application/json; charset=utf-8"),
     ("Accept", "application/json"),
     ("X-VTEX-API-AppKey", Text(settings.appKey)),
     ("X-VTEX-API-AppToken", Text(settings.appToken))]
  }

  /** The marketplace order-management URL of an order. */
  function OrderUrl(settings: SettingsRow, orderId: string): string
  {
    "https://" + Text(settings.accountName) + ".myvtex.com/api/oms/pvt/orders/" + orderId
  }

  /** `changeNotification`: tell the marketplace catalog that a SKU changed. */
  function ChangeNotification(skuId: string, shop: string, rows: seq<SettingsRow>): (c: ClientCall)
    ensures c.Failed? <==> FindByShop(rows, shop).None?
    ensures !c.Skipped?
    ensures c.Sent? ==> var s := FindByShop(rows, shop).value;
      c.request == Request(POST,
        "https://" + Text(s.accountName) + ".myvtex.com/api/catalog_system/pvt/skuseller/changenotification/"
          + Text(s.sellerId) + "/" + skuId,
        Headers(s), NoPayload)
  {
    match FindByShop(rows, shop)
    case None => Failed("no settings for shop " + shop)
    case Some(s) =>
      Sent(Request(POST,
        "https://" + Text(s.accountName) + ".myvtex.com/api/catalog_system/pvt/skuseller/changenotification/"
          + Text(s.sellerId) + "/" + skuId,
        Headers(s), NoPayload))
  }

  /** `sendSKUSuggestion`: PUT the catalog suggestion, but only when it has
      an image; otherwise return without a call. */
  function SendSkuSuggestion(skuId: string, body: VtexHelper.ProductData, shop: string, rows: seq<SettingsRow>,
                             variant: Option<VtexHelper.Variant>, currency: Option<string>): (c: ClientCall)
    ensures c.Sent? <==>
      && FindByShop(rows, shop).Some?
      && VtexHelper.VariantIndex(body.variants, skuId).Some? && currency.Some?
      && |body.images| > 0
    ensures c.Skipped? <==>
      && FindByShop(rows, shop).Some?
      && VtexHelper.VariantIndex(body.variants, skuId).Some? && currency.Some?
      && |body.images| == 0
    ensures c.Sent? ==> var s := FindByShop(rows, shop).value;
      && c.request.verb == PUT
      && c.request.url == "https://api.vtex.com/" + Text(s.accountName) + "/suggestions/" + Text(s.sellerId) + "/" + skuId
      && c.request.headers == Headers(s)
      && c.request.payload == SuggestionPayload(VtexHelper.FormattedProductData(skuId, body, s, variant, currency).value)
  {
    match FindByShop(rows, shop)
    case None => Failed("no settings for shop " + shop)
    case Some(s) =>
      match VtexHelper.FormattedProductData(skuId, body, s, variant, currency)
      case Err(e) => Failed(e)
      case Ok(payload) =>
        if |payload.images| > 0 then
          Sent(Request(PUT,
            "https://api.vtex.com/" + Text(s.accountName) + "/suggestions/" + Text(s.sellerId) + "/" + skuId,
            Headers(s), SuggestionPayload(payload)))
        else Skipped
  }

  /** `cancelOrder`: cancel a marketplace order. */
  function CancelOrder(orderId: string, shop: string, rows: seq<SettingsRow>): (c: ClientCall)
    ensures c.Failed? <==> FindByShop(rows, shop).None?
    ensures !c.Skipped?
    ensures c.Sent? ==> var s := FindByShop(rows, shop).value;
      c.request == Request(POST, OrderUrl(s, orderId) + "/cancel", Headers(s), NoPayload)
  {
    match FindByShop(rows, shop)
    case None => Failed("no settings for shop " + shop)
    case Some(s) => Sent(Request(POST, OrderUrl(s, orderId) + "/cancel", Headers(s), NoPayload))
  }

  /** `notifyInvoice`: post the invoice of a paid storefront order to the
      marketplace order it references; `issuanceDate` is the current time. */
  function NotifyInvoice(data: VtexHelper.ShopifyOrder, shop: string, rows: seq<SettingsRow>,
                         issuanceDate: string): (c: ClientCall)
    ensures c.Failed? <==> FindByShop(rows, shop).None?
    ensures !c.Skipped?
    ensures c.Sent? ==> var s := FindByShop(rows, shop).value;
      c.request == Request(POST, OrderUrl(s, Text(data.reference)) + "/invoice", Headers(s),
                           InvoicePayload(VtexHelper.FormattedInvoiceData(data, issuanceDate)))
  {
    match FindByShop(rows, shop)
    case None => Failed("no settings for shop " + shop)
    case Some(s) =>
      Sent(Request(POST, OrderUrl(s, Text(data.reference)) + "/invoice", Headers(s),
                   InvoicePayload(VtexHelper.FormattedInvoiceData(data, issuanceDate))))
  }

  /** `updateTracking`: patch the invoice with the tracking data of the
      first fulfillment, only when that has a tracking number. A present
      but empty fulfillment list is not guarded: reading its first entry throws. */
  function UpdateTracking(data: Option<VtexHelper.ShopifyOrder>, shop: string, rows: seq<SettingsRow>): (c: ClientCall)
    ensures c.Sent? <==>
      && FindByShop(rows, shop).Some? && data.Some? && data.value.fulfillments.Some?
      && |data.value.fulfillments.value| > 0
      && Truthy(data.value.fulfillments.value[0].trackingNumber)
    ensures c.Failed? <==>
      FindByShop(rows, shop).None? || (data.Some? && data.value.fulfillments == Some([]))
    ensures c.Sent? ==>
      var s := FindByShop(rows, shop).value;
      var f := data.value.fulfillments.value[0];
      c.request == Request(PATCH, OrderUrl(s, Text(data.value.reference)) + "/invoice/" + data.value.id,
        Headers(s), TrackingBody(TrackingPayload(f.trackingNumber.value, f.trackingCompany, f.trackingUrl)))
  {
    match FindByShop(rows, shop)
    case None => Failed("no settings for shop " + shop)
    case Some(s) =>
      if data.None? || data.value.fulfillments.None? then Skipped
      else if |data.value.fulfillments.value| == 0 then Failed("cannot read properties of undefined")
      else
        var f := data.value.fulfillments.value[0];
        if !Truthy(f.trackingNumber) then Skipped
        else
          Sent(Request(PATCH, OrderUrl(s, Text(data.value.reference)) + "/invoice/" + data.value.id,
            Headers(s), TrackingBody(TrackingPayload(f.trackingNumber.value, f.trackingCompany, f.trackingUrl))))
  }

  /** The tracking update patches exactly the invoice that the invoice
      notification of the same order created: its URL is the invoice URL
      followed by the invoice number. */
  lemma TrackingPatchesNotifiedInvoice(data: VtexHelper.ShopifyOrder, shop: string, rows: seq<SettingsRow>,
                                       issuanceDate: string)
    requires UpdateTracking(Some(data), shop, rows).Sent?
    ensures NotifyInvoice(data, shop, rows, issuanceDate).Sent?
    ensures var invoice := NotifyInvoice(data, shop, rows, issuanceDate).request;
      && UpdateTracking(Some(data), shop, rows).request.url
           == invoice.url + "/" + invoice.payload.invoice.invoiceNumber
      && UpdateTracking(Some(data), shop, rows).request.headers == invoice.headers
  {
  }
}
