/** The outgoing HTTP requests of the connector, as values, and the
    record of those that were sent. */
module Fetch {
  import opened Common
  import VtexHelper
  import ShopifyHelper

  datatype Verb = GET | POST | PUT | PATCH

  type Header = (string, string)

  datatype TrackingPayload = TrackingPayload(
    trackingNumber: string,
    courier: Option<string>,
    trackingUrl: Option<string>)

  /** The JSON body of a request. */
  datatype Payload =
    | NoPayload
    | EmptyJson
    | SuggestionPayload(suggestion: VtexHelper.SkuSuggestion)
    | InvoicePayload(invoice: VtexHelper.Invoice)
    | TrackingBody(tracking: TrackingPayload)
    | OrderBody(order: ShopifyHelper.OrderPayload)

  datatype Request = Request(verb: Verb, url: string, headers: seq<Header>, payload: Payload)

  /** The requests sent so far, oldest first. */
  class Outbox {
    var sent: seq<Request>

    constructor ()
      ensures sent == []
    {
      sent := [];
    }

    method Send(request: Request)
      modifies this
      ensures sent == old(sent) + [request]
    {
      sent := sent + [request];
    }
  }
}
