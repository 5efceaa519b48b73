/** Translation of a marketplace order into the storefront's
    order-creation payload (server/shopify/shopifyHelper.js). */
module ShopifyHelper {
  import opened Common
  import VtexHelper

  datatype ClientProfile = ClientProfile(
    firstName: string,
    lastName: string,
    email: string,
    phone: string)

  datatype MarketplaceAddress = MarketplaceAddress(
    street: Option<string>,
    number: Option<string>,
    city: string,
    state: string,
    country: string,
    postalCode: string)

  /** One shipping leg; its price is in minor units. */
  datatype LogisticsLeg = LogisticsLeg(price: int)

  datatype ShippingData = ShippingData(address: MarketplaceAddress, logisticsInfo: seq<LogisticsLeg>)

  /** A marketplace order line; `price` is in minor units per multiplier unit. */
  datatype MarketplaceItem = MarketplaceItem(id: string, quantity: int, unitMultiplier: real, price: int)

  datatype MarketplaceOrder = MarketplaceOrder(
    marketplaceOrderId: string,
    clientProfileData: ClientProfile,
    items: seq<MarketplaceItem>,
    shippingData: ShippingData,
    marketplacePaymentValue: int)

  datatype LineItem = LineItem(title: string, variantId: string, quantity: real, price: Num)

  datatype ShippingLine = ShippingLine(
    code: string,
    price: real,
    title: string,
    carrierIdentifier: Option<string>,
    requestedFulfillmentServiceId: Option<string>)

  datatype Customer = Customer(firstName: string, lastName: string, email: string)

  datatype Address = Address(
    firstName: string,
    lastName: string,
    address1: string,
    phone: string,
    city: string,
    province: string,
    country: string,
    zip: string)

  datatype Transaction = Transaction(amount: real, kind: string, status: string)

  /** The body of the storefront's create-order call. */
  datatype OrderPayload = OrderPayload(
    lineItems: seq<LineItem>,
    shippingLines: seq<ShippingLine>,
    customer: Customer,
    billingAddress: Address,
    shippingAddress: Address,
    email: string,
    financialStatus: string,
    reference: string,
    fulfillmentStatus: string,
    transactions: seq<Transaction>)

  /** The shipping legs' prices summed as a left fold, as `reduce` from 0 does. */
  function ShippingCost(legs: seq<LogisticsLeg>): int
  {
    if legs == [] then 0 else ShippingCost(legs[..|legs| - 1]) + legs[|legs| - 1].price
  }

  /** The shipping cost is additive over the legs: every leg is counted once. */
  lemma {:induction false} ShippingCostAppend(a: seq<LogisticsLeg>, b: seq<LogisticsLeg>)
    ensures ShippingCost(a + b) == ShippingCost(a) + ShippingCost(b)
  {
    if b == [] {
      assert a + b == a;
    } else {
      ShippingCostAppend(a, b[..|b| - 1]);
      assert (a + b)[..|a + b| - 1] == a + b[..|b| - 1];
    }
  }

  /** The storefront line for a marketplace item whose variant is titled `title`. */
  function LineItemFor(item: MarketplaceItem, title: string): LineItem
  {
    LineItem(title, item.id, (item.quantity as real) * item.unitMultiplier,
             Divide(Divide(Finite(item.price as real), item.unitMultiplier), VtexHelper.PriceMultiplier))
  }

  /** The line price undoes the marketplace encoding: times the multiplier
      and times 100 it gives back the minor-unit price; a zero multiplier
      gives a non-finite price. */
  lemma LinePriceRoundTrip(item: MarketplaceItem, title: string)
    ensures var line := LineItemFor(item, title);
      && line.quantity == (item.quantity as real) * item.unitMultiplier
      && (item.unitMultiplier != 0.0 ==>
            line.price.Finite? && line.price.value * item.unitMultiplier * VtexHelper.PriceMultiplier == item.price as real)
      && (item.unitMultiplier == 0.0 ==> line.price == NonFinite)
  {
    if item.unitMultiplier != 0.0 {
      var p := item.price as real;
      var m := item.unitMultiplier;
      assert (p / m / 100.0) * m == p / 100.0;
      assert (p / 100.0) * 100.0 == p;
    }
  }

  /** The line items, one per item in order; any failed variant lookup
      rejects the whole translation. */
  function LineItems(items: seq<MarketplaceItem>, lookup: string -> Option<VtexHelper.Variant>)
    : (r: Result<seq<LineItem>>)
    ensures r.Ok? <==> forall i :: 0 <= i < |items| ==> lookup(items[i].id).Some?
    ensures r.Ok? ==> |r.value| == |items|
    ensures r.Ok? ==> forall i :: 0 <= i < |items| ==>
      r.value[i] == LineItemFor(items[i], lookup(items[i].id).value.title)
  {
    if items == [] then Ok([])
    else match lookup(items[0].id)
      case None => Err("variant lookup failed for item " + items[0].id)
      case Some(variant) =>
        match LineItems(items[1..], lookup)
        case Err(e) => Err(e)
        case Ok(rest) => Ok([LineItemFor(items[0], variant.title)] + rest)
  }

  function AddressOf(profile: ClientProfile, shipping: ShippingData): (r: Address)
    ensures r.firstName == profile.firstName && r.lastName == profile.lastName && r.phone == profile.phone
    ensures r.address1 == Text(shipping.address.street) + " " + Text(shipping.address.number)
    ensures r.city == shipping.address.city && r.province == shipping.address.state
    ensures r.country == shipping.address.country && r.zip == shipping.address.postalCode
  {
    var a := shipping.address;
    Address(profile.firstName, profile.lastName, Text(a.street) + " " + Text(a.number),
            profile.phone, a.city, a.state, a.country, a.postalCode)
  }

  /** `generateOrderObject`: only the first order of the array is read;
      reading from an empty array throws. */
  function GenerateOrderObject(data: seq<MarketplaceOrder>, lookup: string -> Option<VtexHelper.Variant>)
    : (r: Result<OrderPayload>)
    ensures r.Ok? <==> |data| > 0 && forall i :: 0 <= i < |data[0].items| ==> lookup(data[0].items[i].id).Some?
    ensures r.Ok? ==>
      var o := data[0]; var p := r.value;
      && |p.lineItems| == |o.items|
      && (forall i :: 0 <= i < |o.items| ==>
            && p.lineItems[i].variantId == o.items[i].id
            && p.lineItems[i].title == lookup(o.items[i].id).value.title
            && p.lineItems[i] == LineItemFor(o.items[i], lookup(o.items[i].id).value.title))
      && |p.shippingLines| == 1
      && p.shippingLines[0].code == "INT.TP" && p.shippingLines[0].title == "Standard"
      && p.shippingLines[0].price * VtexHelper.PriceMultiplier == ShippingCost(o.shippingData.logisticsInfo) as real
      && p.shippingAddress == AddressOf(o.clientProfileData, o.shippingData)
      && p.billingAddress == p.shippingAddress
      && p.customer == Customer(o.clientProfileData.firstName, o.clientProfileData.lastName, o.clientProfileData.email)
      && p.email == o.clientProfileData.email
      && p.financialStatus == "pending" && p.fulfillmentStatus == "fulfilled"
      && p.reference == o.marketplaceOrderId
      && |p.transactions| == 1
      && p.transactions[0].amount * VtexHelper.PriceMultiplier == o.marketplacePaymentValue as real
      && p.transactions[0].kind == "authorization" && p.transactions[0].status == "success"
  {
    if |data| == 0 then Err("cannot destructure data[0]")
    else
      var o := data[0];
      var profile := o.clientProfileData;
      var shippingCost := ShippingCost(o.shippingData.logisticsInfo);
      match LineItems(o.items, lookup)
      case Err(e) => Err(e)
      case Ok(products) =>
        var address := AddressOf(profile, o.shippingData);
        Ok(OrderPayload(
          products,
          [ShippingLine("INT.TP", (shippingCost as real) / VtexHelper.PriceMultiplier, "Standard", None, None)],
          Customer(profile.firstName, profile.lastName, profile.email),
          address, address, profile.email, "pending", o.marketplaceOrderId, "fulfilled",
          [Transaction((o.marketplacePaymentValue as real) / VtexHelper.PriceMultiplier, "authorization", "success")]))
  }

  /** Orders after the first do not influence the translation. */
  lemma OnlyFirstOrderRead(data: seq<MarketplaceOrder>, rest: seq<MarketplaceOrder>,
                           lookup: string -> Option<VtexHelper.Variant>)
    requires |data| > 0
    ensures GenerateOrderObject(data, lookup) == GenerateOrderObject([data[0]] + rest, lookup)
  {
  }

  /** One item of 2 units at 500 minor units, paid 1000: the line costs
      5.00 per unit and the transaction is 10.00. */
  lemma SingleItemExample()
    ensures var item := MarketplaceItem("1", 2, 1.0, 500);
      var order := MarketplaceOrder("MKT-1", ClientProfile("Ana", "Lima", "ana@example.com", "555"),
        [item], ShippingData(MarketplaceAddress(Some("Main St"), Some("10"), "Rio", "RJ", "BRA", "20000"),
                             [LogisticsLeg(300), LogisticsLeg(200)]), 1000);
      var r := GenerateOrderObject([order], (id: string) => Some(VtexHelper.Variant("Shirt", 5.0, 3, [])));
      && r.Ok?
      && r.value.lineItems == [LineItem("Shirt", "1", 2.0, Finite(5.0))]
      && r.value.shippingLines[0].price == 5.0
      && r.value.transactions[0].amount == 10.0
      && r.value.billingAddress.address1 == "Main St 10"
  {
    var legs := [LogisticsLeg(300), LogisticsLeg(200)];
    assert legs[..1] == [LogisticsLeg(300)];
    assert ShippingCost(legs) == 500;
  }
}
