/** Translators from storefront data to marketplace payloads: simulation
    quotes, catalog suggestions and invoices (server/vtex/vtexHelper.js). */
module VtexHelper {
  import opened Common

  /** Marketplace amounts are storefront amounts times this: integer minor units. */
  const PriceMultiplier: real := 100.0

  /** What the storefront's variant lookup returns for a variant id. */
  datatype Variant = Variant(
    title: string,
    price: real,
    inventoryQuantity: int,
    collectionTitles: seq<string>)

  // ---------------------------------------------------------------------
  // Cart simulation: quotes per item
  // ---------------------------------------------------------------------

  datatype RequestItem = RequestItem(id: string, quantity: int)

  datatype SimulationRequest = SimulationRequest(
    items: seq<RequestItem>,
    country: Option<string>,
    postalCode: Option<string>,
    geoCoordinates: Option<seq<real>>)

  datatype Quote = Quote(
    id: string,
    requestIndex: nat,
    quantity: int,
    price: real,
    listPrice: real,
    sellingPrice: real,
    measurementUnit: string,
    seller: Option<string>,
    unitMultiplier: int,
    availability: string)

  /** Every item's variant lookup succeeds. */
  predicate AllResolve(items: seq<RequestItem>, lookup: string -> Option<Variant>)
  {
    forall i :: 0 <= i < |items| ==> lookup(items[i].id).Some?
  }

  /** The quote for the item at position `index` of the request. */
  function QuoteFor(item: RequestItem, index: nat, variant: Variant, sellerId: Option<string>): (q: Quote)
    ensures q.id == item.id && q.requestIndex == index && q.quantity == item.quantity
    ensures q.price == q.listPrice == q.sellingPrice && q.price / PriceMultiplier == variant.price
    ensures q.unitMultiplier == 1 && q.seller == sellerId
    ensures q.availability == "available" <==> variant.inventoryQuantity != 0
    ensures q.availability in {"available", "unavailable"}
  {
    var price := variant.price * PriceMultiplier;
    Quote(item.id, index, item.quantity, price, price, price, "un", sellerId, 1,
          if variant.inventoryQuantity != 0 then "available" else "unavailable")
  }

  /** The quotes in the order the lookups completed. */
  function QuotesInOrder(items: seq<RequestItem>, lookup: string -> Option<Variant>,
                         sellerId: Option<string>, order: seq<nat>): seq<Quote>
    requires AllResolve(items, lookup) && IsOrdering(order, |items|)
  {
    seq(|order|, k requires 0 <= k < |order| =>
      QuoteFor(items[order[k]], order[k], lookup(items[order[k]].id).value, sellerId))
  }

  /** Whatever order the lookups complete in, each request position is
      quoted exactly once, with that item's id and quantity. */
  lemma QuotesCoverRequest(items: seq<RequestItem>, lookup: string -> Option<Variant>,
                           sellerId: Option<string>, order: seq<nat>, i: nat)
    requires AllResolve(items, lookup) && IsOrdering(order, |items|)
    requires i < |items|
    ensures var quotes := QuotesInOrder(items, lookup, sellerId, order);
      && |quotes| == |items|
      && (exists k :: 0 <= k < |quotes| && quotes[k].requestIndex == i
                      && quotes[k].id == items[i].id && quotes[k].quantity == items[i].quantity)
      && (forall k, l :: 0 <= k < l < |quotes| ==> quotes[k].requestIndex != quotes[l].requestIndex)
  {
    OrderingCovers(order, |items|, i);
    var k :| 0 <= k < |items| && order[k] == i;
    assert QuotesInOrder(items, lookup, sellerId, order)[k].requestIndex == i;
  }

  /** `getSimulationProducts`: one variant lookup per item, each pushing its
      quote when it completes; `order` is the completion order. */
  method GetSimulationProducts(data: SimulationRequest, sellerId: Option<string>,
                               lookup: string -> Option<Variant>, order: seq<nat>)
    returns (r: Result<seq<Quote>>)
    requires IsOrdering(order, |data.items|)
    ensures r.Ok? <==> AllResolve(data.items, lookup)
    ensures r.Ok? ==> r.value == QuotesInOrder(data.items, lookup, sellerId, order)
  {
    var response: seq<Quote> := [];
    var k := 0;
    while k < |order|
      invariant 0 <= k <= |order|
      invariant |response| == k
      invariant forall j :: 0 <= j < k ==> lookup(data.items[order[j]].id).Some?
      invariant forall j :: 0 <= j < k ==>
        response[j] == QuoteFor(data.items[order[j]], order[j], lookup(data.items[order[j]].id).value, sellerId)
    {
      var index := order[k];
      var item := data.items[index];
      var variant := lookup(item.id);
      if variant.None? {
        return Err("variant lookup failed for item " + item.id);
      }
      response := response + [QuoteFor(item, index, variant.value, sellerId)];
      k := k + 1;
    }
    forall i | 0 <= i < |data.items|
      ensures lookup(data.items[i].id).Some?
    {
      OrderingCovers(order, |data.items|, i);
    }
    r := Ok(response);
  }

  // ---------------------------------------------------------------------
  // Cart simulation: logistics per item
  // ---------------------------------------------------------------------

  datatype ShippingRate = ShippingRate(price: real)

  datatype ShippingZone = ShippingZone(name: string, priceBasedRates: seq<ShippingRate>)

  datatype Sla = Sla(id: string, deliveryChannel: string, name: string,
                     shippingEstimate: string, price: real)

  datatype DeliveryChannel = DeliveryChannel(id: string, stockBalance: int)

  datatype LogisticsEntry = LogisticsEntry(
    itemIndex: nat,
    quantity: int,
    stockBalance: int,
    shipsTo: seq<Option<string>>,
    slas: seq<Sla>,
    deliveryChannels: seq<DeliveryChannel>)

  predicate IsDomestic(zone: ShippingZone)
  {
    zone.name == "Domestic"
  }

  /** The zones named "Domestic", in order. */
  function DomesticZones(zones: seq<ShippingZone>): (r: seq<ShippingZone>)
    ensures |r| <= |zones|
    ensures forall z :: z in r ==> z in zones && IsDomestic(z)
  {
    if zones == [] then []
    else (if IsDomestic(zones[0]) then [zones[0]] else []) + DomesticZones(zones[1..])
  }

  /** The shipping cost in minor units: the first price-based rate of the
      first "Domestic" zone, and 0 when there is no such zone or rate. */
  function DomesticShipping(zones: seq<ShippingZone>): (cost: real)
    ensures (forall j :: 0 <= j < |zones| ==> !IsDomestic(zones[j])) ==> cost == 0.0
    ensures forall j :: 0 <= j < |zones| && IsDomestic(zones[j])
                        && (forall l :: 0 <= l < j ==> !IsDomestic(zones[l])) ==>
      cost == if |zones[j].priceBasedRates| > 0
              then zones[j].priceBasedRates[0].price * PriceMultiplier else 0.0
  {
    match FirstIndex(zones, IsDomestic)
    case None => 0.0
    case Some(i) =>
      if |zones[i].priceBasedRates| > 0 then zones[i].priceBasedRates[0].price * PriceMultiplier else 0.0
  }

  /** Filtering and taking the head finds the first "Domestic" zone. */
  lemma {:induction false} DomesticFilterFindsFirst(zones: seq<ShippingZone>)
    ensures |DomesticZones(zones)| > 0 <==> FirstIndex(zones, IsDomestic).Some?
    ensures |DomesticZones(zones)| > 0 ==>
      DomesticZones(zones)[0] == zones[FirstIndex(zones, IsDomestic).value]
  {
    if zones != [] && !IsDomestic(zones[0]) {
      DomesticFilterFindsFirst(zones[1..]);
    }
  }

  /** The logistics entry for the item at position `index`, when `count`
      items share the shipping cost. */
  function EntryFor(item: RequestItem, index: nat, variant: Variant, country: Option<string>,
                    shipping: real, count: nat): (e: LogisticsEntry)
    requires count > 0
    ensures e.itemIndex == index && e.quantity == item.quantity && e.shipsTo == [country]
    ensures |e.slas| == 1 && e.slas[0].price * (count as real) == shipping
    ensures e.deliveryChannels == [DeliveryChannel("delivery", variant.inventoryQuantity)]
    ensures e.slas[0].id == "Normal" && e.slas[0].deliveryChannel == "delivery"
    ensures e.slas[0].shippingEstimate == "1bd"
    ensures e.stockBalance == variant.inventoryQuantity
  {
    LogisticsEntry(index, item.quantity, variant.inventoryQuantity, [country],
      [Sla("Normal", "delivery", "Normal", "1bd", shipping / (count as real))],
      [DeliveryChannel("delivery", variant.inventoryQuantity)])
  }

  /** The logistics entries in the order the lookups completed. */
  function LogisticsInOrder(data: SimulationRequest, lookup: string -> Option<Variant>,
                            shipping: real, order: seq<nat>): seq<LogisticsEntry>
    requires AllResolve(data.items, lookup) && IsOrdering(order, |data.items|)
  {
    seq(|order|, k requires 0 <= k < |order| =>
      EntryFor(data.items[order[k]], order[k], lookup(data.items[order[k]].id).value,
               data.country, shipping, |data.items|))
  }

  /** The sum of the first SLA price of every entry. */
  function SlaTotal(entries: seq<LogisticsEntry>): real
  {
    if entries == [] then 0.0
    else (if |entries[0].slas| > 0 then entries[0].slas[0].price else 0.0) + SlaTotal(entries[1..])
  }

  lemma {:induction false} SlaTotalUniform(entries: seq<LogisticsEntry>, price: real)
    requires forall k :: 0 <= k < |entries| ==> |entries[k].slas| > 0 && entries[k].slas[0].price == price
    ensures SlaTotal(entries) == (|entries| as real) * price
  {
    if entries != [] {
      SlaTotalUniform(entries[1..], price);
    }
  }

  /** For a non-empty request the SLA prices add up to the shipping cost. */
  lemma SlaPricesSumToShipping(data: SimulationRequest, lookup: string -> Option<Variant>,
                               shipping: real, order: seq<nat>)
    requires AllResolve(data.items, lookup) && IsOrdering(order, |data.items|)
    requires |data.items| > 0
    ensures SlaTotal(LogisticsInOrder(data, lookup, shipping, order)) == shipping
  {
    var entries := LogisticsInOrder(data, lookup, shipping, order);
    var n := |data.items| as real;
    SlaTotalUniform(entries, shipping / n);
    assert n * (shipping / n) == shipping;
  }

  /** The shipping cost step of `getSimulationLogisticInfo`: the first
      price-based rate of the first "Domestic" zone, when there is one. */
  method PickShipping(zones: seq<ShippingZone>) returns (shipping: real)
    ensures shipping == DomesticShipping(zones)
  {
    shipping := 0.0;
    var shippingZone := DomesticZones(zones);
    if |shippingZone| > 0 {
      var zone := shippingZone[0];
      if |zone.priceBasedRates| > 0 {
        shipping := zone.priceBasedRates[0].price * PriceMultiplier;
      }
    }
    DomesticFilterFindsFirst(zones);
  }

  /** The lookup step of `getSimulationLogisticInfo`: one lookup per item,
      each pushing its entry, with the shipping cost shared by all items. */
  method LogisticsEntries(data: SimulationRequest, shipping: real,
                          lookup: string -> Option<Variant>, order: seq<nat>)
    returns (r: Result<seq<LogisticsEntry>>)
    requires IsOrdering(order, |data.items|)
    ensures r.Ok? <==> AllResolve(data.items, lookup)
    ensures r.Ok? ==> r.value == LogisticsInOrder(data, lookup, shipping, order)
  {
    var response: seq<LogisticsEntry> := [];
    var k := 0;
    while k < |order|
      invariant 0 <= k <= |order|
      invariant |response| == k
      invariant forall j :: 0 <= j < k ==> lookup(data.items[order[j]].id).Some?
      invariant forall j :: 0 <= j < k ==>
        response[j] == EntryFor(data.items[order[j]], order[j], lookup(data.items[order[j]].id).value,
                                data.country, shipping, |data.items|)
    {
      var index := order[k];
      var item := data.items[index];
      var variant := lookup(item.id);
      if variant.None? {
        return Err("variant lookup failed for item " + item.id);
      }
      response := response + [EntryFor(item, index, variant.value, data.country, shipping, |data.items|)];
      k := k + 1;
    }
    forall i | 0 <= i < |data.items|
      ensures lookup(data.items[i].id).Some?
    {
      OrderingCovers(order, |data.items|, i);
    }
    r := Ok(response);
  }

  /** `getSimulationLogisticInfo`: pick the shipping cost from the zones,
      then one lookup per item, each pushing its entry when it completes. */
  method GetSimulationLogisticInfo(data: SimulationRequest, zones: Option<seq<ShippingZone>>,
                                   lookup: string -> Option<Variant>, order: seq<nat>)
    returns (r: Result<seq<LogisticsEntry>>)
    requires IsOrdering(order, |data.items|)
    ensures r.Ok? <==> zones.Some? && AllResolve(data.items, lookup)
    ensures r.Ok? ==> r.value == LogisticsInOrder(data, lookup, DomesticShipping(zones.value), order)
  {
    if zones.None? {
      return Err("shipping zones lookup failed");
    }
    var shipping := PickShipping(zones.value);
    r := LogisticsEntries(data, shipping, lookup, order);
  }

  // ---------------------------------------------------------------------
  // Catalog suggestion
  // ---------------------------------------------------------------------

  datatype ProductImage = ProductImage(id: string, src: string)

  datatype ProductOption = ProductOption(name: string, position: int)

  datatype ProductVariant = ProductVariant(
    id: string,
    title: string,
    price: real,
    weight: real,
    inventoryQuantity: int,
    option1: Option<string>,
    option2: Option<string>,
    option3: Option<string>)

  /** A storefront product as the product-update webhook delivers it. */
  datatype ProductData = ProductData(
    id: string,
    title: string,
    bodyHtml: Option<string>,
    vendor: Option<string>,
    variants: seq<ProductVariant>,
    options: seq<ProductOption>,
    images: seq<ProductImage>)

  datatype ImageEntry = ImageEntry(imageName: string, imageUrl: string)

  datatype Specification = Specification(fieldName: string, fieldValues: seq<string>)

  datatype Pricing = Pricing(currency: string, salePrice: real, currencySymbol: string)

  datatype SkuSuggestion = SkuSuggestion(
    productName: string,
    productId: string,
    productDescription: Option<string>,
    brandName: string,
    skuName: string,
    sellerId: Option<string>,
    height: int,
    width: int,
    length: int,
    weightKg: real,
    refId: string,
    sellerStockKeepingUnitId: string,
    categoryFullPath: string,
    skuSpecifications: seq<Specification>,
    productSpecifications: seq<Specification>,
    images: seq<ImageEntry>,
    measurementUnit: string,
    unitMultiplier: int,
    availableQuantity: int,
    pricing: Pricing)

  /** The image entries, one per product image, in order. */
  function ImageList(images: seq<ProductImage>): (r: seq<ImageEntry>)
    ensures |r| == |images|
    ensures forall i :: 0 <= i < |images| ==>
      r[i] == ImageEntry("Image" + images[i].id, images[i].src)
  {
    if images == [] then []
    else ImageList(images[..|images| - 1])
         + [ImageEntry("Image" + images[|images| - 1].id, images[|images| - 1].src)]
  }

  /** `images`: the callbacks push before any await, so in input order. */
  method Images(data: ProductData) returns (output: seq<ImageEntry>)
    ensures output == ImageList(data.images)
  {
    output := [];
    var k := 0;
    while k < |data.images|
      invariant 0 <= k <= |data.images|
      invariant output == ImageList(data.images[..k])
    {
      var item := data.images[k];
      output := output + [ImageEntry("Image" + item.id, item.src)];
      assert data.images[..k + 1][..k] == data.images[..k];
      k := k + 1;
    }
    assert data.images[..k] == data.images;
  }

  /** `variant["option" + position]`: a variant has options 1 to 3. */
  function OptionValue(v: ProductVariant, position: int): Option<string>
  {
    if position == 1 then v.option1
    else if position == 2 then v.option2
    else if position == 3 then v.option3
    else None
  }

  function SpecOf(v: ProductVariant, o: ProductOption): Specification
    requires Truthy(OptionValue(v, o.position))
  {
    Specification(o.name, [OptionValue(v, o.position).value])
  }

  /** One specification per option whose value on the variant is truthy, in order. */
  function SpecsFor(v: ProductVariant, options: seq<ProductOption>): (r: seq<Specification>)
    ensures |r| <= |options|
  {
    if options == [] then []
    else
      var last := options[|options| - 1];
      SpecsFor(v, options[..|options| - 1])
      + (if Truthy(OptionValue(v, last.position)) then [SpecOf(v, last)] else [])
  }

  /** The specifications are exactly those of the options with a truthy
      value: each carries that one value, and none is skipped. */
  lemma {:induction false} SpecsForContents(v: ProductVariant, options: seq<ProductOption>)
    ensures forall e :: e in SpecsFor(v, options) ==> |e.fieldValues| == 1 && e.fieldValues[0] != ""
    ensures forall e :: e in SpecsFor(v, options) ==>
      exists o :: o in options && Truthy(OptionValue(v, o.position)) && e == SpecOf(v, o)
    ensures forall o :: o in options && Truthy(OptionValue(v, o.position)) ==> SpecOf(v, o) in SpecsFor(v, options)
    ensures (forall o :: o in options ==> Truthy(OptionValue(v, o.position))) ==> |SpecsFor(v, options)| == |options|
  {
    if options != [] {
      var init := options[..|options| - 1];
      var last := options[|options| - 1];
      SpecsForContents(v, init);
      assert options == init + [last];
      assert forall o :: o in options ==> o in init || o == last;
    }
  }

  /** `variants.filter(v => v.id == skuId)[0]`: the first variant with that id. */
  /** The positions of the options whose value on the variant is truthy. */
  function TruthyPositions(v: ProductVariant, options: seq<ProductOption>): set<nat>
  {
    set i: nat | i < |options| && Truthy(OptionValue(v, options[i].position))
  }

  /** Adding an option adds its position when its value is truthy. */
  lemma TruthyPositionsSnoc(v: ProductVariant, options: seq<ProductOption>)
    requires options != []
    ensures var n := |options| - 1;
      TruthyPositions(v, options)
      == TruthyPositions(v, options[..n]) + (if Truthy(OptionValue(v, options[n].position)) then {n} else {})
  {
    var n := |options| - 1;
    assert forall i: nat :: i < n ==> options[..n][i] == options[i];
  }

  /** There are exactly as many specifications as options with a truthy value. */
  lemma {:induction false} SpecsForCount(v: ProductVariant, options: seq<ProductOption>)
    ensures |SpecsFor(v, options)| == |TruthyPositions(v, options)|
  {
    if options != [] {
      var n := |options| - 1;
      SpecsForCount(v, options[..n]);
      TruthyPositionsSnoc(v, options);
      assert n !in TruthyPositions(v, options[..n]);
    }
  }

  /** The specifications of consecutive option lists follow each other: the
      options are visited in order, each once. */
  lemma {:induction false} SpecsForAppend(v: ProductVariant, a: seq<ProductOption>, b: seq<ProductOption>)
    ensures SpecsFor(v, a + b) == SpecsFor(v, a) + SpecsFor(v, b)
  {
    if b == [] {
      assert a + b == a;
    } else {
      var n := |b| - 1;
      SpecsForAppend(v, a, b[..n]);
      assert (a + b)[..|a + b| - 1] == a + b[..n];
      assert (a + b)[|a + b| - 1] == b[n];
    }
  }

  /** One option yields its specification when its value is truthy, and nothing otherwise. */
  lemma SpecsForSingle(v: ProductVariant, o: ProductOption)
    ensures SpecsFor(v, [o]) == (if Truthy(OptionValue(v, o.position)) then [SpecOf(v, o)] else [])
  {
    assert [o][..0] == [];
  }

  function VariantIndex(variants: seq<ProductVariant>, skuId: string): (r: Option<nat>)
    ensures r.Some? ==> r.value < |variants| && variants[r.value].id == skuId
    ensures r.Some? ==> forall j :: 0 <= j < r.value ==> variants[j].id != skuId
    ensures r.None? <==> forall j :: 0 <= j < |variants| ==> variants[j].id != skuId
  {
    FirstIndex(variants, (v: ProductVariant) => v.id == skuId)
  }

  /** `specifications`: the variant with id `skuId`, then one push per
      option with a truthy value, before any await, so in option order.
      Without such a variant, reading an option throws. */
  method Specifications(skuId: string, data: ProductData) returns (r: Result<seq<Specification>>)
    ensures VariantIndex(data.variants, skuId).Some? ==>
      r == Ok(SpecsFor(data.variants[VariantIndex(data.variants, skuId).value], data.options))
    ensures VariantIndex(data.variants, skuId).None? ==>
      (r.Ok? <==> data.options == []) && (r.Ok? ==> r.value == [])
  {
    var product := VariantIndex(data.variants, skuId);
    var output: seq<Specification> := [];
    var k := 0;
    while k < |data.options|
      invariant 0 <= k <= |data.options|
      invariant product.None? ==> k == 0 && output == []
      invariant product.Some? ==> output == SpecsFor(data.variants[product.value], data.options[..k])
    {
      if product.None? {
        return Err("product is undefined");
      }
      var item := data.options[k];
      var value := OptionValue(data.variants[product.value], item.position);
      assert data.options[..k + 1][..k] == data.options[..k];
      if Truthy(value) {
        output := output + [Specification(item.name, [value.value])];
      }
      k := k + 1;
    }
    assert data.options[..k] == data.options;
    r := Ok(output);
  }

  /** `variant?.product?.collections?.edges[0]?.node?.title ?? "NONAME"`. */
  function CategoryPath(variant: Option<Variant>): string
  {
    if variant.Some? && |variant.value.collectionTitles| > 0
    then variant.value.collectionTitles[0] else "NONAME"
  }

  /** `formattedProductData`: the SKU suggestion for variant `skuId` of a
      product; `variant` is the variant lookup's answer (None for null) and
      `currency` the shop's currency (None when that lookup fails). */
  function FormattedProductData(skuId: string, data: ProductData, settings: SettingsRow,
                                variant: Option<Variant>, currency: Option<string>)
    : (r: Result<SkuSuggestion>)
    ensures r.Ok? <==> VariantIndex(data.variants, skuId).Some? && currency.Some?
    ensures r.Ok? ==>
      var s := r.value;
      var sku := Text(settings.sellerId) + "-" + skuId;
      var v := data.variants[VariantIndex(data.variants, skuId).value];
      && s.skuName == sku && s.refId == sku && s.sellerStockKeepingUnitId == skuId
      && s.height == 1 && s.width == 1 && s.length == 1 && s.unitMultiplier == 1
      && v.id == skuId
      && s.productName == data.title + " " + v.title && s.productId == data.id
      && s.productDescription == data.bodyHtml && s.sellerId == settings.sellerId
      && s.skuSpecifications == SpecsFor(v, data.options)
      && s.productSpecifications == s.skuSpecifications
      && s.images == ImageList(data.images)
      && s.weightKg == v.weight && s.availableQuantity == v.inventoryQuantity
      && s.measurementUnit == "un" && s.pricing.salePrice == v.price
      && s.brandName == (if data.vendor.Some? then data.vendor.value else "NONAME")
      && s.categoryFullPath == (if variant.Some? && |variant.value.collectionTitles| > 0
                                then variant.value.collectionTitles[0] else "NONAME")
      && s.pricing.currency == currency.value && s.pricing.currencySymbol == currency.value
  {
    match VariantIndex(data.variants, skuId)
    case None => Err("product is undefined")
    case Some(i) =>
      if currency.None? then Err("shop lookup failed")
      else
        var product := data.variants[i];
        var sku := Text(settings.sellerId) + "-" + skuId;
        var specs := SpecsFor(product, data.options);
        Ok(SkuSuggestion(
          data.title + " " + product.title, data.id, data.bodyHtml,
          if data.vendor.Some? then data.vendor.value else "NONAME",
          sku, settings.sellerId, 1, 1, 1, product.weight, sku, skuId,
          CategoryPath(variant), specs, specs, ImageList(data.images), "un", 1,
          product.inventoryQuantity,
          Pricing(currency.value, product.price, currency.value)))
  }

  // ---------------------------------------------------------------------
  // Invoice
  // ---------------------------------------------------------------------

  datatype PaidLineItem = PaidLineItem(variantId: string, quantity: int, price: real)

  datatype Fulfillment = Fulfillment(
    trackingNumber: Option<string>,
    trackingCompany: Option<string>,
    trackingUrl: Option<string>)

  /** A storefront order as the order webhooks deliver it; `fulfillments`
      is None when the key is absent. */
  datatype ShopifyOrder = ShopifyOrder(
    id: string,
    reference: Option<string>,
    currentTotalPrice: real,
    lineItems: seq<PaidLineItem>,
    fulfillments: Option<seq<Fulfillment>>)

  datatype InvoiceItem = InvoiceItem(id: string, quantity: int, price: real)

  datatype Invoice = Invoice(
    kind: string,
    invoiceNumber: string,
    invoiceValue: real,
    issuanceDate: string,
    items: seq<InvoiceItem>)

  /** The invoice items, one per line item, in order, prices in minor units. */
  function InvoiceItems(lines: seq<PaidLineItem>): (r: seq<InvoiceItem>)
    ensures |r| == |lines|
    ensures forall i :: 0 <= i < |lines| ==>
      && r[i].id == lines[i].variantId && r[i].quantity == lines[i].quantity
      && r[i].price / PriceMultiplier == lines[i].price
  {
    if lines == [] then []
    else [InvoiceItem(lines[0].variantId, lines[0].quantity, lines[0].price * PriceMultiplier)]
         + InvoiceItems(lines[1..])
  }

  /** `formattedInvoiceData`; `issuanceDate` is the current time. */
  function FormattedInvoiceData(data: ShopifyOrder, issuanceDate: string): (inv: Invoice)
    ensures inv.kind == "Output" && inv.invoiceNumber == data.id && inv.issuanceDate == issuanceDate
    ensures inv.invoiceValue / PriceMultiplier == data.currentTotalPrice
    ensures inv.items == InvoiceItems(data.lineItems)
  {
    Invoice("Output", data.id, data.currentTotalPrice * PriceMultiplier, issuanceDate,
            InvoiceItems(data.lineItems))
  }
}
