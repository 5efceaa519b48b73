# Storefront–marketplace connector, modelled in Dafny

This project models the core of a connector app between a Shopify
storefront and the VTEX marketplace, and proves properties of that model:

- the payload translators in both directions:
  - a marketplace order becomes a storefront order;
  - a storefront order becomes a marketplace invoice or a tracking update;
  - a storefront product becomes a catalog SKU suggestion;
  - a cart becomes fulfillment simulation quotes and logistics entries;
- the requests the marketplace client issues and the guards in front of them;
- the fulfillment route handlers:
  - the query-string token check;
  - the activity log written around each request;
  - the fixed response shapes;
- the product-update webhook's "suggest after a 404" rule;
- the server's installed-shop map, the upserts of the `settings` table, and the access guards of the settings and catch-all routes;
- the settings page's form state: loading, per-field edits, validation and submit.

Modules, one per source file:

- `Common` (common.dfy): optional values, results, and JavaScript numbers after a division. It also holds the `settings` row and its `findOne` lookups by shop and by access token, the row's JSON, and orderings of concurrent lookups.
- `VtexHelper` (vtex_helper.dfy): server/vtex/vtexHelper.js.
- `ShopifyHelper` (shopify_helper.dfy): server/shopify/shopifyHelper.js.
- `Fetch` (fetch.dfy): outgoing HTTP requests, recorded in an `Outbox`.
- `VtexClient` (vtex_client.dfy): server/vtex/vtexClient.js.
- `VtexHandlers` (vtex_handlers.dfy): server/vtex/vtexHandlers.js.
- `Server` (server.dfy): the state and routes of server/server.js.
- `SettingsPage` (settings_page.dfy): pages/index.js.

Modelling conventions:

- **Money.** Marketplace amounts are `int` minor units. Storefront amounts are exact `real`s. A division by a zero unit multiplier yields `NonFinite`, which stands for JavaScript's Infinity/NaN.
- **Nulls.** A nullable value is an `Option`. Inside a template literal a null reads "null" (`Text`) and an undefined query value reads "undefined" (`QueryText`).
- **Remote lookups.** Variant lookups, the shipping zones, the shop currency, HTTP statuses and the ids the storefront answers with are parameters. A function-valued parameter answers per id; `None` means the lookup rejects or answers null.
- **Concurrency.** Concurrent lookups under `Promise.all` complete in an order given as a parameter, which must be a permutation (`IsOrdering`). The results are proved correct whatever that order is.
- **Requests.** Requests that change remote state are appended to `Fetch.Outbox.sent`. A handler's effect on the response is the new `status`/`body`/`location` of a `VtexHandlers.Context`.

## Model

| member | source | states |
|---|---|---|
| Common.FindByShop | server/vtex/vtexClient.js:4-6 | `findOne` by shop finds a row iff some row belongs to the shop, and then a row of that shop |
| Common.FindByAccessToken | server/vtex/vtexHandlers.js:48 | `findOne` by access token finds a row iff some row holds exactly that token, a null token matching null columns (`IS NULL`) |
| Common.RowJson | server/server.js:200 | the row's JSON has exactly the seven column names as keys, each holding that column's value |
| Common.Merge | server/server.js:137-144 | Sequelize's `update(body)` / `create(body)`: every column the body names takes the body's value, every other column keeps its own (null in a new row); keys that name no column are ignored |
| Common.FormBody | pages/index.js:37-47 | the posted JSON has exactly the five credential keys, each with its field's value, and no `shop` or `shopify_token` |
| VtexHelper.QuoteFor | server/vtex/vtexHelper.js:48-63 | a quote keeps the item's id, quantity and request index; price = listPrice = sellingPrice = variant price × 100; unit multiplier 1; seller is the seller id; "available" iff the inventory is non-zero |
| VtexHelper.QuotesCoverRequest | server/vtex/vtexHelper.js:45-51 | whatever the completion order, there is one quote per item, every request index 0..n-1 occurs exactly once, and the quote with index i carries item i's id and quantity |
| VtexHelper.GetSimulationProducts | server/vtex/vtexHelper.js:43-68 | succeeds iff every variant lookup succeeds, and then returns the quotes in completion order |
| VtexHelper.DomesticZones | server/vtex/vtexHelper.js:75-77 | the filter keeps only zones named "Domestic", drawn from the input |
| VtexHelper.DomesticShipping | server/vtex/vtexHelper.js:73-83 | shipping is 0 without a "Domestic" zone; otherwise it is the first such zone's first price-based rate × 100, or 0 when that zone has no rate |
| VtexHelper.DomesticFilterFindsFirst | server/vtex/vtexHelper.js:75-79 | the filtered list is non-empty iff a "Domestic" zone exists, and its head is the first one |
| VtexHelper.EntryFor | server/vtex/vtexHelper.js:88-107 | each entry has one SLA "Normal"/"delivery"/"1bd" whose price × item count is the shipping cost; ships to `[country]`; the stock balance is the variant's inventory, and so is its single "delivery" channel's |
| VtexHelper.SlaPricesSumToShipping | server/vtex/vtexHelper.js:85-101 | for a non-empty request the SLA prices of all entries add up to the shipping cost |
| VtexHelper.PickShipping | server/vtex/vtexHelper.js:73-83 | the shipping step's result is the cost `DomesticShipping` describes: the first price-based rate × 100 of the first "Domestic" zone, or 0 |
| VtexHelper.LogisticsEntries | server/vtex/vtexHelper.js:85-110 | succeeds iff every variant lookup succeeds, and then returns one entry per item in completion order, all sharing the given shipping cost |
| VtexHelper.GetSimulationLogisticInfo | server/vtex/vtexHelper.js:71-112 | succeeds iff the zone lookup and every variant lookup succeed, and then returns the entries in completion order with the shipping cost chosen from the zones |
| VtexHelper.ImageList | server/vtex/vtexHelper.js:117-122 | one entry per image, in order, named "Image" + id with the image's source URL |
| VtexHelper.Images | server/vtex/vtexHelper.js:114-126 | the pushing loop returns exactly the image list |
| VtexHelper.SpecsFor | server/vtex/vtexHelper.js:136-145 | at most one specification per option |
| VtexHelper.SpecsForContents | server/vtex/vtexHelper.js:136-145 | every specification has exactly one non-empty value taken from a truthy `option{position}`; every option with a truthy value is included; with all values truthy there is one per option |
| VtexHelper.SpecsForCount | server/vtex/vtexHelper.js:136-145 | there are exactly as many specifications as options whose value on the variant is truthy |
| VtexHelper.SpecsForAppend | server/vtex/vtexHelper.js:136-145 | the specifications of options `a + b` are those of `a` followed by those of `b`: each option is visited once, in order |
| VtexHelper.SpecsForSingle | server/vtex/vtexHelper.js:136-145 | one option yields its one-value specification iff its value is truthy, and nothing otherwise |
| VtexHelper.VariantIndex | server/vtex/vtexHelper.js:7-10 | the index of the first variant with the SKU id, and none iff no variant has it |
| VtexHelper.Specifications | server/vtex/vtexHelper.js:128-149 | with the variant present the loop returns its specifications; without it, reading an option rejects unless there are no options |
| VtexHelper.FormattedProductData | server/vtex/vtexHelper.js:6-41 | succeeds iff some variant has the SKU id and the currency is known. Then, for the first such variant v: name = product title + " " + v's title; the product's id and description; brand = vendor or "NONAME"; SkuName = RefId = seller id + "-" + sku, the seller's SKU id is the sku; the settings' seller id; 1×1×1, unit "un", multiplier 1; weight = v's weight; SKU specs = product specs = v's `SpecsFor`; images = `ImageList`; category = first collection or "NONAME"; quantity = v's inventory; sale price = v's price; the currency twice |
| VtexHelper.InvoiceItems | server/vtex/vtexHelper.js:201-209 | one invoice item per line item, in order, with its variant id and quantity, price × 100 |
| VtexHelper.FormattedInvoiceData | server/vtex/vtexHelper.js:200-218 | an "Output" invoice numbered by the order id, value = total price × 100, the given issuance date, items as above |
| ShopifyHelper.ShippingCostAppend | server/shopify/shopifyHelper.js:6-8 | the shipping sum is additive over the legs: each leg's price is counted once |
| ShopifyHelper.LinePriceRoundTrip | server/shopify/shopifyHelper.js:16-17 | quantity = quantity × multiplier; price × multiplier × 100 gives back the minor-unit price when the multiplier is non-zero, and a zero multiplier gives a non-finite price |
| ShopifyHelper.LineItems | server/shopify/shopifyHelper.js:10-20 | succeeds iff every variant lookup does; one line per item, in order, with the item id and its variant's title |
| ShopifyHelper.AddressOf | server/shopify/shopifyHelper.js:38-57 | first and last name and phone from the client profile; address1 = street + " " + number; city, province = state, country and zip = postal code from the shipping address |
| ShopifyHelper.GenerateOrderObject | server/shopify/shopifyHelper.js:3-71 | rejects on an empty array or a failed lookup. Otherwise: line items as above; one "INT.TP"/"Standard" shipping line whose price × 100 is the sum of the legs; billing = shipping = `AddressOf` the client profile and shipping data; customer and email from the client; "pending"/"fulfilled"; reference = marketplace order id; one "authorization"/"success" transaction whose amount × 100 is the payment value |
| ShopifyHelper.OnlyFirstOrderRead | server/shopify/shopifyHelper.js:4 | orders after the first do not affect the translation |
| ShopifyHelper.SingleItemExample | server/shopify/shopifyHelper.js:3-71 | a worked order: 2 units at 500 with multiplier 1 give a 5.00 line; legs 300 + 200 give 5.00 shipping; payment 1000 gives 10.00; "Main St" + "10" gives "Main St 10" |
| VtexClient.Headers | server/vtex/vtexClient.js:8-15 | exactly four headers with distinct names, including the app key and app token of the settings |
| VtexClient.ChangeNotification | server/vtex/vtexClient.js:17-24 | throws iff the shop has no settings; otherwise POSTs to `{account}.myvtex.com/.../changenotification/{seller}/{sku}` |
| VtexClient.SendSkuSuggestion | server/vtex/vtexClient.js:26-37 | PUTs the formatted suggestion to `api.vtex.com/{account}/suggestions/{seller}/{sku}` iff the settings exist, the payload builds and it has an image; it returns without a call iff it has none |
| VtexClient.CancelOrder | server/vtex/vtexClient.js:39-45 | throws iff the shop has no settings; otherwise POSTs to `orders/{id}/cancel` |
| VtexClient.NotifyInvoice | server/vtex/vtexClient.js:47-56 | throws iff the shop has no settings; otherwise POSTs the formatted invoice to `orders/{reference}/invoice` |
| VtexClient.UpdateTracking | server/vtex/vtexClient.js:58-79 | PATCHes the first fulfillment's tracking data iff the settings, the order and the fulfillments exist and the first tracking number is non-empty. It throws iff the settings are missing or the fulfillment list is present but empty |
| VtexClient.TrackingPatchesNotifiedInvoice | server/vtex/vtexClient.js:47-79 | a tracking update patches the invoice the invoice notification created: its URL is the invoice URL + "/" + invoice number, with the same headers |
| VtexHandlers.QuerySegment | server/vtex/vtexHandlers.js:45-46 | there is a query segment iff the URL has a "?", and the segment contains no "?" |
| VtexHandlers.PairValue | server/vtex/vtexHandlers.js:46-47 | a pair's value is drawn from the pair and is shorter than it |
| VtexHandlers.ParamValue | server/vtex/vtexHandlers.js:46-47 | a parameter value is drawn from the query and contains no "&" |
| VtexHandlers.ParamValueSingle | server/vtex/vtexHandlers.js:46-47 | a query that is one pair answers with that pair's value iff the pair is non-empty and its key is the name |
| VtexHandlers.ParamValueSplit | server/vtex/vtexHandlers.js:46-47 | a query `pair&rest` answers with the pair's value when it matches, and otherwise as `rest` does |
| VtexHandlers.ParamValueIsFirstMatch | server/vtex/vtexHandlers.js:46-47 | over "&"-joined pairs, `get` finds a value iff some pair matches, and then the first matching pair's value |
| VtexHandlers.TokenOf | server/vtex/vtexHandlers.js:45-47 | an extracted token contains neither "?" nor "&" |
| VtexHandlers.QueryOfAppended | server/vtex/vtexHandlers.js:45-46 | the query of a path without "?" followed by "?" and a query without "?" is that query |
| VtexHandlers.SingleTokenParam | server/vtex/vtexHandlers.js:46-47 | the single pair `token=…` yields the token when it has no "&" |
| VtexHandlers.TokenRoundTrip | server/vtex/vtexHandlers.js:45-47 | a token without "?" or "&", appended as `?token=` to a path without "?", is read back |
| VtexHandlers.TokenAmongParams | server/vtex/vtexHandlers.js:45-47 | a `token=…` pair among other "&"-separated pairs after a "?" yields the token when no earlier pair has the key "token" |
| VtexHandlers.CheckAuthAsWritten | server/vtex/vtexHandlers.js:44-49 | the lookup as written answers with a row whose access token equals the request's token, a missing token comparing equal to null |
| VtexHandlers.MissingTokenAuthenticates | server/vtex/vtexHandlers.js:44-49 | a URL without "?" authenticates, as written, as a row with a null access token whenever one exists; the corrected check refuses it |
| VtexHandlers.CheckAuth | server/vtex/vtexHandlers.js:44-49 | a request authenticates iff it presents a token held by some row, and then as a row holding that token; with a token present it agrees with the lookup as written |
| VtexHandlers.ActivityRow | server/vtex/vtexHandlers.js:20-39 | the log row records URL, method and the settings' shop; "success" with the response body iff the handler resolved, "error" with the error iff it rejected |
| VtexHandlers.LogActivity | server/vtex/vtexHandlers.js:8-42 | appends exactly one such row for an authenticated request and none otherwise; never rejects |
| VtexHandlers.PutIsSuggestion | server/vtex/vtexHandlers.js:52-57 | a variant's only PUT is its suggestion, issued iff the notification was sent, answered 404, and the suggestion was issued |
| VtexHandlers.SuggestionOnlyAfterNotFound | server/vtex/vtexHandlers.js:52-57 | for a variant of the product, a suggestion is sent iff the shop has settings, the notification answered 404, the currency is known and the product has an image |
| VtexHandlers.NotifyVariant | server/vtex/vtexHandlers.js:53-57 | one variant's step issues exactly that variant's requests |
| VtexHandlers.NotifyNext | server/vtex/vtexHandlers.js:52-58 | after variant k, the requests issued are those of the first k + 1 variants, in order |
| VtexHandlers.HandleProduct | server/vtex/vtexHandlers.js:51-59 | the requests issued are, variant by variant, the notification followed by the suggestion when due |
| VtexHandlers.HandleSimulation | server/vtex/vtexHandlers.js:61-84 | unauthenticated: nothing changes. Otherwise it resolves iff the zone and variant lookups succeed, then answers 200 with the payload's country, postal code and coordinates, empty pickup points and messages, and the quotes and logistics entries |
| VtexHandlers.OrderPlacement | server/vtex/vtexHandlers.js:86-120 | unauthenticated: no call and no change. Otherwise it POSTs the translated order to the storefront, and on success answers 200 with one placed order: payload[0]'s id, items, client and shipping data, the client email, the created order id and null payment data |
| VtexHandlers.OrderCancel | server/vtex/vtexHandlers.js:122-152 | unauthenticated: no call and no change. Otherwise it POSTs `{}` to the storefront's cancel URL and, when that succeeds, answers 200 with a receipt: date, marketplace order id, route order id, null receipt |
| VtexHandlers.FulfillOrder | server/vtex/vtexHandlers.js:158-196 | without a call, answers 200 with the same receipt shape iff authenticated, and changes nothing otherwise |
| Server.WithToken | server/server.js:61-67 | the install upsert keeps the table size when the shop has a row and adds one row otherwise |
| Server.WithForm | server/server.js:137-145 | the settings upsert keeps the table size when the shop has a row and adds one row otherwise |
| Server.InstallReadBack | server/server.js:61-67 | after an install the shop's row holds the new token and its other columns unchanged; a first install creates a row holding only shop and token |
| Server.InstallKeepsOtherShops | server/server.js:61-67 | an install leaves every other shop's row as it was |
| Server.InstallKeepsAuthentication | server/server.js:61-67 | an install never changes which shop a presented token authenticates as |
| Server.SaveReadBack | server/server.js:135-148 | after saving the form's body, the shop's row holds exactly the submitted credentials and keeps its shop and its storefront token (none for a new row) |
| Server.SaveMergesBody | server/server.js:137-145 | the saved row is in the table; each column other than `shop` holds the body's value when the body names it, else the shop's old value, else null; the shop column is the body's on an update that names it and the shop otherwise; a body that keeps the shop is what the shop's lookup reads back |
| Server.BodyCanReplaceStorefrontToken | server/server.js:137-145 | the route accepts any JSON body: one carrying `shopify_token` replaces the shop's storefront token |
| Server.SaveKeepsOtherShops | server/server.js:137-145 | saving leaves every other shop's row as it was, unless the body moves the saved row to that shop |
| Server.SavedTokenAuthenticates | server/server.js:137-145 | a body that saves a non-null access token makes that token authenticate the fulfillment routes |
| Server.SaveThenReinstall | server/server.js:55-67 | reinstalling keeps the saved credentials and replaces only the storefront token |
| Server.SettingsResponse | server/server.js:186-202 | the GET body is the shop's row iff the guard passes and the row exists, and `{}` otherwise |
| Server.SaveThenLoad | server/server.js:181-203 | what an authorized save writes is what the GET route reads back |
| Server.SettingsPostWrongShop | server/server.js:120-145 | with two installed shops, a save from the second writes, as written, into the first shop's row and leaves its own; keyed on the referer's shop it lands on the second shop's row and leaves the first |
| Server.InstalledGuardAdmitsOnlyInstalled | server/server.js:127-131 | the intended guard admits only installed shops, never one just uninstalled, nothing the written guard refuses, and agrees with it on every name `Object.prototype` does not have |
| Server.InheritedShopPassesGuard | server/server.js:127-131 | a referer naming `toString` passes the written guard with no such shop installed, and the POST then writes the body into the route's shop row; `constructor` counts as active; the intended guard refuses |
| Server.Server.constructor | server/server.js:45-48 | no shop is active; the table holds the given rows, which `sequelize.sync()` keeps |
| Server.Server.AfterAuth | server/server.js:55-154 | the shop maps to its scope; its storefront token is upserted; each call registers one more settings POST handler, and the first registered answers, so the route keeps the first shop; redirect (302) to `/?shop=…&host=…` |
| Server.Server.Uninstall | server/server.js:74-75 | the shop leaves the active map; the table is untouched |
| Server.Server.PostSettings | server/server.js:120-150 | before any install the route does not exist. 401 "Unauthorized!" iff the host or shop parameter is null or the shop is not answered by the active-shop object (an installed shop or an `Object.prototype` name). Otherwise the table becomes the upsert of the JSON body into the referer's shop row, answered 200 with the written row, which the shop's lookup reads back when the body keeps the shop |
| Server.Server.GetSettingsRoute | server/server.js:181-203 | always 200, with the body described by `SettingsResponse` |
| Server.Server.CatchAll | server/server.js:212-221 | redirect (302) to `/auth?shop=…` iff the active-shop object does not answer for the shop (an installed shop or an `Object.prototype` name), otherwise 200 |
| SettingsPage.ValidationAgreesOnStrings | pages/index.js:58-62 | the corrected check implies the written one, and the two agree when no field is null |
| SettingsPage.InstalledRowPassesAsWritten | pages/index.js:30-62 | a row of nulls, as an installed shop loads it, passes the written check and posts five nulls; the corrected check refuses it |
| SettingsPage.LoadReadsKeys | pages/index.js:30-33 | a non-empty answer sets each field to the value under its key |
| SettingsPage.LoadShowsRow | pages/index.js:30-33 | loading a saved row shows each credential column in its field |
| SettingsPage.LoadThenSubmit | pages/index.js:30-43 | submitting a loaded row unchanged posts back exactly its credentials |
| SettingsPage.SettingsForm.constructor | pages/index.js:6-20 | every field starts "" and every error null |
| SettingsPage.SettingsForm.GetSettings | pages/index.js:26-35 | a failed load or an empty object changes nothing; otherwise the five fields are overwritten; errors are never touched |
| SettingsPage.SettingsForm.OnChange | pages/index.js:89-121 | only the edited field changes |
| SettingsPage.SettingsForm.ValidateForm | pages/index.js:49-77 | every error is written ("Required" unless filled in), and the result is true iff every field is filled in, iff no error is set |
| SettingsPage.SettingsForm.HandleSubmit | pages/index.js:37-47 | posts iff the form validates, and then exactly the five fields, all filled in |

The three webhook handlers `cancelMarketplaceOrder`, `notifyMarketplaceInvoice` and `updateMarketplaceTracking` (server/vtex/vtexHandlers.js:154-204) only forward to the client functions, so `CancelOrder`, `NotifyInvoice` and `UpdateTracking` model them.

## Left out

- Network I/O (`fetch`, the GraphQL variant lookup, the shop and shipping-zone lookups) is a parameter or a recorded `Fetch.Request`. What the remote side does with a request is not modelled.
- The interleaving of concurrent promises is not modelled:
  - the order in which `Promise.all` lookups complete is a parameter;
  - `handleProduct`'s per-variant chains run concurrently, but the model issues them variant by variant;
  - the writes of `afterAuth` and `logActivity`, which are not awaited, take effect at once.
- IEEE-754 doubles and JavaScript's string-to-number coercion of prices: amounts are exact reals and minor-unit integers, with no rounding.
- `JSON.stringify`/`JSON.parse`: bodies and log responses are kept as structured values.
- The constant null and empty-array fields of quotes and suggestions (`merchantName`, `priceValidUntil`, `offerings`, …) are not represented.
- The referer's `URLSearchParams` parsing in the settings routes: the shop and host parameters are inputs.
- `URLSearchParams` percent-decoding and `+` handling of the token: `ParamValue` compares and returns raw text.
- Timestamps (`new Date()`, `moment()`) are parameters.
- Webhook registration, OAuth, Koa/Next wiring, `ctx.type` and Koa's redirect body text are framework plumbing.
- The React rendering of the settings page is UI.
- Ids are kept as their decimal text.
- Sequelize's extra columns (`id`, timestamps) are not represented. JSON body values are nullable strings; numbers, booleans and nested objects are not.
- Server.Server.constructor: the table's rows are the constructor's argument; what the database held before start-up is not modelled.
- VtexHandlers.LogActivity: uses the corrected `CheckAuth`; as written, a request without a token is logged for the first shop whose access token is null (`MissingTokenAuthenticates`).
- VtexHandlers.HandleSimulation: uses the corrected `CheckAuth`; as written, a request without a token is answered when some shop has a null access token.
- VtexHandlers.OrderPlacement: uses the corrected `CheckAuth`; as written, a request without a token places the order with the first null-token shop's storefront credentials.
- VtexHandlers.OrderCancel: uses the corrected `CheckAuth`; as written, a request without a token cancels through the first null-token shop's storefront.
- VtexHandlers.FulfillOrder: uses the corrected `CheckAuth`; as written, a request without a token is answered 200 when some shop has a null access token.
- SettingsPage.SettingsForm.HandleSubmit: uses the corrected `ValidateForm`; as written, null fields pass and are posted as nulls (`InstalledRowPassesAsWritten`).
- VtexClient.SendSkuSuggestion: a rejected variant lookup is treated like a null answer, as in `FormattedProductData`, so the "iff" counts such a lookup as success.
- VtexHandlers.SuggestionOnlyAfterNotFound: a rejected variant lookup is treated like a null answer, as in `FormattedProductData`, so the "iff" counts such a lookup as success.
- A missing `fulfillments` property and one that is null are both `None`; the source would throw on null.
- VtexHelper.FormattedProductData: a rejected variant lookup inside it is treated like a null answer ("NONAME" category), rather than rejecting the suggestion.
- VtexHandlers.ParamValue: a repeated `?token=` parameter in a second query segment is ignored, as in the source; a `shop` query repeated in the catch-all route (an array in Koa) is not modelled.

## Findings

| source | as written | input that shows it | evidently intended | confidence | as-written member | corrected member |
|---|---|---|---|---|---|---|
| server/vtex/vtexHandlers.js:44-49 | a request without a token looks up `access_token = null`, which Sequelize turns into `IS NULL` | any fulfillment URL without "?" while some shop is installed but has not saved its settings (its row's access token is null) | a request without a token is not authenticated | high (not executed) | VtexHandlers.MissingTokenAuthenticates | VtexHandlers.CheckAuth |
| pages/index.js:58-62 | a field is in error only when it is exactly `""` | load the page for a shop that is only installed: the GET returns a row of nulls, every field becomes null, and the form validates and posts nulls | every credential must be a non-empty string | high (not executed) | SettingsPage.InstalledRowPassesAsWritten | SettingsPage.SettingsForm.ValidateForm |
| server/server.js:137-144 | the POST route's upsert keys on the `shop` of the first `afterAuth` that registered the route | shops "a" then "b" install; "b" saves the form: row "a" is overwritten and row "b" is unchanged | the upsert keys on the referer's shop, the one the guard checked | medium (not executed) | Server.SettingsPostWrongShop | Server.Server.PostSettings |
| server/server.js:127-131 | the guard tests `ACTIVE_SHOPIFY_SHOPS[shop] === undefined` on a plain object, so names inherited from `Object.prototype` pass | after any install, a settings POST whose referer carries `?host=h&shop=toString` writes into the row of the shop that registered the route; `/?shop=constructor` serves the app | only installed shops pass (an own-property test) | high (not executed) | Server.InheritedShopPassesGuard | Server.InstalledGuardAdmitsOnlyInstalled |
