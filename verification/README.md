# maya-sync in Dafny

A model of the glue between a Shopify store and the Maya Mobile eSIM API. The
model covers the decision logic of its three HTTP handlers:

- the paid-order webhook of the Express server (`server.js`);
- the paid-order webhook of the serverless revision (`api/webhook.js`);
- the scheduled catalog sync (`api/sync-products.js`).

Each handler is a pure function. Its inputs are the request and the answers
of the external APIs. It returns a `Run`: the HTTP response it gives and the
ordered trace of outbound requests it issues. An external answer is a
`Reply`, either `Ok(data)` or `Failed`, supplied as an input. The keyed
digest (HMAC-SHA256, base64) is a function parameter `sign`.

Modules, in dependency order:

- `Search` (search.dfy): `Option`, and the list searches `Any` (JS `some`)
  and `FindIndex` (JS `find`) with their specifications.
- `Calls` (calls.dfy): replies, responses and the outbound request bodies.
- `Signature` (signature.dfy): webhook authenticity.
- `Orders` (orders.dfy): the order payload, eSIM selection, SKU extraction,
  and the activation-then-fulfillment pipeline both webhooks share.
- `ExpressWebhook` (express_webhook.dfy): the `server.js` handler.
- `ServerlessWebhook` (serverless_webhook.dfy): the `api/webhook.js` handler.
- `CatalogSync` (catalog_sync.dfy): the catalog sync.

Behaviour of the code that a reader might not expect:

- An eSIM line item that no fulfillment order references is answered with
  200 "Skipping". No distinct data-inconsistency error is raised.
- A failed product creation aborts the rest of the sync with 500. Products
  created before it stay created.
- Re-running the sync is not idempotent as written; see Findings.

## Model

| member | source | states |
|---|---|---|
| Signature.Authentic | server.js:28-39 | A missing or empty header is rejected. Otherwise a delivery is accepted exactly when the header equals the base64 HMAC of the raw body under the secret. |
| Signature.SignedBodyAccepted | server.js:34-38 | A body delivered with the digest the store computed for it is accepted. |
| Signature.AlteredBodyRejected | api/webhook.js:31-41 | A body changed after signing is rejected, unless its digest collides with the original. |
| Orders.CarriesSku | server.js:53 | A line item is an eSIM item exactly when its properties are present and some property has the SKU name and a non-empty value. |
| Orders.SkuOf | server.js:62 | The SKU is the value of the first property named `maya.maya_product_id`, even if empty. None exactly when no property has that name (the `.value` read then throws). |
| Orders.SelectedItemHasSku | api/webhook.js:48-64 | A line item chosen as the eSIM item always yields a SKU. |
| Orders.SkuMayBeEmpty | server.js:53-62 | Two properties with the SKU name, the first empty: the item is selected, but the SKU sent to the provider is empty. |
| Orders.Remark | server.js:97 | The fulfillment note starts with the QR code label, holds the QR code URL right after it, and ends with the activation code. |
| Orders.Provision | server.js:61-118 | The activation request carries the SKU, email, customer id and order id. A fulfillment request follows only a successful activation that returned details. It has one `{id, quantity}` line, the given target and a note with both credentials. 200 exactly when both calls succeed, otherwise 500. No customer or no SKU means 500 with no call. An activation that returned details is always followed by the fulfillment request, so a store failure after a provisioned eSIM leaves both requests in the trace and answers 500. |
| ExpressWebhook.SelectEsimItem | server.js:52-54 | The selection is the first line item with a non-empty SKU property. It throws when an item before it has no `properties`, and finds nothing exactly when every item was passed over. |
| ExpressWebhook.SelectionAgreesWithFind | server.js:52-54 | When every item has its properties, the selection is the first item that carries a SKU, and nothing throws. |
| ExpressWebhook.FirstLocation | server.js:84 | The location is the first fulfillment's location. It is null when there is no fulfillment, no location, or location 0. |
| ExpressWebhook.HandleOrdersPaid | server.js:42-119 | An unauthenticated delivery gets 401 with no call. No eSIM item gives 200 "Skipping" with no call. Activation, then fulfillment under the order's URL with the first location and the item's fulfillment order, notifying the customer; an activation that returned details is always followed by the fulfillment request. 200 exactly when both succeed; once the provider has been called, any failure gives 500. A selected item without a customer gives 500 with no call. A throwing selection escapes the handler. |
| ExpressWebhook.SelectedItemIsActivated | server.js:56-71 | An authentic order with a selected item and a customer always reaches the provider. |
| ServerlessWebhook.ScanFulfillmentOrders | api/webhook.js:52-54 | With an eSIM id, the chosen fulfillment order is the first that lists it, and nothing is chosen exactly when none lists it. Without one, the search throws exactly when some fulfillment order has a line item. |
| ServerlessWebhook.References | api/webhook.js:53 | A fulfillment order references a line item exactly when one of its line items has that id. |
| ServerlessWebhook.HandleWebhook | api/webhook.js:18-124 | 405 exactly for non-POST requests; a missing or wrong signature gets 401; each with no call. An unparsable body gets 500. An eSIM item on an order without `fulfillment_orders` gets 500 with no call. No eSIM item: no call; 500 or 200 depending on the fulfillment orders (as written). An eSIM item that no fulfillment order holds gets 200 "Skipping". The fulfillment uses the matched fulfillment order's location and id, notifies the customer, and always follows an activation that returned details. 200 exactly when both calls succeed; once the provider has been called, any failure gives 500. A held eSIM item on an order without a customer gives 500 with no call. |
| ServerlessWebhook.HeldItemIsActivated | api/webhook.js:48-82 | For every revision, an authentic order whose first eSIM item is held by a fulfillment order and which has a customer always reaches the provider. |
| ServerlessWebhook.NoEsimOutcomeDependsOnFulfillmentOrders | api/webhook.js:52-59 | The same order without an eSIM item gets 500 when a fulfillment order lists a line item, and 200 when none does. With the check first, both get 200. |
| ServerlessWebhook.NullCheckedSkipsOrdersWithoutEsim | api/webhook.js:56-59 | With the existence check first, an authentic order without an eSIM item is always skipped with no call. |
| ServerlessWebhook.EsimOrderFulfilled | api/webhook.js:67-116 | A signed order with one eSIM item held by one fulfillment order, both calls answered: 200, the activation names the SKU, email, customer and order, and the fulfillment targets the fulfillment order's location and id with both credentials. |
| CatalogSync.ProductMatches | api/sync-products.js:45-47 | A store product holds a provider product exactly when one of its variants has the marker with that id, or, for the product-level join, the product itself has it. |
| CatalogSync.Listed | api/sync-products.js:45-47 | A provider product is listed exactly when some store product in the fetched list holds it. Nothing is listed in an empty store. |
| CatalogSync.VariantJoin | api/sync-products.js:46 | As written, a product is listed iff some variant of some store product has a metafield with the marker key and the provider id. Variants without metafields never match. |
| CatalogSync.ProviderIdOfSku | api/sync-products.js:60 | A generated SKU is recognised by its `MAYA_ESIM_` prefix, and the prefix plus the recovered id give the SKU back. |
| CatalogSync.PayloadFor | api/sync-products.js:51-73 | The created product has one variant, whose SKU gives back the provider id, and one marker metafield carrying that id. |
| CatalogSync.PayloadDescribesProduct | api/sync-products.js:51-73 | The created product copies name, description and retail price. It is an unshipped, untracked eSIM. Its SKU encodes the provider id, recoverably, and it carries a product-level marker metafield. |
| CatalogSync.Missing | api/sync-products.js:43-50 | The create plan is never longer than the catalog. Its contents and order are stated by the two lemmas that follow. |
| CatalogSync.MissingMembers | api/sync-products.js:43-50 | The products to create are exactly the catalog entries the fetched store list does not hold. |
| CatalogSync.MissingConcat | api/sync-products.js:43 | The products to create keep catalog order: splitting the catalog splits the list. |
| CatalogSync.CreatesPerOccurrence | api/sync-products.js:40-50 | The store list is not extended inside the loop. A missing id is created once per catalog entry with that id, so duplicates are created twice; a held id is never created. |
| CatalogSync.Loop | api/sync-products.js:43-89 | The loop fails exactly when the create of some missing entry fails. Without a failure it has issued one create per missing entry, in order. It issues only create requests. |
| CatalogSync.Sync | api/sync-products.js:14-100 | Either fetch failing gives 500 with no create. 200 exactly when every needed create succeeded; the trace is then the two fetches followed by one create per missing product. Nothing is updated or deleted. |
| CatalogSync.FirstFailureStopsLoop | api/sync-products.js:75-84 | The first failed create ends the loop. The creates issued are those up to and including the failed one. |
| CatalogSync.FirstFailureAbortsSync | api/sync-products.js:75-99 | The first failed create makes the sync answer 500. The earlier creates and the failed one stay in the trace; nothing after it is posted. |
| CatalogSync.FullyListedStoreCreatesNothing | api/sync-products.js:43-92 | A store that already lists every catalog id gets no create, and the sync answers 200. |
| CatalogSync.SingleProductIntoEmptyStore | api/sync-products.js:43-92 | One provider product and an empty store: exactly one create, with SKU `MAYA_ESIM_P1`, the retail price and the marker metafield. |
| CatalogSync.StoredFormMatches | api/sync-products.js:45-71 | A created product, as the store lists it, is matched by a join that reads product-level metafields. It is not matched by the variant-only join. |
| CatalogSync.RerunCreatesAgain | api/sync-products.js:45-71 | As written, a second run over a store holding the product the first run created posts it again. |
| CatalogSync.CorrectedRerunCreatesNothing | api/sync-products.js:45-71 | When the join also reads product-level metafields, a second run over the extended store posts nothing and answers 200. |

## Left out

- The HMAC-SHA256 digest and its base64 encoding are foreign library calls. They are the parameter `sign`; only the string comparison is modelled.
- URLs, request headers, access tokens, the `api_key` field, and the API version in the store URLs are not represented. A request is its kind and its JSON body.
- In `server.js`, `req.rawBody` is assumed set by the JSON middleware's verify hook (server.js:21-25). Without it, a request carrying the signature header throws at server.js:36, inside `verifyShopifyWebhook` and outside the handler's `try`. That request escapes the handler instead of getting 401; the path is not modelled.
- Reading the raw body (`getRawBody`) is assumed to succeed. When it fails, `api/webhook.js` answers 500; that path is not modelled.
- JSON parsing is left out. `server.js` receives the parsed order from the JSON middleware. `api/webhook.js` takes the result of `JSON.parse` as an `Option`, where None is a parse failure, which gives 500.
- Server bootstrapping, the port, environment configuration and all logging are left out.
- async scheduling is left out. Each handler is sequential and is modelled as straight-line code.
- JS truthiness is modelled only where it matters: property values are strings, truthy when non-empty, and ids are natural numbers.
- The response Express gives when the `server.js` handler throws outside its `try` block is not modelled. Neither is the process-level unhandled-rejection behaviour. The model stops at `Uncaught`.
- `server.js` also sends `tracking_number: null` and `tracking_urls: []` (server.js:85-86). The two revisions name the customer text `note` and `message`. Both are folded into `remark`; the tracking fields are not represented.
- Fields the handlers read without a guard are assumed present: the order's `line_items` and `fulfillments`, each fulfillment order's `line_items` and `assigned_location`, each store product's `variants`, and the catalog and product arrays of the two list responses. Absent ones are not modelled. For all of them except one, the handler would throw inside its `try` and answer 500. The exception is `line_items` in `server.js`: it is read at server.js:52, before the `try` that opens at server.js:61, so its absence would escape the handler like `Uncaught`. `fulfillment_orders` in `api/webhook.js` is modelled as optional, because the fault it exposes is modelled.
- The POST-only routing of the Express route is framework behaviour. `ExpressWebhook.HandleOrdersPaid` models only requests the route receives.
- The store's answer to each create request is a predicate `createOk` over catalog positions. A product created twice within one run gets two independent answers.
- Duplicate webhook deliveries and retries happen outside the handlers and are not modelled.
- CatalogSync.StoredForm is an assumption about how the store lists a product the sync created. The marker sits at product level, as in the create payload, and the variants carry no metafields. The re-run lemmas depend on it.

## Findings

| source | as written | input that shows it | evidently intended | confidence | as-written member | corrected member |
|---|---|---|---|---|---|---|
| api/webhook.js:52-56 | The fulfillment-order search reads `esimLineItem.id` before the check that an eSIM line item exists. | An authentic order with no eSIM line item and a fulfillment order listing line item 1: 500 and not 200 "Skipping". The same order with an empty fulfillment order is skipped. | Check for the eSIM line item before searching, so every order without one is skipped with 200. | not executed; high | ServerlessWebhook.NoEsimOutcomeDependsOnFulfillmentOrders | ServerlessWebhook.NullCheckedSkipsOrdersWithoutEsim |
| api/sync-products.js:46, api/sync-products.js:66-71 | The join looks for the `maya_product_id` marker on variant metafields only. The created product carries that marker as a product-level metafield. | Catalog `[m]` and a store holding the product created for `m` in its listed form: the second run posts `m` again. | Look for the marker where the sync writes it, so a re-run over the extended store creates nothing. | not executed; medium (depends on how the store lists created products) | CatalogSync.RerunCreatesAgain | CatalogSync.CorrectedRerunCreatesNothing |
