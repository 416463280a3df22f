/** What the handlers exchange with the outside world: the answers of the
    external HTTP APIs (supplied as inputs), the HTTP response a handler
    gives, and the outbound requests it issues, in order. URLs, headers and
    access tokens are not represented; each request is identified by its
    kind and its JSON body. */
module Calls {
  import opened Search

  /** The answer of an external API to one outbound request: success with
      the response data, or failure (a non-2xx status or a network error,
      which axios raises as an exception). */
  datatype Reply<+T> = Ok(data: T) | Failed

  /** What the handler answers its caller: a status and a text body, or an
      exception that leaves the handler function without any answer. */
  datatype Response = Sent(status: int, body: string) | Uncaught

  /** Body of the provider's eSIM activation request (the `api_key` field is
      configuration and is not represented). */
  datatype ActivationRequest = ActivationRequest(
    productSku: string,
    customerEmail: string,
    customerId: nat,
    referenceId: nat)

  /** One `{id, quantity}` entry of `fulfillment_order_line_items`. */
  datatype FulfillmentLine = FulfillmentLine(id: nat, quantity: nat)

  /** Body of the store's fulfillment request. `orderId` is the order the
      request is posted under (present only when the URL names an order);
      `fulfillmentOrderId` and `lines` are the single entry of
      `line_items_by_fulfillment_order`; `remark` is the customer-visible
      text. */
  datatype FulfillmentRequest = FulfillmentRequest(
    orderId: Option<nat>,
    locationId: Option<nat>,
    fulfillmentOrderId: Option<nat>,
    lines: seq<FulfillmentLine>,
    notifyCustomer: bool,
    remark: string)

  /** A variant of a product to create; `inventoryManagement` None is JSON `null`. */
  datatype NewVariant = NewVariant(
    sku: string,
    price: string,
    inventoryManagement: Option<string>,
    requiresShipping: bool)

  /** A product-level metafield of a product to create (`kind` is its JSON `type`). */
  datatype NewMetafield = NewMetafield(key: string, namespace: string, value: string, kind: string)

  /** Body of the store's product-creation request. */
  datatype NewProduct = NewProduct(
    title: string,
    bodyHtml: string,
    vendor: string,
    productType: string,
    published: bool,
    variants: seq<NewVariant>,
    metafields: seq<NewMetafield>)

  /** One outbound HTTP request. */
  datatype Call =
    | FetchProviderCatalog
    | FetchStoreProducts
    | Activate(activation: ActivationRequest)
    | Fulfill(fulfillment: FulfillmentRequest)
    | CreateProduct(product: NewProduct)

  /** The observable effect of one handler invocation. */
  datatype Run = Run(response: Response, trace: seq<Call>)
}
