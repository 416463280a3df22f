/** The paid-order payload and the part of the fulfillment pipeline both
    webhook revisions share: reading the provider SKU off the eSIM line
    item, activating the eSIM, and recording the fulfillment with the
    returned activation details. */
module Orders {
  import opened Search
  import opened Calls

  /** Name of the line-item property that carries the provider SKU. */
  const SkuPropertyName := "maya.maya_product_id"

  /** A line-item property; a value is truthy exactly when it is non-empty. */
  datatype Property = Property(name: string, value: string)

  /** An order line item; `properties` None is an absent `properties` field. */
  datatype LineItem = LineItem(
    id: nat,
    quantity: nat,
    properties: Option<seq<Property>>,
    fulfillmentOrderId: Option<nat>)

  /** An existing fulfillment of the order; `locationId` None is an absent field. */
  datatype Fulfillment = Fulfillment(locationId: Option<nat>)

  /** A line-item reference inside a fulfillment order. */
  datatype FulfillmentOrderLine = FulfillmentOrderLine(id: nat)

  /** A fulfillment order: its id, its `assigned_location.location_id` and
      the line items it groups. */
  datatype FulfillmentOrder = FulfillmentOrder(
    id: nat,
    assignedLocationId: nat,
    lineItems: seq<FulfillmentOrderLine>)

  /** A paid order. `customerId` None is a `null` customer;
      `fulfillmentOrders` None is an absent `fulfillment_orders` field. */
  datatype Order = Order(
    id: nat,
    email: string,
    customerId: Option<nat>,
    lineItems: seq<LineItem>,
    fulfillments: seq<Fulfillment>,
    fulfillmentOrders: Option<seq<FulfillmentOrder>>)

  /** The activation details the provider returns under `data.data`. */
  datatype EsimDetails = EsimDetails(qrcodeImageUrl: string, activationCode: string)

  /** The answers of the two external calls of one webhook invocation. An
      activation answer of Ok(None) is a success response that carries no
      `data.data` object. */
  datatype Replies = Replies(activation: Reply<Option<EsimDetails>>, fulfillment: Reply<()>)

  /** Where a fulfillment is recorded: the order named in the URL (if any),
      the location, and the fulfillment order. */
  datatype Target = Target(orderId: Option<nat>, locationId: Option<nat>, fulfillmentOrderId: Option<nat>)

  /** The outcome of a `find` whose callback may throw. */
  datatype Lookup = Found(index: nat) | Missing | Throws

  const Skipped := Sent(200, "No eSIM product found. Skipping.")
  const Fulfilled := Sent(200, "eSIM provisioned and order fulfilled.")
  const Unauthorized := Sent(401, "Unauthorized")
  const ProcessingError := Sent(500, "Error processing order.")

  predicate NamesSku(p: Property)
  {
    p.name == SkuPropertyName
  }

  /** The property that marks an eSIM line item: the SKU name with a truthy value. */
  predicate IsSkuProperty(p: Property)
  {
    NamesSku(p) && p.value != ""
  }

  /** The eSIM selection test on a line item whose properties are present:
      some property has the SKU name and a truthy value. */
  predicate CarriesSku(item: LineItem): (b: bool)
    ensures b <==>
      item.properties.Some? &&
      exists k :: 0 <= k < |item.properties.value| &&
        item.properties.value[k].name == SkuPropertyName && item.properties.value[k].value != ""
  {
    item.properties.Some? && Any(item.properties.value, IsSkuProperty)
  }

  /** `properties.find(prop => prop.name === SKU name).value`: the value of
      the FIRST property with the SKU name, whether or not it is empty.
      None is the TypeError of reading `.value` of `undefined`. */
  function SkuOf(item: LineItem): (sku: Option<string>)
    ensures sku.Some? <==>
      item.properties.Some? && exists k :: 0 <= k < |item.properties.value| && NamesSku(item.properties.value[k])
    ensures sku.Some? ==>
      exists k :: 0 <= k < |item.properties.value| && item.properties.value[k] == Property(SkuPropertyName, sku.value)
        && forall j :: 0 <= j < k ==> !NamesSku(item.properties.value[j])
  {
    match item.properties
    case None => None
    case Some(props) =>
      match FindIndex(props, NamesSku)
      case None => None
      case Some(k) => Some(props[k].value)
  }

  /** A selected eSIM line item always yields a SKU, though with two
      properties of the SKU name the one it yields may be the empty one. */
  lemma SelectedItemHasSku(item: LineItem)
    requires CarriesSku(item)
    ensures SkuOf(item).Some?
  {
    var k :| 0 <= k < |item.properties.value| && IsSkuProperty(item.properties.value[k]);
    assert NamesSku(item.properties.value[k]);
  }

  /** The SKU sent to the provider can be empty although the item was
      selected for a non-empty SKU property. */
  lemma SkuMayBeEmpty()
    ensures
      var item := LineItem(1, 1, Some([Property(SkuPropertyName, ""), Property(SkuPropertyName, "P1")]), None);
      CarriesSku(item) && SkuOf(item) == Some("")
  {
    var item := LineItem(1, 1, Some([Property(SkuPropertyName, ""), Property(SkuPropertyName, "P1")]), None);
    assert IsSkuProperty(item.properties.value[1]);
  }

  const QrLabel := "Your eSIM QR Code: "
  const CodeLabel := "\nActivation Code: "

  /** The customer-visible text of the fulfillment. Both credentials can be
      read back from it at fixed positions. */
  function Remark(d: EsimDetails): (text: string)
    ensures |QrLabel| <= |text| && text[..|QrLabel|] == QrLabel
    ensures OccursAt(d.qrcodeImageUrl, text, |QrLabel|)
    ensures |d.activationCode| <= |text| && OccursAt(d.activationCode, text, |text| - |d.activationCode|)
    ensures IsInfix(d.qrcodeImageUrl, text) && IsInfix(d.activationCode, text)
  {
    var text := QrLabel + d.qrcodeImageUrl + CodeLabel + d.activationCode;
    assert text[..|QrLabel|] == QrLabel;
    assert text[|QrLabel|..|QrLabel| + |d.qrcodeImageUrl|] == d.qrcodeImageUrl;
    assert text[|text| - |d.activationCode|..] == d.activationCode;
    assert OccursAt(d.qrcodeImageUrl, text, |QrLabel|);
    assert OccursAt(d.activationCode, text, |text| - |d.activationCode|);
    text
  }

  /** Activation then fulfillment, as both revisions run them once the eSIM
      line item and the fulfillment target are known. Every failure inside
      the `try` block becomes 500. */
  function Provision(order: Order, item: LineItem, target: Target, replies: Replies): (r: Run)
    ensures r.response == Fulfilled || r.response == ProcessingError
    ensures |r.trace| <= 2
    // the activation request, if issued, describes this order and item
    ensures |r.trace| >= 1 ==>
      SkuOf(item).Some? && order.customerId.Some? &&
      r.trace[0] == Activate(ActivationRequest(SkuOf(item).value, order.email, order.customerId.value, order.id))
    // a fulfillment request only follows a successful activation that returned details
    ensures |r.trace| == 2 ==>
      replies.activation.Ok? && replies.activation.data.Some? && r.trace[1].Fulfill? &&
      var d := replies.activation.data.value;
      var f := r.trace[1].fulfillment;
      && f.lines == [FulfillmentLine(item.id, item.quantity)]
      && f.orderId == target.orderId
      && f.locationId == target.locationId
      && f.fulfillmentOrderId == target.fulfillmentOrderId
      && f.notifyCustomer
      && IsInfix(d.qrcodeImageUrl, f.remark) && IsInfix(d.activationCode, f.remark)
    ensures replies.activation.Failed? ==> |r.trace| <= 1
    // activation is attempted whenever a SKU and a customer are there
    ensures SkuOf(item).Some? && order.customerId.Some? <==> |r.trace| >= 1
    ensures SkuOf(item).None? || order.customerId.None? ==> r == Run(ProcessingError, [])
    // an activation that returned details is always followed by the fulfillment request
    ensures |r.trace| >= 1 && replies.activation.Ok? && replies.activation.data.Some? ==> |r.trace| == 2
    ensures r.response == Fulfilled <==>
      |r.trace| >= 1 && replies.activation.Ok? && replies.activation.data.Some? && replies.fulfillment.Ok?
  {
    match SkuOf(item)
    case None => Run(ProcessingError, [])
    case Some(sku) =>
      match order.customerId
      case None => Run(ProcessingError, [])
      case Some(customer) =>
        var activation := Activate(ActivationRequest(sku, order.email, customer, order.id));
        match replies.activation
        case Failed => Run(ProcessingError, [activation])
        case Ok(None) => Run(ProcessingError, [activation])
        case Ok(Some(d)) =>
          var fulfillment := Fulfill(FulfillmentRequest(
            target.orderId, target.locationId, target.fulfillmentOrderId,
            [FulfillmentLine(item.id, item.quantity)], true, Remark(d)));
          Run(if replies.fulfillment.Ok? then Fulfilled else ProcessingError, [activation, fulfillment])
  }
}
