/** The paid-order webhook of the serverless revision: check the method and
    the signature, parse the raw body, pick the eSIM line item and the
    fulfillment order that holds it, activate the eSIM with the provider and
    record the fulfillment.

    The code as written reads `esimLineItem.id` while searching the
    fulfillment orders, before it checks that an eSIM line item exists.
    `Revision` selects between that code (`AsWritten`) and the same handler
    with the existence check moved ahead of the search (`NullChecked`). */
module ServerlessWebhook {
  import opened Search
  import opened Calls
  import opened Signature
  import opened Orders

  datatype Revision = AsWritten | NullChecked

  const MethodNotAllowed := Sent(405, "Method Not Allowed")

  /** `fo.line_items.some(li => li.id === id)`. */
  predicate References(fo: FulfillmentOrder, id: nat): (b: bool)
    ensures b <==> exists k :: 0 <= k < |fo.lineItems| && fo.lineItems[k].id == id
  {
    Any(fo.lineItems, (line: FulfillmentOrderLine) => line.id == id)
  }

  /** `fulfillment_orders.find(fo => fo.line_items.some(li => li.id === esimLineItem.id))`.
      `esimId` None is an undefined `esimLineItem`: the callback then throws
      the first time it runs, which is on the first fulfillment order whose
      `line_items` is not empty. */
  function ScanFulfillmentOrders(fos: seq<FulfillmentOrder>, esimId: Option<nat>): (r: Lookup)
    ensures esimId.None? ==> !r.Found?
    ensures esimId.None? ==> (r.Throws? <==> exists k :: 0 <= k < |fos| && |fos[k].lineItems| > 0)
    ensures esimId.Some? ==> !r.Throws?
    ensures esimId.Some? && r.Found? ==>
      && r.index < |fos|
      && References(fos[r.index], esimId.value)
      && forall j :: 0 <= j < r.index ==> !References(fos[j], esimId.value)
    ensures esimId.Some? ==> (r.Missing? <==> forall j :: 0 <= j < |fos| ==> !References(fos[j], esimId.value))
    decreases |fos|
  {
    if |fos| == 0 then Missing
    else
      var rest := ScanFulfillmentOrders(fos[1..], esimId);
      assert forall j :: 0 < j < |fos| ==> fos[j] == fos[1..][j - 1];
      match esimId
      case None =>
        if |fos[0].lineItems| > 0 then Throws else rest
      case Some(id) =>
        if References(fos[0], id) then Found(0)
        else match rest
          case Found(i) => Found(i + 1)
          case other => other
  }

  /** The id the fulfillment-order search compares against. */
  function EsimId(items: seq<LineItem>, esim: Option<nat>): (id: Option<nat>)
    requires esim.Some? ==> esim.value < |items|
    ensures id.Some? <==> esim.Some?
    ensures id.Some? ==> id.value == items[esim.value].id
  {
    match esim
    case None => None
    case Some(i) => Some(items[i].id)
  }

  /** With no eSIM line item, the code as written fails while searching the
      fulfillment orders: when the field is absent, or when some fulfillment
      order has a line item for the callback to run on. */
  ghost predicate DereferencesMissingItem(order: Order)
  {
    || order.fulfillmentOrders.None?
    || exists k :: 0 <= k < |order.fulfillmentOrders.value| && |order.fulfillmentOrders.value[k].lineItems| > 0
  }

  /** The exported handler. `parsed` is the result of `JSON.parse` on the
      raw body (None when it throws). */
  function HandleWebhook(
    rev: Revision, httpMethod: string, hmacHeader: Option<string>, rawBody: string,
    parsed: Option<Order>, secret: string, sign: Signer, replies: Replies): (r: Run)
    ensures httpMethod != "POST" ==> r == Run(MethodNotAllowed, [])
    ensures r.response == MethodNotAllowed <==> httpMethod != "POST"
    ensures httpMethod == "POST" && !Authentic(hmacHeader, secret, rawBody, sign) ==> r == Run(Unauthorized, [])
    ensures httpMethod == "POST" && Authentic(hmacHeader, secret, rawBody, sign) && parsed.None? ==>
      r == Run(ProcessingError, [])
    // no eSIM line item: no outbound call; the outcome depends on the revision
    ensures
      (httpMethod == "POST" && Authentic(hmacHeader, secret, rawBody, sign) && parsed.Some? &&
       FindIndex(parsed.value.lineItems, CarriesSku).None?) ==>
      && r.trace == []
      && (rev == NullChecked ==> r.response == Skipped)
      && (rev == AsWritten && DereferencesMissingItem(parsed.value) ==> r.response == ProcessingError)
      && (rev == AsWritten && !DereferencesMissingItem(parsed.value) ==> r.response == Skipped)
    // an eSIM line item that no fulfillment order holds: skipped
    ensures
      (httpMethod == "POST" && Authentic(hmacHeader, secret, rawBody, sign) && parsed.Some? &&
       FindIndex(parsed.value.lineItems, CarriesSku).Some? && parsed.value.fulfillmentOrders.Some? &&
       forall k :: 0 <= k < |parsed.value.fulfillmentOrders.value| ==>
         !References(parsed.value.fulfillmentOrders.value[k],
                     parsed.value.lineItems[FindIndex(parsed.value.lineItems, CarriesSku).value].id)) ==>
      r == Run(Skipped, [])
    ensures |r.trace| <= 2
    // the activation request, if any, is for the first eSIM item of an authentic order held by a fulfillment order
    ensures r.trace != [] ==>
      && httpMethod == "POST" && Authentic(hmacHeader, secret, rawBody, sign) && parsed.Some?
      && var order := parsed.value;
      && var i := FindIndex(order.lineItems, CarriesSku);
      && i.Some? && order.fulfillmentOrders.Some?
      && var item := order.lineItems[i.value];
      && ScanFulfillmentOrders(order.fulfillmentOrders.value, Some(item.id)).Found?
      && SkuOf(item).Some? && order.customerId.Some?
      && r.trace[0] == Activate(ActivationRequest(SkuOf(item).value, order.email, order.customerId.value, order.id))
    // the fulfillment request, if any, follows a successful activation and targets the matched fulfillment order
    ensures |r.trace| == 2 ==>
      && parsed.Some? && replies.activation.Ok? && replies.activation.data.Some? && r.trace[1].Fulfill?
      && var order := parsed.value;
      && var item := order.lineItems[FindIndex(order.lineItems, CarriesSku).value];
      && var fos := order.fulfillmentOrders.value;
      && var chosen := fos[ScanFulfillmentOrders(fos, Some(item.id)).index];
      && var d := replies.activation.data.value;
      && var f := r.trace[1].fulfillment;
      && f.orderId == None
      && f.locationId == Some(chosen.assignedLocationId)
      && f.fulfillmentOrderId == Some(chosen.id)
      && f.lines == [FulfillmentLine(item.id, item.quantity)]
      && f.notifyCustomer
      && IsInfix(d.qrcodeImageUrl, f.remark) && IsInfix(d.activationCode, f.remark)
    // success means both external calls succeeded
    ensures r.response == Fulfilled <==>
      |r.trace| == 2 && replies.activation.Ok? && replies.fulfillment.Ok?
    // an eSIM item on an order without `fulfillment_orders`: the search throws, giving 500
    ensures
      (httpMethod == "POST" && Authentic(hmacHeader, secret, rawBody, sign) && parsed.Some? &&
       FindIndex(parsed.value.lineItems, CarriesSku).Some? && parsed.value.fulfillmentOrders.None?) ==>
      r == Run(ProcessingError, [])
    // an eSIM item held by a fulfillment order, on an order without a customer, fails before any call
    ensures
      (httpMethod == "POST" && Authentic(hmacHeader, secret, rawBody, sign) && parsed.Some? &&
       FindIndex(parsed.value.lineItems, CarriesSku).Some? && parsed.value.fulfillmentOrders.Some? &&
       ScanFulfillmentOrders(parsed.value.fulfillmentOrders.value,
         Some(parsed.value.lineItems[FindIndex(parsed.value.lineItems, CarriesSku).value].id)).Found? &&
       parsed.value.customerId.None?) ==>
      r == Run(ProcessingError, [])
    // an activation that returned details is always followed by the fulfillment request
    ensures r.trace != [] && replies.activation.Ok? && replies.activation.data.Some? ==> |r.trace| == 2
    // once the provider has been called, a failure of either call gives 500
    ensures r.trace != [] ==> r.response in {Fulfilled, ProcessingError}
    ensures replies.activation.Failed? ==> |r.trace| <= 1
    ensures r.response in {MethodNotAllowed, Unauthorized, Skipped, Fulfilled, ProcessingError}
  {
    if httpMethod != "POST" then Run(MethodNotAllowed, [])
    else if !Authentic(hmacHeader, secret, rawBody, sign) then Run(Unauthorized, [])
    else
      match parsed
      case None => Run(ProcessingError, [])
      case Some(order) =>
        var esim := FindIndex(order.lineItems, CarriesSku);
        if rev == NullChecked && esim.None? then Run(Skipped, [])
        else
          match order.fulfillmentOrders
          case None => Run(ProcessingError, [])
          case Some(fos) =>
            var fo := ScanFulfillmentOrders(fos, EsimId(order.lineItems, esim));
            if fo.Throws? then Run(ProcessingError, [])
            else if esim.None? || fo.Missing? then Run(Skipped, [])
            else
              var item := order.lineItems[esim.value];
              var chosen := fos[fo.index];
              Provision(order, item, Target(None, Some(chosen.assignedLocationId), Some(chosen.id)), replies)
  }

  /** An authentic order whose first eSIM item is held by a fulfillment
      order and which has a customer always reaches the provider. */
  lemma HeldItemIsActivated(
    rev: Revision, hmacHeader: Option<string>, rawBody: string, order: Order,
    secret: string, sign: Signer, replies: Replies)
    requires Authentic(hmacHeader, secret, rawBody, sign)
    requires FindIndex(order.lineItems, CarriesSku).Some?
    requires order.fulfillmentOrders.Some?
    requires ScanFulfillmentOrders(order.fulfillmentOrders.value,
      Some(order.lineItems[FindIndex(order.lineItems, CarriesSku).value].id)).Found?
    requires order.customerId.Some?
    ensures |HandleWebhook(rev, "POST", hmacHeader, rawBody, Some(order), secret, sign, replies).trace| >= 1
  {
    SelectedItemHasSku(order.lineItems[FindIndex(order.lineItems, CarriesSku).value]);
  }

  /** The defect as written: the same order without an eSIM line item is
      skipped or fails depending on whether a fulfillment order lists a line
      item. With the existence check first, both are skipped. */
  lemma NoEsimOutcomeDependsOnFulfillmentOrders()
    ensures
      var sign := (secret: string, body: string) => "sig";
      var plain := LineItem(1, 1, Some([]), None);
      var listed := Order(5, "a@b.c", Some(9), [plain], [], Some([FulfillmentOrder(7, 3, [FulfillmentOrderLine(1)])]));
      var unlisted := Order(5, "a@b.c", Some(9), [plain], [], Some([FulfillmentOrder(7, 3, [])]));
      && HandleWebhook(AsWritten, "POST", Some("sig"), "{}", Some(listed), "k", sign, Replies(Failed, Failed))
         == Run(ProcessingError, [])
      && HandleWebhook(AsWritten, "POST", Some("sig"), "{}", Some(unlisted), "k", sign, Replies(Failed, Failed))
         == Run(Skipped, [])
      && HandleWebhook(NullChecked, "POST", Some("sig"), "{}", Some(listed), "k", sign, Replies(Failed, Failed))
         == Run(Skipped, [])
  {
    var plain := LineItem(1, 1, Some([]), None);
    assert !CarriesSku(plain);
  }

  /** With the existence check first, an authentic order without an eSIM
      line item is skipped with no outbound call, whatever its fulfillment
      orders are. */
  lemma NullCheckedSkipsOrdersWithoutEsim(
    hmacHeader: Option<string>, rawBody: string, order: Order,
    secret: string, sign: Signer, replies: Replies)
    requires Authentic(hmacHeader, secret, rawBody, sign)
    requires forall j :: 0 <= j < |order.lineItems| ==> !CarriesSku(order.lineItems[j])
    ensures HandleWebhook(NullChecked, "POST", hmacHeader, rawBody, Some(order), secret, sign, replies) == Run(Skipped, [])
  {
  }

  /** A signed order with one eSIM item held by one fulfillment order, and
      both calls answered: the fulfillment carries both credentials and the
      answer is 200. */
  lemma EsimOrderFulfilled(secret: string, rawBody: string, sign: Signer)
    requires sign(secret, rawBody) != ""
    ensures
      var item := LineItem(1, 1, Some([Property(SkuPropertyName, "P1")]), None);
      var order := Order(5, "a@b.c", Some(9), [item], [], Some([FulfillmentOrder(7, 3, [FulfillmentOrderLine(1)])]));
      var d := EsimDetails("https://x/q.png", "ABC123");
      var r := HandleWebhook(AsWritten, "POST", Some(sign(secret, rawBody)), rawBody, Some(order), secret, sign,
                             Replies(Ok(Some(d)), Ok(())));
      && r.response == Fulfilled
      && r.trace[0] == Activate(ActivationRequest("P1", "a@b.c", 9, 5))
      && r.trace[1].Fulfill?
      && r.trace[1].fulfillment.locationId == Some(3)
      && r.trace[1].fulfillment.fulfillmentOrderId == Some(7)
      && IsInfix(d.qrcodeImageUrl, r.trace[1].fulfillment.remark)
      && IsInfix(d.activationCode, r.trace[1].fulfillment.remark)
  {
    var item := LineItem(1, 1, Some([Property(SkuPropertyName, "P1")]), None);
    assert IsSkuProperty(item.properties.value[0]);
    assert CarriesSku(item);
    var fo := FulfillmentOrder(7, 3, [FulfillmentOrderLine(1)]);
    assert References(fo, 1) by {
      assert fo.lineItems[0].id == 1;
    }
  }
}
