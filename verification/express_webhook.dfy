/** The paid-order webhook of the Express server revision: verify the
    signature, pick the eSIM line item, activate it with the provider, and
    record the fulfillment under the order. The route only receives POST
    requests, and the body has already been parsed by the JSON middleware. */
module ExpressWebhook {
  import opened Search
  import opened Calls
  import opened Signature
  import opened Orders

  /** No line item before position `n` is selected, and none of them lacks
      its properties (so reading them did not throw). */
  ghost predicate PassedOver(items: seq<LineItem>, n: nat)
    requires n <= |items|
  {
    forall j :: 0 <= j < n ==> items[j].properties.Some? && !CarriesSku(items[j])
  }

  /** `order.line_items.find(item => item.properties.some(...))`, where an
      absent `properties` makes the callback throw. The scan stops at the
      first selected item, so an absent field after it is never read. */
  function SelectEsimItem(items: seq<LineItem>): (r: Lookup)
    ensures r.Found? ==> r.index < |items| && CarriesSku(items[r.index]) && PassedOver(items, r.index)
    ensures r.Missing? <==> PassedOver(items, |items|)
    ensures r.Throws? <==>
      exists k :: 0 <= k < |items| && items[k].properties.None? && PassedOver(items, k)
    decreases |items|
  {
    if |items| == 0 then Missing
    else if items[0].properties.None? then Throws
    else if CarriesSku(items[0]) then Found(0)
    else
      var rest := SelectEsimItem(items[1..]);
      assert forall j :: 0 < j < |items| ==> items[j] == items[1..][j - 1];
      match rest
      case Found(i) => Found(i + 1)
      case Missing => Missing
      case Throws =>
        ghost var k :| 0 <= k < |items[1..]| && items[1..][k].properties.None? && PassedOver(items[1..], k);
        assert items[k + 1].properties.None? && PassedOver(items, k + 1);
        Throws
  }

  /** When every line item has its properties, the selection is the first
      item that carries a SKU, as in the serverless revision. */
  lemma SelectionAgreesWithFind(items: seq<LineItem>)
    requires forall j :: 0 <= j < |items| ==> items[j].properties.Some?
    ensures SelectEsimItem(items).Found? <==> FindIndex(items, CarriesSku).Some?
    ensures SelectEsimItem(items).Found? ==> SelectEsimItem(items).index == FindIndex(items, CarriesSku).value
    ensures !SelectEsimItem(items).Throws?
  {
  }

  /** `order.fulfillments[0]?.location_id || null`: a missing first
      fulfillment, a missing location and location 0 all give `null`. */
  function FirstLocation(fulfillments: seq<Fulfillment>): (loc: Option<nat>)
    ensures loc.Some? <==>
      |fulfillments| > 0 && fulfillments[0].locationId.Some? && fulfillments[0].locationId.value != 0
    ensures loc.Some? ==> loc == fulfillments[0].locationId
  {
    if |fulfillments| == 0 then None
    else match fulfillments[0].locationId
      case None => None
      case Some(l) => if l == 0 then None else Some(l)
  }

  /** The handler of `/shopify/webhooks/orders/paid`. */
  function HandleOrdersPaid(
    hmacHeader: Option<string>, rawBody: string, order: Order,
    secret: string, sign: Signer, replies: Replies): (r: Run)
    // rejected deliveries, including those without the header, cause no outbound call
    ensures !Authentic(hmacHeader, secret, rawBody, sign) ==> r == Run(Unauthorized, [])
    ensures Authentic(hmacHeader, secret, rawBody, sign) && SelectEsimItem(order.lineItems).Missing? ==>
      r == Run(Skipped, [])
    // an item without properties ahead of the eSIM item throws outside the try block
    ensures Authentic(hmacHeader, secret, rawBody, sign) && SelectEsimItem(order.lineItems).Throws? ==>
      r == Run(Uncaught, [])
    ensures |r.trace| <= 2
    // the activation request, if any, is for the first selected item of an authentic order
    ensures r.trace != [] ==>
      && Authentic(hmacHeader, secret, rawBody, sign)
      && var sel := SelectEsimItem(order.lineItems);
      && sel.Found?
      && var item := order.lineItems[sel.index];
      && SkuOf(item).Some? && order.customerId.Some?
      && r.trace[0] == Activate(ActivationRequest(SkuOf(item).value, order.email, order.customerId.value, order.id))
    // the fulfillment request, if any, follows a successful activation and delivers its details
    ensures |r.trace| == 2 ==>
      && replies.activation.Ok? && replies.activation.data.Some? && r.trace[1].Fulfill?
      && var item := order.lineItems[SelectEsimItem(order.lineItems).index];
      && var d := replies.activation.data.value;
      && var f := r.trace[1].fulfillment;
      && f.orderId == Some(order.id)
      && f.locationId == FirstLocation(order.fulfillments)
      && f.fulfillmentOrderId == item.fulfillmentOrderId
      && f.lines == [FulfillmentLine(item.id, item.quantity)]
      && f.notifyCustomer
      && IsInfix(d.qrcodeImageUrl, f.remark) && IsInfix(d.activationCode, f.remark)
    // success means both external calls succeeded
    ensures r.response == Fulfilled <==>
      |r.trace| == 2 && replies.activation.Ok? && replies.fulfillment.Ok?
    // a selected item without a customer fails inside the try block, before any call
    ensures
      (Authentic(hmacHeader, secret, rawBody, sign) && SelectEsimItem(order.lineItems).Found? &&
       order.customerId.None?) ==>
      r == Run(ProcessingError, [])
    // an activation that returned details is always followed by the fulfillment request
    ensures r.trace != [] && replies.activation.Ok? && replies.activation.data.Some? ==> |r.trace| == 2
    // once the provider has been called, a failure of either call gives 500
    ensures r.trace != [] ==> r.response in {Fulfilled, ProcessingError}
    ensures replies.activation.Failed? ==> |r.trace| <= 1
    ensures r.response in {Unauthorized, Skipped, Fulfilled, ProcessingError, Uncaught}
  {
    if !Authentic(hmacHeader, secret, rawBody, sign) then Run(Unauthorized, [])
    else
      match SelectEsimItem(order.lineItems)
      case Throws => Run(Uncaught, [])
      case Missing => Run(Skipped, [])
      case Found(i) =>
        var item := order.lineItems[i];
        Provision(order, item, Target(Some(order.id), FirstLocation(order.fulfillments), item.fulfillmentOrderId), replies)
  }

  /** A selected item with a customer always reaches the provider: an
      authentic order with an eSIM item is never skipped. */
  lemma SelectedItemIsActivated(
    hmacHeader: Option<string>, rawBody: string, order: Order,
    secret: string, sign: Signer, replies: Replies)
    requires Authentic(hmacHeader, secret, rawBody, sign)
    requires SelectEsimItem(order.lineItems).Found?
    requires order.customerId.Some?
    ensures |HandleOrdersPaid(hmacHeader, rawBody, order, secret, sign, replies).trace| >= 1
  {
    SelectedItemHasSku(order.lineItems[SelectEsimItem(order.lineItems).index]);
  }
}
