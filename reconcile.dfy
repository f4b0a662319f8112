/**
 * The reconciliation the webhook and confirm routes share: find the order a gateway notification is
 * about, map the gateway's status word onto the order's statuses, replace its items with the
 * notification's products and stamp the update time.
 */
module Reconciliation {
  import opened Wrappers
  import opened Gateway
  import opened OrderSchema
  import opened OrderStore

  /**
   * The two-step lookup: the order holding the notification's `transactionId`; only when there is none,
   * and only when `metadata.orderId` is present, the order whose `_id` or `orderId` is that reference.
   */
  function Resolve(ids: seq<ObjectId>, orders: map<ObjectId, Order>, n: Notification): (r: Result<Option<ObjectId>, string>)
    requires ValidState(ids, orders)
    ensures r.Ok? && r.value.Some? ==> r.value.value in orders
    ensures (exists id :: id in orders && orders[id].transactionId == n.transactionId) ==>
      r.Ok? && r.value.Some? && orders[r.value.value].transactionId == n.transactionId
    ensures r.Ok? && r.value.Some? && orders[r.value.value].transactionId != n.transactionId ==>
      OrderRef(n).Some? && CastObjectId(OrderRef(n).value).Some?
      && Matches(orders[r.value.value], ByIdOrOrderId(OrderRef(n).value))
    ensures OrderRef(n).None? ==> r.Ok?
    ensures r.Err? <==> (forall id :: id in orders ==> orders[id].transactionId != n.transactionId)
                        && OrderRef(n).Some? && CastObjectId(OrderRef(n).value).None?
    ensures r == Ok(None) <==>
      (forall id :: id in orders ==> orders[id].transactionId != n.transactionId)
      && (OrderRef(n).None? ||
          (CastObjectId(OrderRef(n).value).Some? &&
           forall id :: id in orders ==> !Matches(orders[id], ByIdOrOrderId(OrderRef(n).value))))
  {
    var first := Find(ids, orders, ByTransactionId(n.transactionId));
    if first.Ok? && first.value.Some? then first
    else if OrderRef(n).Some? then Find(ids, orders, ByIdOrOrderId(OrderRef(n).value))
    else Ok(None)
  }

  /** The status mapping: SUCCESS, FAILED and EXPIRED are recognised, every other word changes nothing. */
  function ApplyGatewayStatus(o: Order, status: Option<string>): Order {
    if status == Some("SUCCESS") then
      o.(paymentStatus := "paid", status := Some("completed"), fulfillmentStatus := "pending")
    else if status == Some("FAILED") then
      o.(paymentStatus := "failed", status := Some("failed"))
    else if status == Some("EXPIRED") then
      o.(paymentStatus := "expired", status := Some("expired"))
    else o
  }

  /** One order item per gateway product, field by field; the product's `id` becomes `itemId`. */
  function ItemOf(p: Product): Item {
    Item(p.productId, p.name, p.price, p.quantity, p.image, p.id)
  }

  function ItemsOf(ps: seq<Product>): (items: seq<Item>)
    ensures |items| == |ps| && forall i :: 0 <= i < |ps| ==> items[i] == ItemOf(ps[i])
  {
    seq(|ps|, i requires 0 <= i < |ps| => ItemOf(ps[i]))
  }

  /** `products.reduce((sum, product) => sum + product.quantity, acc)`, a left fold. */
  function ReduceQuantities(ps: seq<Product>, acc: int): int {
    if ps == [] then acc else ReduceQuantities(ps[1..], acc + ps[0].quantity)
  }

  /** The sum of the quantities of a list of order items. */
  function ItemQuantity(items: seq<Item>): int {
    if items == [] then 0 else items[0].quantity + ItemQuantity(items[1..])
  }

  /** The fold the routes compute equals the total quantity of the items they store beside it. */
  lemma {:induction false} ReduceIsItemQuantity(ps: seq<Product>, acc: int)
    ensures ReduceQuantities(ps, acc) == acc + ItemQuantity(ItemsOf(ps))
  {
    if ps != [] {
      ReduceIsItemQuantity(ps[1..], acc + ps[0].quantity);
      assert ItemsOf(ps)[1..] == ItemsOf(ps[1..]);
    }
  }

  /** With a non-empty product list: items replaced, amount taken from the gateway, total quantity summed. */
  function ApplyProducts(o: Order, n: Notification): Order {
    if HasProducts(n) then
      var ps := n.products.value;
      o.(items := Some(ItemsOf(ps)), amount := n.amount, totalQuantity := Some(ReduceQuantities(ps, 0)))
    else o
  }

  /** What the encrypted webhook and the confirm route write to a found order before saving it. */
  function Reconcile(o: Order, n: Notification, now: int): Order {
    ApplyProducts(ApplyGatewayStatus(o, n.status), n).(updatedAt := now)
  }

  /** The status table, all four rows. */
  lemma ReconcileStatus(o: Order, n: Notification, now: int)
    ensures var r := Reconcile(o, n, now);
      (n.status == Some("SUCCESS") ==>
         r.paymentStatus == "paid" && r.status == Some("completed") && r.fulfillmentStatus == "pending")
      && (n.status == Some("FAILED") ==>
         r.paymentStatus == "failed" && r.status == Some("failed") && r.fulfillmentStatus == o.fulfillmentStatus)
      && (n.status == Some("EXPIRED") ==>
         r.paymentStatus == "expired" && r.status == Some("expired") && r.fulfillmentStatus == o.fulfillmentStatus)
      && (n.status !in {Some("SUCCESS"), Some("FAILED"), Some("EXPIRED")} ==>
         r.paymentStatus == o.paymentStatus && r.status == o.status && r.fulfillmentStatus == o.fulfillmentStatus)
  {
  }

  /**
   * Items are replaced wholesale (same length, same order, one item per product) and the total quantity
   * is the sum over the new items; without products, items, amount and total quantity are untouched.
   */
  lemma ReconcileProducts(o: Order, n: Notification, now: int)
    ensures var r := Reconcile(o, n, now);
      (HasProducts(n) ==>
         r.items.Some? && |r.items.value| == |n.products.value|
         && (forall i :: 0 <= i < |n.products.value| ==> r.items.value[i] == ItemOf(n.products.value[i]))
         && r.amount == n.amount && r.totalQuantity == Some(ItemQuantity(r.items.value)))
      && (!HasProducts(n) ==> r.items == o.items && r.amount == o.amount && r.totalQuantity == o.totalQuantity)
  {
    if HasProducts(n) {
      ReduceIsItemQuantity(n.products.value, 0);
    }
  }

  /** Identity, ownership and the transaction id are never written; `updatedAt` always is. */
  lemma ReconcileFrame(o: Order, n: Notification, now: int)
    ensures var r := Reconcile(o, n, now);
      r.id == o.id && r.orderId == o.orderId && r.transactionId == o.transactionId
      && r.gameId == o.gameId && r.gameName == o.gameName && r.packageId == o.packageId
      && r.packageName == o.packageName && r.price == o.price && r.currency == o.currency
      && r.userId == o.userId && r.serverId == o.serverId && r.paymentMethod == o.paymentMethod
      && r.createdAt == o.createdAt && r.notes == o.notes && r.transactionDetails == o.transactionDetails
      && r.updatedAt == now
  {
  }

  /** Delivering the same notification twice leaves the order as one delivery did. */
  lemma ReconcileIdempotent(o: Order, n: Notification, now: int)
    ensures Reconcile(Reconcile(o, n, now), n, now) == Reconcile(o, n, now)
  {
  }

  /**
   * A valid order stays valid under reconciliation exactly when the notification is not EXPIRED and does
   * not carry products without an amount: those two are the saves the schema rejects.
   */
  lemma ReconcileSaveable(o: Order, n: Notification, now: int)
    requires SchemaValid(o)
    ensures SchemaValid(Reconcile(o, n, now)) <==>
      n.status != Some("EXPIRED") && !(HasProducts(n) && n.amount.None?)
  {
    var r := Reconcile(o, n, now);
    if n.status == Some("EXPIRED") {
      ExpiredIsNotAPaymentStatus(r);
    }
  }
}
