/**
 * `POST /api/callback`: the gateway's status-change callback. The handler decrypts without passing a
 * key, so as written every request with a payload ends in a 500 before the store is reached; `Post`
 * models that. What the handler would do with a decrypted notification (lookup, synthesis of a missing
 * order, the paid/pending update, the write-once transaction details, the confirmation request) is
 * `CallbackOutcome`, implemented by `Process`.
 */
module CallbackRoute {
  import opened Wrappers
  import opened Text
  import opened Gateway
  import opened OrderSchema
  import opened OrderStore
  import opened Reconciliation
  import opened Realtime
  import opened Http
  import PayloadCipher

  datatype CallbackBody = CallbackBody(payload: Option<string>)

  datatype Outcome = Outcome(resp: Response, orders: map<ObjectId, Order>, deliveries: seq<Delivery>, outbound: seq<string>)

  /** What V8 throws when `products.map` is called on an absent list. */
  const ProductsMissing := "Cannot read properties of undefined (reading 'map')"

  /**
   * The handler up to the decryption. `body` is the parsed JSON body or the parse error; a parse error
   * and the decryption error are both caught and answered 500 with their message.
   */
  method Post(body: Result<CallbackBody, string>, parse: seq<Bytes.byte> -> Result<Notification, string>)
    returns (resp: Response)
    ensures body.Err? ==> resp == Response(500, Error(body.error))
    ensures body.Ok? && !Truthy(body.value.payload) ==> resp == Response(400, Error("No payload provided"))
    ensures body.Ok? && Truthy(body.value.payload) ==>
      resp == Response(500, Error(PayloadCipher.DecryptionFailed + PayloadCipher.KeyMissingMessage))
  {
    if body.Err? {
      return Response(500, Error(body.error));
    }
    var payload := body.value.payload;
    if !Truthy(payload) {
      return Response(400, Error("No payload provided"));
    }
    // The secret key argument is omitted, so decryption throws before anything else happens.
    var decrypted := PayloadCipher.DecryptPayload(payload.value, None, parse);
    resp := Response(500, Error(decrypted.error));
  }

  /** A callback item carries the product's id, name, price and quantity only. */
  function CallbackItem(p: Product): Item {
    Item(p.productId, p.name, p.price, p.quantity, None, None)
  }

  function CallbackItems(ps: seq<Product>): (items: seq<Item>)
    ensures |items| == |ps| && forall i :: 0 <= i < |ps| ==> items[i] == CallbackItem(ps[i])
  {
    seq(|ps|, i requires 0 <= i < |ps| => CallbackItem(ps[i]))
  }

  /** `new Order({...})` for a notification no order matched. */
  function Synthesize(n: Notification, now: int, newId: ObjectId): Order
    requires n.products.Some?
  {
    NewOrder(newId, now).(
      transactionId := n.transactionId,
      amount := n.amount,
      paymentStatus := if n.status == Some("SUCCESS") then "paid" else "pending",
      items := Some(CallbackItems(n.products.value)))
  }

  /** The update of a found order: paid iff SUCCESS, else pending; the transaction id overwritten; details kept once set. */
  function CallbackUpdate(o: Order, n: Notification, now: int): Order {
    var u := o.(paymentStatus := if n.status == Some("SUCCESS") then "paid" else "pending",
                transactionId := n.transactionId,
                updatedAt := now);
    if u.transactionDetails.None? then u.(transactionDetails := Some(n)) else u
  }

  /** `${NEXT_PUBLIC_DLPAY_API_URL}/checkout/${transactionId}/confirm`, with no default for the base. */
  function CallbackConfirmUrl(apiUrl: Option<string>, transactionId: Option<string>): string {
    JsText(apiUrl) + "/checkout/" + JsText(transactionId) + "/confirm"
  }

  function CallbackOutcome(ids: seq<ObjectId>, orders: map<ObjectId, Order>, sockets: SocketServer,
                           n: Notification, apiUrl: Option<string>, now: int, newId: ObjectId): Outcome
    reads sockets
    requires ValidState(ids, orders)
  {
    match Resolve(ids, orders, n)
    case Err(m) => Outcome(Response(500, Error(m)), orders, [], [])
    case Ok(None) =>
      if n.products.None? then Outcome(Response(500, Error(ProductsMissing)), orders, [], [])
      else Outcome(Response(500, Error(ValidationMessage(Synthesize(n, now, newId)))), orders, [], [])
    case Ok(Some(k)) => CallbackFound(orders, sockets, k, n, apiUrl, now)
  }

  /** The path for a found order: the update is saved, both rooms are told, the gateway is asked to confirm. */
  function CallbackFound(orders: map<ObjectId, Order>, sockets: SocketServer, k: ObjectId,
                         n: Notification, apiUrl: Option<string>, now: int): Outcome
    reads sockets
    requires k in orders
  {
    var o := CallbackUpdate(orders[k], n, now);
    Outcome(Response(200, OrderAck("Order updated successfully", k)), orders[k := o],
            sockets.EmitOrderUpdate(o.orderId) + sockets.EmitDashboardUpdate(),
            [CallbackConfirmUrl(apiUrl, n.transactionId)])
  }

  // ---- properties of the specification ----

  /**
   * The synthesised order lacks `orderId`, `gameId`, `gameName`, `packageId`, `packageName`, `price`,
   * `userId` and `paymentMethod`, so validation rejects it: a miss never creates an order, sends
   * nothing and is answered 500.
   */
  lemma MissNeverCreates(ids: seq<ObjectId>, orders: map<ObjectId, Order>, sockets: SocketServer,
                         n: Notification, apiUrl: Option<string>, now: int, newId: ObjectId)
    requires ValidState(ids, orders) && Resolve(ids, orders, n) == Ok(None)
    ensures var out := CallbackOutcome(ids, orders, sockets, n, apiUrl, now, newId);
      out.resp.status == 500 && out.orders == orders && out.deliveries == [] && out.outbound == []
    ensures n.products.Some? ==> |ValidationErrors(Synthesize(n, now, newId))| >= 8
  {
  }

  /** Any notification but SUCCESS leaves a found order pending, even one already paid. */
  lemma CallbackPaidIffSuccess(ids: seq<ObjectId>, orders: map<ObjectId, Order>, sockets: SocketServer,
                               n: Notification, apiUrl: Option<string>, now: int, newId: ObjectId, k: ObjectId)
    requires ValidState(ids, orders) && Resolve(ids, orders, n) == Ok(Some(k))
    ensures var out := CallbackOutcome(ids, orders, sockets, n, apiUrl, now, newId);
      k in out.orders
      && (out.orders[k].paymentStatus == "paid" <==> n.status == Some("SUCCESS"))
      && (out.orders[k].paymentStatus == "pending" <==> n.status != Some("SUCCESS"))
      && out.orders[k].transactionId == n.transactionId && out.orders[k].updatedAt == now
  {
    var out := CallbackOutcome(ids, orders, sockets, n, apiUrl, now, newId);
    assert out == CallbackFound(orders, sockets, k, n, apiUrl, now);
    var u := CallbackUpdate(orders[k], n, now);
    assert out.orders[k] == u;
    assert u.paymentStatus == (if n.status == Some("SUCCESS") then "paid" else "pending");
  }

  /** `transactionDetails` is written by the first callback that reaches an order and never replaced. */
  lemma TransactionDetailsWriteOnce(o: Order, n: Notification, n': Notification, now: int, now': int)
    ensures o.transactionDetails.Some? ==> CallbackUpdate(o, n, now).transactionDetails == o.transactionDetails
    ensures o.transactionDetails.None? ==> CallbackUpdate(o, n, now).transactionDetails == Some(n)
    ensures CallbackUpdate(CallbackUpdate(o, n, now), n', now').transactionDetails
         == CallbackUpdate(o, n, now).transactionDetails
  {
  }

  /** The update keeps a stored order valid and under the same id and `orderId`. */
  lemma CallbackUpdateSaveable(o: Order, n: Notification, now: int)
    requires SchemaValid(o)
    ensures var u := CallbackUpdate(o, n, now); SchemaValid(u) && u.id == o.id && u.orderId == o.orderId
  {
  }

  /** The update keeps the collection valid, and only the update path emits and calls the gateway. */
  lemma CallbackFrame(ids: seq<ObjectId>, orders: map<ObjectId, Order>, sockets: SocketServer,
                      n: Notification, apiUrl: Option<string>, now: int, newId: ObjectId)
    requires ValidState(ids, orders)
    ensures var out := CallbackOutcome(ids, orders, sockets, n, apiUrl, now, newId);
      out.orders.Keys == orders.Keys && ValidState(ids, out.orders)
      && (out.outbound != [] <==> out.resp.status == 200)
      && (out.resp.status != 200 ==> out.orders == orders && out.deliveries == [])
  {
    var found := Resolve(ids, orders, n);
    if found.Ok? && found.value.Some? {
      var k := found.value.value;
      assert CallbackOutcome(ids, orders, sockets, n, apiUrl, now, newId)
          == CallbackFound(orders, sockets, k, n, apiUrl, now);
      FoundFrame(ids, orders, sockets, k, n, apiUrl, now);
    }
  }

  lemma FoundFrame(ids: seq<ObjectId>, orders: map<ObjectId, Order>, sockets: SocketServer, k: ObjectId,
                   n: Notification, apiUrl: Option<string>, now: int)
    requires ValidState(ids, orders) && k in orders
    ensures var out := CallbackFound(orders, sockets, k, n, apiUrl, now);
      out.orders.Keys == orders.Keys && ValidState(ids, out.orders)
  {
    var o := CallbackUpdate(orders[k], n, now);
    CallbackUpdateSaveable(orders[k], n, now);
    SameOrderIdIsFree(ids, orders, o);
    StorePreservesValid(ids, orders, o);
  }

  // ---- the handler after decryption ----

  method Process(store: Store, sockets: SocketServer, n: Notification, apiUrl: Option<string>, now: int,
                 newId: ObjectId)
    returns (resp: Response, deliveries: seq<Delivery>, outbound: seq<string>)
    requires store.Valid() && IsObjectId(newId)
    modifies store
    ensures store.Valid() && store.ids == old(store.ids)
    ensures Outcome(resp, store.orders, deliveries, outbound)
         == CallbackOutcome(old(store.ids), old(store.orders), sockets, n, apiUrl, now, newId)
  {
    deliveries, outbound := [], [];
    var found := store.FindOne(ByTransactionId(n.transactionId));
    var key := found.value;
    if key.None? && OrderRef(n).Some? {
      found := store.FindOne(ByIdOrOrderId(OrderRef(n).value));
      if found.Err? {
        resp := Response(500, Error(found.error));
        return;
      }
      key := found.value;
    }
    if key.None? {
      if n.products.None? {
        resp := Response(500, Error(ProductsMissing));
        return;
      }
      var newOrder := NewOrder(newId, now);
      newOrder := newOrder.(transactionId := n.transactionId);
      newOrder := newOrder.(amount := n.amount);
      newOrder := newOrder.(paymentStatus := if n.status == Some("SUCCESS") then "paid" else "pending");
      newOrder := newOrder.(items := Some(CallbackItems(n.products.value)));
      // The draft misses most required paths, so this save always throws and the catch answers 500.
      var err := store.Save(newOrder);
      resp := Response(500, Error(err.value));
      return;
    }
    resp, deliveries, outbound := Update(store, sockets, key.value, n, apiUrl, now);
  }

  /** The found path: the field assignments, the save, the emits and the confirmation request. */
  method Update(store: Store, sockets: SocketServer, k: ObjectId, n: Notification, apiUrl: Option<string>, now: int)
    returns (resp: Response, deliveries: seq<Delivery>, outbound: seq<string>)
    requires store.Valid() && k in store.orders
    modifies store
    ensures store.Valid() && store.ids == old(store.ids)
    ensures Outcome(resp, store.orders, deliveries, outbound) == CallbackFound(old(store.orders), sockets, k, n, apiUrl, now)
  {
    var order := store.orders[k];
    order := order.(paymentStatus := if n.status == Some("SUCCESS") then "paid" else "pending");
    order := order.(transactionId := n.transactionId);
    order := order.(updatedAt := now);
    if order.transactionDetails.None? {
      order := order.(transactionDetails := Some(n));
    }
    CallbackUpdateSaveable(store.orders[k], n, now);
    SameOrderIdIsFree(store.ids, store.orders, order);
    var _ := store.Save(order);
    deliveries := sockets.EmitOrderUpdate(order.orderId) + sockets.EmitDashboardUpdate();
    // The confirmation request's own failure is only logged.
    outbound := [CallbackConfirmUrl(apiUrl, n.transactionId)];
    resp := Response(200, OrderAck("Order updated successfully", k));
  }
}
