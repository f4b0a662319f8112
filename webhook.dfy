/**
 * `POST /api/webhook`: the gateway's push notification. A body without `payload` takes the legacy path
 * (status words checked against the gateway's own verification); a body with `payload` is decrypted and
 * reconciled against the store. Each path is specified by an outcome function (response, collection
 * after the request, socket deliveries) and implemented by a method that edits the found order field by
 * field and saves it.
 */
module WebhookRoute {
  import opened Wrappers
  import opened Text
  import opened Gateway
  import opened OrderSchema
  import opened OrderStore
  import opened Reconciliation
  import opened Realtime
  import opened Http
  import PayloadCipher

  /** The fields of the JSON body the route reads. */
  datatype WebhookBody = WebhookBody(payload: Option<string>, id: Option<string>, status: Option<string>)

  /** What one request leaves behind: its response, the collection's documents and the socket deliveries. */
  datatype Outcome = Outcome(resp: Response, orders: map<ObjectId, Order>, deliveries: seq<Delivery>)

  const LegacyFailure := Response(500, Error("Webhook processing failed"))
  const DecryptFailure := "Failed to decrypt payload"
  const UnmatchedMessage := "Order not found, but webhook acknowledged"

  predicate CompletedWord(s: Option<string>) { s == Some("completed") || s == Some("SUCCESS") }
  predicate FailedWord(s: Option<string>) { s == Some("failed") || s == Some("FAILED") }
  predicate ExpiredWord(s: Option<string>) { s == Some("expired") || s == Some("EXPIRED") }

  /** The legacy lookup: by `paymentId`, then by `transactionId` equal to the same id. */
  function LegacyTarget(ids: seq<ObjectId>, orders: map<ObjectId, Order>, paymentId: Option<string>): (r: Option<ObjectId>)
    requires ValidState(ids, orders)
    ensures r.Some? ==> r.value in orders
    ensures r.None? ==> forall id :: id in orders ==> orders[id].transactionId != paymentId
    ensures paymentId.Some? ==> r == FirstMatch(ids, orders, ByTransactionId(paymentId))
    ensures paymentId.None? ==> r == if ids == [] then None else Some(ids[0])
  {
    var byPayment := Find(ids, orders, ByPaymentId(paymentId)).value;
    if byPayment.Some? then byPayment else Find(ids, orders, ByTransactionId(paymentId)).value
  }

  /** What the legacy path does to a found order. */
  datatype LegacyWrite = NoWrite | VerifyFailed(message: string) | Write(order: Order, event: string)

  /**
   * A completion word is re-checked with the gateway (`verification` is what `verifyPayment` returned or
   * threw) and written only when the gateway agrees; failure and expiry words are written as they come;
   * any other word writes nothing.
   */
  function LegacyUpdate(o: Order, status: Option<string>, verification: Result<Option<string>, string>): (w: LegacyWrite)
    ensures w.Write? ==> w.order == o.(status := w.order.status, paymentStatus := w.order.paymentStatus)
    ensures w.Write? && w.order.paymentStatus == "paid" ==>
      CompletedWord(status) && verification.Ok? && CompletedWord(verification.value)
    ensures w.Write? && SchemaValid(o) ==> (SchemaValid(w.order) <==> !ExpiredWord(status))
    ensures w.VerifyFailed? <==> CompletedWord(status) && verification.Err?
  {
    if CompletedWord(status) then
      match verification
      case Err(m) => VerifyFailed(m)
      case Ok(v) =>
        if CompletedWord(v) then Write(o.(status := Some("completed"), paymentStatus := "paid"), "payment:completed")
        else NoWrite
    else if FailedWord(status) then Write(o.(status := Some("failed"), paymentStatus := "failed"), "payment:failed")
    else if ExpiredWord(status) then Write(o.(status := Some("expired"), paymentStatus := "expired"), "payment:expired")
    else NoWrite
  }

  /** The legacy path once the order `k` is found: the status chain, the save and the broadcast. */
  function LegacyApply(orders: map<ObjectId, Order>, sockets: SocketServer, k: ObjectId, status: Option<string>,
                       verification: Result<Option<string>, string>): Outcome
    reads sockets
    requires k in orders
  {
    match LegacyUpdate(orders[k], status, verification)
    case NoWrite => Outcome(Response(200, Success), orders, [])
    case VerifyFailed(_) => Outcome(LegacyFailure, orders, [])
    case Write(o, event) =>
      if SchemaValid(o) then Outcome(Response(200, Success), orders[k := o], sockets.Broadcast(event))
      else Outcome(LegacyFailure, orders, [])
  }

  function LegacyOutcome(ids: seq<ObjectId>, orders: map<ObjectId, Order>, sockets: SocketServer,
                         paymentId: Option<string>, status: Option<string>,
                         verification: Result<Option<string>, string>): Outcome
    reads sockets
    requires ValidState(ids, orders)
  {
    match LegacyTarget(ids, orders, paymentId)
    case None => Outcome(Response(404, Error("Order not found")), orders, [])
    case Some(k) => LegacyApply(orders, sockets, k, status, verification)
  }

  /** The encrypted path once the order `k` is found: reconciliation, the save and the order room's update. */
  function EncryptedFound(orders: map<ObjectId, Order>, sockets: SocketServer, k: ObjectId, n: Notification, now: int)
    : Outcome
    reads sockets
    requires k in orders
  {
    var r := Reconcile(orders[k], n, now);
    if SchemaValid(r) then Outcome(Response(200, Success), orders[k := r], sockets.EmitOrderUpdate(r.orderId))
    else Outcome(Response(500, ErrorDetail(DecryptFailure, ValidationMessage(r))), orders, [])
  }

  function EncryptedOutcome(ids: seq<ObjectId>, orders: map<ObjectId, Order>, sockets: SocketServer,
                            payload: string, secretKey: Option<string>,
                            parse: seq<Bytes.byte> -> Result<Notification, string>, now: int): Outcome
    reads sockets
    requires ValidState(ids, orders)
  {
    if !Truthy(secretKey) then Outcome(Response(500, Error("Missing secret key")), orders, [])
    else
      match PayloadCipher.DecryptPayload(payload, secretKey, parse)
      case Err(m) => Outcome(Response(500, ErrorDetail(DecryptFailure, m)), orders, [])
      case Ok(n) => EncryptedNotification(ids, orders, sockets, n, now)
  }

  /** The encrypted path once the notification is decrypted: the lookup, then the found order's update. */
  function EncryptedNotification(ids: seq<ObjectId>, orders: map<ObjectId, Order>, sockets: SocketServer,
                                 n: Notification, now: int): Outcome
    reads sockets
    requires ValidState(ids, orders)
  {
    match Resolve(ids, orders, n)
    case Err(m) => Outcome(Response(500, ErrorDetail(DecryptFailure, m)), orders, [])
    case Ok(None) => Outcome(Response(200, Acknowledged(UnmatchedMessage, n.transactionId)), orders, [])
    case Ok(Some(k)) => EncryptedFound(orders, sockets, k, n, now)
  }

  function WebhookOutcome(ids: seq<ObjectId>, orders: map<ObjectId, Order>, sockets: SocketServer,
                          body: Option<WebhookBody>, secretKey: Option<string>,
                          verification: Result<Option<string>, string>,
                          parse: seq<Bytes.byte> -> Result<Notification, string>, now: int): Outcome
    reads sockets
    requires ValidState(ids, orders)
  {
    match body
    case None => Outcome(Response(400, Error("Invalid JSON in request body")), orders, [])
    case Some(b) =>
      if !Truthy(b.payload) then LegacyOutcome(ids, orders, sockets, b.id, b.status, verification)
      else EncryptedOutcome(ids, orders, sockets, b.payload.value, secretKey, parse, now)
  }

  // ---- properties of the specification ----

  /** The collection after a request: unchanged, or one found order rewritten with its `orderId` kept. */
  predicate SingleRewrite(orders: map<ObjectId, Order>, after: map<ObjectId, Order>) {
    after == orders
    || exists k :: k in orders && k in after && after == orders[k := after[k]]
         && after[k].id == k && after[k].orderId == orders[k].orderId && SchemaValid(after[k])
  }

  /** A single rewrite creates and deletes nothing and keeps the collection valid. */
  lemma SingleRewriteFrame(ids: seq<ObjectId>, orders: map<ObjectId, Order>, after: map<ObjectId, Order>)
    requires ValidState(ids, orders) && SingleRewrite(orders, after)
    ensures after.Keys == orders.Keys && ValidState(ids, after)
    ensures forall a, b :: a in orders && b in orders && after[a] != orders[a] && after[b] != orders[b] ==> a == b
  {
    if after != orders {
      var k :| k in orders && k in after && after == orders[k := after[k]]
         && after[k].id == k && after[k].orderId == orders[k].orderId && SchemaValid(after[k]);
      RewriteAtFrame(ids, orders, k, after[k]);
    }
  }

  lemma RewriteAtFrame(ids: seq<ObjectId>, orders: map<ObjectId, Order>, k: ObjectId, o: Order)
    requires ValidState(ids, orders) && k in orders && o.id == k && o.orderId == orders[k].orderId && SchemaValid(o)
    ensures var after := orders[k := o];
      after.Keys == orders.Keys && ValidState(ids, after)
      && forall a :: a in orders && after[a] != orders[a] ==> a == k
  {
    SameOrderIdIsFree(ids, orders, o);
    StorePreservesValid(ids, orders, o);
  }

  lemma RewriteOne(orders: map<ObjectId, Order>, k: ObjectId, o: Order)
    requires k in orders && o.id == k && o.orderId == orders[k].orderId && SchemaValid(o)
    ensures SingleRewrite(orders, orders[k := o])
  {
    var after := orders[k := o];
    assert k in orders && k in after && after == orders[k := after[k]];
  }

  lemma LegacyRewrites(ids: seq<ObjectId>, orders: map<ObjectId, Order>, sockets: SocketServer,
                       paymentId: Option<string>, status: Option<string>,
                       verification: Result<Option<string>, string>)
    requires ValidState(ids, orders)
    ensures var out := LegacyOutcome(ids, orders, sockets, paymentId, status, verification);
      SingleRewrite(orders, out.orders) && (out.resp.status != 200 ==> out.orders == orders)
  {
    var target := LegacyTarget(ids, orders, paymentId);
    if target.Some? {
      var k := target.value;
      var out := LegacyApply(orders, sockets, k, status, verification);
      assert LegacyOutcome(ids, orders, sockets, paymentId, status, verification) == out;
      var w := LegacyUpdate(orders[k], status, verification);
      if w.Write? && SchemaValid(w.order) {
        assert out.orders == orders[k := w.order];
        RewriteOne(orders, k, w.order);
      } else {
        assert out.orders == orders;
      }
    }
  }

  lemma EncryptedRewrites(ids: seq<ObjectId>, orders: map<ObjectId, Order>, sockets: SocketServer,
                          payload: string, secretKey: Option<string>,
                          parse: seq<Bytes.byte> -> Result<Notification, string>, now: int)
    requires ValidState(ids, orders)
    ensures var out := EncryptedOutcome(ids, orders, sockets, payload, secretKey, parse, now);
      SingleRewrite(orders, out.orders) && (out.resp.status != 200 ==> out.orders == orders)
  {
    if Truthy(secretKey) && PayloadCipher.DecryptPayload(payload, secretKey, parse).Ok? {
      var n := PayloadCipher.DecryptPayload(payload, secretKey, parse).value;
      assert EncryptedOutcome(ids, orders, sockets, payload, secretKey, parse, now)
          == EncryptedNotification(ids, orders, sockets, n, now);
      NotificationRewrites(ids, orders, sockets, n, now);
    }
  }

  lemma NotificationRewrites(ids: seq<ObjectId>, orders: map<ObjectId, Order>, sockets: SocketServer,
                             n: Notification, now: int)
    requires ValidState(ids, orders)
    ensures var out := EncryptedNotification(ids, orders, sockets, n, now);
      SingleRewrite(orders, out.orders) && (out.resp.status != 200 ==> out.orders == orders)
  {
    var found := Resolve(ids, orders, n);
    if found.Ok? && found.value.Some? {
      var k := found.value.value;
      var out := EncryptedFound(orders, sockets, k, n, now);
      assert EncryptedNotification(ids, orders, sockets, n, now) == out;
      var r := Reconcile(orders[k], n, now);
      if SchemaValid(r) {
        ReconcileFrame(orders[k], n, now);
        RewriteOne(orders, k, r);
      }
    }
  }

  /**
   * The webhook never creates or deletes an order, keeps the collection valid, rewrites at most the one
   * order it found, and changes nothing unless it answers 200.
   */
  lemma WebhookFrame(ids: seq<ObjectId>, orders: map<ObjectId, Order>, sockets: SocketServer,
                     body: Option<WebhookBody>, secretKey: Option<string>,
                     verification: Result<Option<string>, string>,
                     parse: seq<Bytes.byte> -> Result<Notification, string>, now: int)
    requires ValidState(ids, orders)
    ensures var out := WebhookOutcome(ids, orders, sockets, body, secretKey, verification, parse, now);
      out.orders.Keys == orders.Keys && ValidState(ids, out.orders)
      && (out.resp.status != 200 ==> out.orders == orders)
      && forall a, b :: a in orders && b in orders && out.orders[a] != orders[a] && out.orders[b] != orders[b] ==> a == b
  {
    var out := WebhookOutcome(ids, orders, sockets, body, secretKey, verification, parse, now);
    if body.Some? {
      var b := body.value;
      if !Truthy(b.payload) {
        LegacyRewrites(ids, orders, sockets, b.id, b.status, verification);
      } else {
        EncryptedRewrites(ids, orders, sockets, b.payload.value, secretKey, parse, now);
      }
    }
    SingleRewriteFrame(ids, orders, out.orders);
  }

  /** An EXPIRED notification for a found order is answered 500 and stored nowhere. */
  lemma ExpiredNotificationRejected(ids: seq<ObjectId>, orders: map<ObjectId, Order>, sockets: SocketServer,
                                    payload: string, secretKey: Option<string>,
                                    parse: seq<Bytes.byte> -> Result<Notification, string>, now: int, k: ObjectId)
    requires ValidState(ids, orders) && Truthy(secretKey)
    requires PayloadCipher.DecryptPayload(payload, secretKey, parse).Ok?
    requires var n := PayloadCipher.DecryptPayload(payload, secretKey, parse).value;
      n.status == Some("EXPIRED") && Resolve(ids, orders, n) == Ok(Some(k))
    ensures var out := EncryptedOutcome(ids, orders, sockets, payload, secretKey, parse, now);
      out.resp.status == 500 && out.orders == orders && out.deliveries == []
  {
    var n := PayloadCipher.DecryptPayload(payload, secretKey, parse).value;
    assert EncryptedOutcome(ids, orders, sockets, payload, secretKey, parse, now) == EncryptedFound(orders, sockets, k, n, now);
    ReconcileStatus(orders[k], n, now);
    ExpiredIsNotAPaymentStatus(Reconcile(orders[k], n, now));
  }

  /**
   * A SUCCESS or FAILED notification for a found order (with an amount whenever it lists products) is
   * stored reconciled and acknowledged with `success: true`, and the order's room is notified.
   */
  lemma FoundNotificationStored(ids: seq<ObjectId>, orders: map<ObjectId, Order>, sockets: SocketServer,
                                payload: string, secretKey: Option<string>,
                                parse: seq<Bytes.byte> -> Result<Notification, string>, now: int, k: ObjectId)
    requires ValidState(ids, orders) && Truthy(secretKey)
    requires PayloadCipher.DecryptPayload(payload, secretKey, parse).Ok?
    requires var n := PayloadCipher.DecryptPayload(payload, secretKey, parse).value;
      Resolve(ids, orders, n) == Ok(Some(k)) && n.status != Some("EXPIRED") && !(HasProducts(n) && n.amount.None?)
    ensures var n := PayloadCipher.DecryptPayload(payload, secretKey, parse).value;
      var out := EncryptedOutcome(ids, orders, sockets, payload, secretKey, parse, now);
      out.resp == Response(200, Success) && out.orders == orders[k := Reconcile(orders[k], n, now)]
      && out.deliveries == sockets.EmitOrderUpdate(orders[k].orderId)
  {
    var n := PayloadCipher.DecryptPayload(payload, secretKey, parse).value;
    assert EncryptedOutcome(ids, orders, sockets, payload, secretKey, parse, now) == EncryptedFound(orders, sockets, k, n, now);
    ReconcileSaveable(orders[k], n, now);
    ReconcileFrame(orders[k], n, now);
  }

  /** The encrypted path never writes `transactionId`, so a later lookup by it finds what it found before. */
  lemma EncryptedKeepsTransactionIds(ids: seq<ObjectId>, orders: map<ObjectId, Order>, sockets: SocketServer,
                                     payload: string, secretKey: Option<string>,
                                     parse: seq<Bytes.byte> -> Result<Notification, string>, now: int)
    requires ValidState(ids, orders)
    ensures var out := EncryptedOutcome(ids, orders, sockets, payload, secretKey, parse, now);
      forall k :: k in orders ==> k in out.orders && out.orders[k].transactionId == orders[k].transactionId
  {
    var out := EncryptedOutcome(ids, orders, sockets, payload, secretKey, parse, now);
    if Truthy(secretKey) && PayloadCipher.DecryptPayload(payload, secretKey, parse).Ok? {
      var n := PayloadCipher.DecryptPayload(payload, secretKey, parse).value;
      var found := Resolve(ids, orders, n);
      if found.Ok? && found.value.Some? {
        var k := found.value.value;
        assert out == EncryptedFound(orders, sockets, k, n, now);
        FoundKeepsTransactionIds(orders, sockets, k, n, now);
      } else {
        assert out.orders == orders;
      }
    } else {
      assert out.orders == orders;
    }
  }

  lemma FoundKeepsTransactionIds(orders: map<ObjectId, Order>, sockets: SocketServer, k: ObjectId, n: Notification, now: int)
    requires k in orders
    ensures var out := EncryptedFound(orders, sockets, k, n, now);
      forall j :: j in orders ==> j in out.orders && out.orders[j].transactionId == orders[j].transactionId
  {
    ReconcileFrame(orders[k], n, now);
  }

  /** The legacy path marks an order paid only when the gateway's own verification also reports completion. */
  lemma LegacyPaidOnlyWhenVerified(ids: seq<ObjectId>, orders: map<ObjectId, Order>, sockets: SocketServer,
                                   paymentId: Option<string>, status: Option<string>,
                                   verification: Result<Option<string>, string>, k: ObjectId)
    requires ValidState(ids, orders) && k in orders && orders[k].paymentStatus != "paid"
    ensures var out := LegacyOutcome(ids, orders, sockets, paymentId, status, verification);
      k in out.orders && out.orders[k].paymentStatus == "paid" ==>
        CompletedWord(status) && verification.Ok? && CompletedWord(verification.value)
  {
  }

  // ---- the route ----

  method Legacy(store: Store, sockets: SocketServer, paymentId: Option<string>, status: Option<string>,
                verification: Result<Option<string>, string>)
    returns (resp: Response, deliveries: seq<Delivery>)
    requires store.Valid()
    modifies store
    ensures store.Valid() && store.ids == old(store.ids)
    ensures Outcome(resp, store.orders, deliveries)
         == LegacyOutcome(old(store.ids), old(store.orders), sockets, paymentId, status, verification)
  {
    deliveries := [];
    var found := store.FindOne(ByPaymentId(paymentId));
    var key := found.value;
    if key.None? {
      found := store.FindOne(ByTransactionId(paymentId));
      key := found.value;
    }
    if key.None? {
      resp := Response(404, Error("Order not found"));
      return;
    }
    resp, deliveries := LegacyStatus(store, sockets, key.value, status, verification);
  }

  /** The status chain of the legacy path on the found order `k`. */
  method LegacyStatus(store: Store, sockets: SocketServer, k: ObjectId, status: Option<string>,
                      verification: Result<Option<string>, string>)
    returns (resp: Response, deliveries: seq<Delivery>)
    requires store.Valid() && k in store.orders
    modifies store
    ensures store.Valid() && store.ids == old(store.ids)
    ensures Outcome(resp, store.orders, deliveries) == LegacyApply(old(store.orders), sockets, k, status, verification)
  {
    deliveries := [];
    var order := store.orders[k];
    ghost var w := LegacyUpdate(order, status, verification);
    if CompletedWord(status) {
      if verification.Err? {
        resp := LegacyFailure;
        return;
      }
      if CompletedWord(verification.value) {
        order := order.(status := Some("completed"));
        order := order.(paymentStatus := "paid");
        assert order == w.order;
        SameOrderIdIsFree(store.ids, store.orders, order);
        var _ := store.Save(order);
        deliveries := sockets.Broadcast("payment:completed");
      }
    } else if FailedWord(status) {
      order := order.(status := Some("failed"));
      order := order.(paymentStatus := "failed");
      assert order == w.order;
      SameOrderIdIsFree(store.ids, store.orders, order);
      var _ := store.Save(order);
      deliveries := sockets.Broadcast("payment:failed");
    } else if ExpiredWord(status) {
      order := order.(status := Some("expired"));
      order := order.(paymentStatus := "expired");
      assert order == w.order;
      // The schema's enum has no "expired": this save always throws, and the route answers 500.
      var _ := store.Save(order);
      resp := LegacyFailure;
      return;
    }
    resp := Response(200, Success);
  }

  method Encrypted(store: Store, sockets: SocketServer, payload: string, secretKey: Option<string>,
                   parse: seq<Bytes.byte> -> Result<Notification, string>, now: int)
    returns (resp: Response, deliveries: seq<Delivery>)
    requires store.Valid()
    modifies store
    ensures store.Valid() && store.ids == old(store.ids)
    ensures Outcome(resp, store.orders, deliveries)
         == EncryptedOutcome(old(store.ids), old(store.orders), sockets, payload, secretKey, parse, now)
  {
    deliveries := [];
    if !Truthy(secretKey) {
      resp := Response(500, Error("Missing secret key"));
      return;
    }
    var decrypted := PayloadCipher.DecryptPayload(payload, secretKey, parse);
    if decrypted.Err? {
      resp := Response(500, ErrorDetail(DecryptFailure, decrypted.error));
      return;
    }
    var n := decrypted.value;
    var found := store.FindOne(ByTransactionId(n.transactionId));
    var key := found.value;
    if key.None? && OrderRef(n).Some? {
      found := store.FindOne(ByIdOrOrderId(OrderRef(n).value));
      if found.Err? {
        resp := Response(500, ErrorDetail(DecryptFailure, found.error));
        return;
      }
      key := found.value;
    }
    if key.None? {
      resp := Response(200, Acknowledged(UnmatchedMessage, n.transactionId));
      return;
    }
    resp, deliveries := EncryptedUpdate(store, sockets, key.value, n, now);
  }

  /** Reconciles the found order field by field, as the route does, and saves it. */
  method EncryptedUpdate(store: Store, sockets: SocketServer, k: ObjectId, n: Notification, now: int)
    returns (resp: Response, deliveries: seq<Delivery>)
    requires store.Valid() && k in store.orders
    modifies store
    ensures store.Valid() && store.ids == old(store.ids)
    ensures Outcome(resp, store.orders, deliveries) == EncryptedFound(old(store.orders), sockets, k, n, now)
  {
    deliveries := [];
    var order := store.orders[k];
    if n.status == Some("SUCCESS") {
      order := order.(paymentStatus := "paid");
      order := order.(status := Some("completed"));
      order := order.(fulfillmentStatus := "pending");
    } else if n.status == Some("FAILED") {
      order := order.(paymentStatus := "failed");
      order := order.(status := Some("failed"));
    } else if n.status == Some("EXPIRED") {
      order := order.(paymentStatus := "expired");
      order := order.(status := Some("expired"));
    }
    if HasProducts(n) {
      var products := n.products.value;
      order := order.(items := Some(ItemsOf(products)));
      order := order.(amount := n.amount);
      order := order.(totalQuantity := Some(ReduceQuantities(products, 0)));
    }
    order := order.(updatedAt := now);
    SameOrderIdIsFree(store.ids, store.orders, order);
    var err := store.Save(order);
    if err.Some? {
      resp := Response(500, ErrorDetail(DecryptFailure, err.value));
      return;
    }
    deliveries := sockets.EmitOrderUpdate(order.orderId);
    resp := Response(200, Success);
  }

  method Post(store: Store, sockets: SocketServer, body: Option<WebhookBody>, secretKey: Option<string>,
              verification: Result<Option<string>, string>,
              parse: seq<Bytes.byte> -> Result<Notification, string>, now: int)
    returns (resp: Response, deliveries: seq<Delivery>)
    requires store.Valid()
    modifies store
    ensures store.Valid() && store.ids == old(store.ids)
    ensures Outcome(resp, store.orders, deliveries)
         == WebhookOutcome(old(store.ids), old(store.orders), sockets, body, secretKey, verification, parse, now)
  {
    if body.None? {
      resp := Response(400, Error("Invalid JSON in request body"));
      deliveries := [];
      return;
    }
    var b := body.value;
    if !Truthy(b.payload) {
      resp, deliveries := Legacy(store, sockets, b.id, b.status, verification);
    } else {
      resp, deliveries := Encrypted(store, sockets, b.payload.value, secretKey, parse, now);
    }
  }
}
