/**
 * `GET /api/confirm?payload=…`: the browser comes back from the gateway with the encrypted notification
 * in the query string. The route reconciles the order exactly as the webhook does, asks the gateway to
 * confirm the transaction, and returns a sanitised view of the order.
 */
module ConfirmRoute {
  import opened Wrappers
  import opened Text
  import opened Gateway
  import opened OrderSchema
  import opened OrderStore
  import opened Reconciliation
  import opened Http
  import PayloadCipher
  import WebhookRoute
  import Realtime

  const DefaultApiUrl := "https://pay.api.dreamslab.dev"

  /** The response, the collection afterwards, and the confirmation requests sent to the gateway (their URLs). */
  datatype Outcome = Outcome(resp: Response, orders: map<ObjectId, Order>, outbound: seq<string>)

  /** `${apiUrl || default}/checkout/${transactionId}/confirm`. */
  function ConfirmUrl(apiUrl: Option<string>, transactionId: Option<string>): (url: string)
    ensures Truthy(apiUrl) ==> StartsWith(url, apiUrl.value)
    ensures !Truthy(apiUrl) ==> StartsWith(url, DefaultApiUrl)
  {
    var base := OrElse(apiUrl, DefaultApiUrl);
    assert (base + "/checkout/" + JsText(transactionId) + "/confirm")[..|base|] == base;
    base + "/checkout/" + JsText(transactionId) + "/confirm"
  }

  /** The view returned to the browser: `orderId || _id`, and the order's currency or else the notification's. */
  function Project(o: Order, n: Notification): ConfirmView {
    ConfirmView(
      if RequiredText(o.orderId) then o.orderId.value else o.id,
      o.status, o.paymentStatus, o.amount,
      if Truthy(o.currency) then o.currency else n.currency,
      o.items, o.userId, o.serverId, o.gameName, o.packageName, o.createdAt, o.updatedAt)
  }

  function ConfirmOutcome(ids: seq<ObjectId>, orders: map<ObjectId, Order>, payload: Option<string>,
                          secretKey: Option<string>, apiUrl: Option<string>,
                          parse: seq<Bytes.byte> -> Result<Notification, string>, now: int): Outcome
    requires ValidState(ids, orders)
  {
    if !Truthy(payload) then Outcome(Response(400, Error("No payload provided")), orders, [])
    else if !Truthy(secretKey) then Outcome(Response(500, Error("DL_PAY_SECRET_KEY is not defined")), orders, [])
    else
      match PayloadCipher.DecryptPayload(payload.value, secretKey, parse)
      case Err(m) => Outcome(Response(500, Error(m)), orders, [])
      case Ok(n) => ConfirmNotification(ids, orders, n, apiUrl, now)
  }

  /** The route once the notification is decrypted: the lookup, then the found order's update. */
  function ConfirmNotification(ids: seq<ObjectId>, orders: map<ObjectId, Order>, n: Notification,
                               apiUrl: Option<string>, now: int): Outcome
    requires ValidState(ids, orders)
  {
    match Resolve(ids, orders, n)
    case Err(m) => Outcome(Response(500, Error(m)), orders, [])
    case Ok(None) => Outcome(Response(200, ConfirmMiss("Order not found", n)), orders, [])
    case Ok(Some(k)) => ConfirmFound(orders, k, n, apiUrl, now)
  }

  /** The found order `k`: reconciled and saved, then confirmed with the gateway and projected. */
  function ConfirmFound(orders: map<ObjectId, Order>, k: ObjectId, n: Notification, apiUrl: Option<string>, now: int)
    : Outcome
    requires k in orders
  {
    var r := Reconcile(orders[k], n, now);
    if SchemaValid(r) then
      Outcome(Response(200, Confirmed(Project(r, n))), orders[k := r], [ConfirmUrl(apiUrl, n.transactionId)])
    else Outcome(Response(500, Error(ValidationMessage(r))), orders, [])
  }

  // ---- properties of the specification ----

  /** Confirm and the encrypted webhook leave the collection in the same state for the same notification. */
  lemma ConfirmAgreesWithWebhook(ids: seq<ObjectId>, orders: map<ObjectId, Order>, sockets: Realtime.SocketServer,
                                 payload: string, secretKey: Option<string>, apiUrl: Option<string>,
                                 parse: seq<Bytes.byte> -> Result<Notification, string>, now: int)
    requires ValidState(ids, orders) && payload != ""
    ensures ConfirmOutcome(ids, orders, Some(payload), secretKey, apiUrl, parse, now).orders
         == WebhookRoute.EncryptedOutcome(ids, orders, sockets, payload, secretKey, parse, now).orders
  {
    if Truthy(secretKey) && PayloadCipher.DecryptPayload(payload, secretKey, parse).Ok? {
      var n := PayloadCipher.DecryptPayload(payload, secretKey, parse).value;
      assert ConfirmOutcome(ids, orders, Some(payload), secretKey, apiUrl, parse, now)
          == ConfirmNotification(ids, orders, n, apiUrl, now);
      assert WebhookRoute.EncryptedOutcome(ids, orders, sockets, payload, secretKey, parse, now)
          == WebhookRoute.EncryptedNotification(ids, orders, sockets, n, now);
      NotificationAgrees(ids, orders, sockets, n, apiUrl, now);
    }
  }

  lemma NotificationAgrees(ids: seq<ObjectId>, orders: map<ObjectId, Order>, sockets: Realtime.SocketServer,
                           n: Notification, apiUrl: Option<string>, now: int)
    requires ValidState(ids, orders)
    ensures ConfirmNotification(ids, orders, n, apiUrl, now).orders
         == WebhookRoute.EncryptedNotification(ids, orders, sockets, n, now).orders
  {
    var found := Resolve(ids, orders, n);
    if found.Ok? && found.value.Some? {
      var k := found.value.value;
      assert ConfirmNotification(ids, orders, n, apiUrl, now) == ConfirmFound(orders, k, n, apiUrl, now);
      assert WebhookRoute.EncryptedNotification(ids, orders, sockets, n, now)
          == WebhookRoute.EncryptedFound(orders, sockets, k, n, now);
    }
  }

  /**
   * Once the found order is saved, one confirmation request goes to the gateway whatever the status
   * word (FAILED and unrecognised words included); on a miss or any failure, none does.
   */
  lemma ConfirmsEveryStoredStatus(ids: seq<ObjectId>, orders: map<ObjectId, Order>, payload: Option<string>,
                                  secretKey: Option<string>, apiUrl: Option<string>,
                                  parse: seq<Bytes.byte> -> Result<Notification, string>, now: int)
    requires ValidState(ids, orders)
    ensures var out := ConfirmOutcome(ids, orders, payload, secretKey, apiUrl, parse, now);
      (out.outbound != [] <==> out.resp.status == 200 && out.resp.body.Confirmed?)
      && (out.outbound != [] ==>
            var n := PayloadCipher.DecryptPayload(payload.value, secretKey, parse).value;
            out.outbound == [ConfirmUrl(apiUrl, n.transactionId)])
      && (out.resp.body.ConfirmMiss? ==> out.orders == orders && out.outbound == [])
      && (out.resp.status != 200 ==> out.orders == orders)
  {
    if Truthy(payload) && Truthy(secretKey) && PayloadCipher.DecryptPayload(payload.value, secretKey, parse).Ok? {
      var n := PayloadCipher.DecryptPayload(payload.value, secretKey, parse).value;
      assert ConfirmOutcome(ids, orders, payload, secretKey, apiUrl, parse, now)
          == ConfirmNotification(ids, orders, n, apiUrl, now);
      NotificationConfirms(ids, orders, n, apiUrl, now);
    }
  }

  lemma NotificationConfirms(ids: seq<ObjectId>, orders: map<ObjectId, Order>, n: Notification,
                             apiUrl: Option<string>, now: int)
    requires ValidState(ids, orders)
    ensures var out := ConfirmNotification(ids, orders, n, apiUrl, now);
      (out.outbound != [] <==> out.resp.status == 200 && out.resp.body.Confirmed?)
      && (out.outbound != [] ==> out.outbound == [ConfirmUrl(apiUrl, n.transactionId)])
      && (out.resp.body.ConfirmMiss? ==> out.orders == orders && out.outbound == [])
      && (out.resp.status != 200 ==> out.orders == orders)
  {
    var found := Resolve(ids, orders, n);
    if found.Ok? && found.value.Some? {
      var k := found.value.value;
      assert ConfirmNotification(ids, orders, n, apiUrl, now) == ConfirmFound(orders, k, n, apiUrl, now);
    }
  }

  /** For a found order, the response is the saved order's view whenever the save succeeds. */
  lemma ConfirmReturnsSavedOrder(ids: seq<ObjectId>, orders: map<ObjectId, Order>, payload: Option<string>,
                                 secretKey: Option<string>, apiUrl: Option<string>,
                                 parse: seq<Bytes.byte> -> Result<Notification, string>, now: int)
    requires ValidState(ids, orders)
    ensures var out := ConfirmOutcome(ids, orders, payload, secretKey, apiUrl, parse, now);
      out.resp.body.Confirmed? ==>
        exists k :: k in orders && k in out.orders && out.resp.body.view.orderId == orders[k].orderId.value
          && out.resp.body.view.updatedAt == now && out.resp.body.view.paymentStatus == out.orders[k].paymentStatus
  {
    var out := ConfirmOutcome(ids, orders, payload, secretKey, apiUrl, parse, now);
    if out.resp.body.Confirmed? {
      var n := PayloadCipher.DecryptPayload(payload.value, secretKey, parse).value;
      var k := Resolve(ids, orders, n).value.value;
      ReconcileFrame(orders[k], n, now);
      assert out.resp.body.view.orderId == orders[k].orderId.value;
    }
  }

  /** For a stored order the `_id` fallback never applies, and the currency falls back only when unset. */
  lemma ProjectionFallbacks(o: Order, n: Notification)
    requires SchemaValid(o)
    ensures Project(o, n).orderId == o.orderId.value
    ensures Project(o, n).currency == (if Truthy(o.currency) then o.currency else n.currency)
  {
  }

  // ---- the route ----

  method Get(store: Store, payload: Option<string>, secretKey: Option<string>, apiUrl: Option<string>,
             parse: seq<Bytes.byte> -> Result<Notification, string>, now: int)
    returns (resp: Response, outbound: seq<string>)
    requires store.Valid()
    modifies store
    ensures store.Valid() && store.ids == old(store.ids)
    ensures Outcome(resp, store.orders, outbound)
         == ConfirmOutcome(old(store.ids), old(store.orders), payload, secretKey, apiUrl, parse, now)
  {
    outbound := [];
    if !Truthy(payload) {
      resp := Response(400, Error("No payload provided"));
      return;
    }
    if !Truthy(secretKey) {
      resp := Response(500, Error("DL_PAY_SECRET_KEY is not defined"));
      return;
    }
    var decrypted := PayloadCipher.DecryptPayload(payload.value, secretKey, parse);
    if decrypted.Err? {
      resp := Response(500, Error(decrypted.error));
      return;
    }
    var n := decrypted.value;
    var found := store.FindOne(ByTransactionId(n.transactionId));
    var key := found.value;
    if key.None? && OrderRef(n).Some? {
      found := store.FindOne(ByIdOrOrderId(OrderRef(n).value));
      if found.Err? {
        resp := Response(500, Error(found.error));
        return;
      }
      key := found.value;
    }
    if key.None? {
      resp := Response(200, ConfirmMiss("Order not found", n));
      return;
    }
    resp, outbound := Update(store, key.value, n, apiUrl, now);
  }

  /** Lines the route runs on the found order `k`: the status chain, the item update, save, confirm, project. */
  method Update(store: Store, k: ObjectId, n: Notification, apiUrl: Option<string>, now: int)
    returns (resp: Response, outbound: seq<string>)
    requires store.Valid() && k in store.orders
    modifies store
    ensures store.Valid() && store.ids == old(store.ids)
    ensures Outcome(resp, store.orders, outbound) == ConfirmFound(old(store.orders), k, n, apiUrl, now)
  {
    outbound := [];
    var order := store.orders[k];
    if n.status == Some("SUCCESS") {
      order := order.(paymentStatus := "paid");
      order := order.(status := Some("completed"));
      order := order.(fulfillmentStatus := "pending");
    } else if n.status == Some("FAILED") {
      order := order.(paymentStatus := "failed");
      order := order.(status := Some("failed"));
    } else if n.status == Some("EXPIRED") {
      order := order.(paymentStatus := "expired");
      order := order.(status := Some("expired"));
    }
    if HasProducts(n) {
      var products := n.products.value;
      order := order.(items := Some(ItemsOf(products)));
      order := order.(amount := n.amount);
      order := order.(totalQuantity := Some(ReduceQuantities(products, 0)));
    }
    order := order.(updatedAt := now);
    SameOrderIdIsFree(store.ids, store.orders, order);
    var err := store.Save(order);
    if err.Some? {
      resp := Response(500, Error(err.value));
      return;
    }
    // The confirmation request's own failure is only logged, so its result does not matter here.
    outbound := [ConfirmUrl(apiUrl, n.transactionId)];
    resp := Response(200, Confirmed(Project(order, n)));
  }
}
