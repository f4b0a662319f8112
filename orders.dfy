/**
 * `GET /api/orders` (filtered, newest first, paginated) and `POST /api/orders` (create, generating an
 * `orderId` when the body has none). The query-string values arrive already parsed: an absent or empty
 * `limit` or `page` is None.
 */
module OrdersRoute {
  import opened Wrappers
  import opened Text
  import opened OrderSchema
  import opened OrderStore
  import opened Sorting
  import opened Http
  import DashboardStats

  /** The Mongo filter: a key is present exactly when its value is Some. */
  datatype Filter = Filter(paymentStatus: Option<string>, gameId: Option<string>)

  const DefaultLimit := 50
  const DefaultPage := 1

  /** `query.paymentStatus = status` if `status` is truthy, `query.gameId = gameId` likewise. */
  function QueryOf(status: Option<string>, gameId: Option<string>): (q: Filter)
    ensures q.paymentStatus.Some? <==> Truthy(status)
    ensures q.gameId.Some? <==> Truthy(gameId)
    ensures q.paymentStatus.Some? ==> q.paymentStatus == status
    ensures q.gameId.Some? ==> q.gameId == gameId
  {
    Filter(if Truthy(status) then status else None, if Truthy(gameId) then gameId else None)
  }

  predicate Selects(q: Filter, o: Order) {
    (q.paymentStatus.None? || o.paymentStatus == q.paymentStatus.value)
    && (q.gameId.None? || o.gameId == q.gameId)
  }

  /** The matching documents in the collection's natural order. */
  function Select(docs: seq<Order>, q: Filter): (r: seq<Order>)
    ensures |r| <= |docs|
    ensures forall o :: o in r <==> o in docs && Selects(q, o)
  {
    if docs == [] then []
    else
      assert docs == [docs[0]] + docs[1..];
      (if Selects(q, docs[0]) then [docs[0]] else []) + Select(docs[1..], q)
  }

  /** The collection in its natural order. */
  function Documents(ids: seq<ObjectId>, orders: map<ObjectId, Order>): (docs: seq<Order>)
    requires ValidState(ids, orders)
    ensures |docs| == |ids| && forall i :: 0 <= i < |ids| ==> docs[i] == orders[ids[i]]
  {
    seq(|ids|, i requires 0 <= i < |ids| => orders[ids[i]])
  }

  /** `Math.ceil(total / limit)`; None where JavaScript gives Infinity or NaN (a zero limit), which JSON writes as null. */
  function Pages(total: nat, limit: int): Option<int> {
    if limit == 0 then None
    else if limit > 0 then Some((total + limit - 1) / limit)
    else Some(-(total / -limit))
  }

  /** `skip(skip).limit(limit)`: a zero limit means no limit; a negative one is read as its magnitude. */
  function Window(sorted: seq<Order>, skip: nat, limit: int): (page: seq<Order>)
    ensures skip >= |sorted| ==> page == []
    ensures skip < |sorted| ==> page == Take(sorted[skip..], if limit < 0 then -limit else if limit == 0 then |sorted| else limit)
  {
    if skip >= |sorted| then [] else Take(sorted[skip..], if limit < 0 then -limit else if limit == 0 then |sorted| else limit)
  }

  /** The server's refusal of a negative skip. */
  function SkipMessage(skip: int): string
    requires skip < 0
  {
    "BSON field 'skip' value must be >= 0, actual value '-" + NatToString(-skip) + "'"
  }

  /** `(page - 1) * limit`: the number of documents before the requested page. */
  function Skip(page: int, limit: int): int {
    (page - 1) * limit
  }

  function ListOrders(docs: seq<Order>, status: Option<string>, gameId: Option<string>,
                      limitParam: Option<int>, pageParam: Option<int>): Response
  {
    var limit := limitParam.GetOr(DefaultLimit);
    var page := pageParam.GetOr(DefaultPage);
    var skip := Skip(page, limit);
    if skip < 0 then Response(500, Error(SkipMessage(skip)))
    else ListPage(docs, QueryOf(status, gameId), page, limit, skip)
  }

  /** The 200 answer: the matching documents newest first, the requested window of them, and the counts. */
  function ListPage(docs: seq<Order>, query: Filter, page: int, limit: int, skip: nat): Response {
    var matched := Select(docs, query);
    var sorted := SortDesc(matched, DashboardStats.CreatedAt);
    Response(200, OrderList(Window(sorted, skip, limit), |matched|, page, limit, Pages(|matched|, limit)))
  }

  /** `ORD${Date.now()}${Math.floor(Math.random() * 1000)}`. */
  function GeneratedOrderId(now: nat, rnd: nat): string {
    "ORD" + NatToString(now) + NatToString(rnd)
  }

  /** The document as saved: the body, with a generated `orderId` when the body's is falsy. */
  function WithOrderId(body: Order, now: nat, rnd: nat): (o: Order)
    ensures Truthy(o.orderId)
    ensures Truthy(body.orderId) ==> o == body
    ensures !Truthy(body.orderId) ==> o == body.(orderId := Some(GeneratedOrderId(now, rnd)))
  {
    if Truthy(body.orderId) then body else body.(orderId := Some(GeneratedOrderId(now, rnd)))
  }

  datatype Outcome = Outcome(resp: Response, orders: map<ObjectId, Order>)

  /** `body` is `new Order(body)` (a fresh `_id`, the schema defaults) or the parse error. */
  function CreateOutcome(orders: map<ObjectId, Order>, body: Result<Order, string>, now: nat, rnd: nat): Outcome {
    if body.Err? then Outcome(Response(400, Error(body.error)), orders)
    else
      var o := WithOrderId(body.value, now, rnd);
      var err := SaveError(orders, o);
      if err.Some? then Outcome(Response(400, Error(err.value)), orders)
      else Outcome(Response(201, Created(o)), orders[o.id := o])
  }

  // ---- properties ----

  /** A positive limit gives just enough pages to hold the total: one fewer would not. */
  lemma PagesCoverTotal(total: nat, limit: int)
    requires limit > 0
    ensures Pages(total, limit).Some?
    ensures var p := Pages(total, limit).value; p >= 0 && p * limit >= total && (p - 1) * limit < total
  {
    var p := (total + limit - 1) / limit;
    assert p * limit <= total + limit - 1 < (p + 1) * limit;
  }

  /** A window of a sorted sequence is sorted, drawn from it, and no longer than a positive limit. */
  lemma WindowOfSorted(sorted: seq<Order>, skip: nat, limit: int)
    requires SortedDesc(sorted, DashboardStats.CreatedAt)
    ensures SortedDesc(Window(sorted, skip, limit), DashboardStats.CreatedAt)
    ensures forall o :: o in Window(sorted, skip, limit) ==> o in sorted
    ensures limit > 0 ==> |Window(sorted, skip, limit)| <= limit
  {
    var w := Window(sorted, skip, limit);
    if skip < |sorted| {
      assert w == sorted[skip..][..|w|];
      forall i, j | 0 <= i < j < |w| ensures DashboardStats.CreatedAt(w[i]) >= DashboardStats.CreatedAt(w[j]) {
        assert w[i] == sorted[skip + i] && w[j] == sorted[skip + j];
      }
      forall o | o in w ensures o in sorted {
        var i :| 0 <= i < |w| && w[i] == o;
        assert sorted[skip + i] == o;
      }
    }
  }

  /**
   * A listing holds only matching orders, newest first, at most `limit` of them, starting `skip` into the
   * sorted matches; the total counts every match, not just the page. A negative skip is refused.
   */
  lemma ListingIsAPageOfMatches(docs: seq<Order>, status: Option<string>, gameId: Option<string>,
                                limitParam: Option<int>, pageParam: Option<int>)
    ensures ListOrders(docs, status, gameId, limitParam, pageParam).status == 200
            <==> (pageParam.GetOr(DefaultPage) - 1) * limitParam.GetOr(DefaultLimit) >= 0
    ensures var resp := ListOrders(docs, status, gameId, limitParam, pageParam);
      resp.status == 200 ==>
        resp.body.OrderList? && resp.body.page == pageParam.GetOr(DefaultPage)
        && resp.body.limit == limitParam.GetOr(DefaultLimit)
        && resp.body.total == |Select(docs, QueryOf(status, gameId))|
        && SortedDesc(resp.body.orders, DashboardStats.CreatedAt)
        && (resp.body.limit > 0 ==> |resp.body.orders| <= resp.body.limit)
    ensures var resp := ListOrders(docs, status, gameId, limitParam, pageParam);
      resp.status == 200 ==> forall o :: o in resp.body.orders ==> o in docs && Selects(QueryOf(status, gameId), o)
  {
    var limit := limitParam.GetOr(DefaultLimit);
    var skip := (pageParam.GetOr(DefaultPage) - 1) * limit;
    if skip >= 0 {
      var matched := Select(docs, QueryOf(status, gameId));
      var sorted := SortDesc(matched, DashboardStats.CreatedAt);
      WindowOfSorted(sorted, skip, limit);
      forall o | o in sorted ensures o in matched {
        assert o in multiset(sorted);
      }
    }
  }

  /** A truthy `orderId` is kept as sent; otherwise the generated one starts with "ORD" and is never an ObjectId. */
  lemma CreateKeepsOrGenerates(orders: map<ObjectId, Order>, body: Order, now: nat, rnd: nat)
    ensures var out := CreateOutcome(orders, Ok(body), now, rnd);
      (out.resp.status == 201 <==> SaveError(orders, WithOrderId(body, now, rnd)).None?)
      && (out.resp.status == 201 ==>
            out.orders == orders[body.id := out.resp.body.order]
            && (Truthy(body.orderId) ==> out.resp.body.order.orderId == body.orderId))
      && (out.resp.status != 201 ==> out.resp.status == 400 && out.orders == orders)
    ensures !Truthy(body.orderId) ==>
      StartsWith(WithOrderId(body, now, rnd).orderId.value, "ORD") && !IsObjectId(WithOrderId(body, now, rnd).orderId.value)
  {
    if !Truthy(body.orderId) {
      assert GeneratedOrderId(now, rnd)[0] == 'O';
    }
  }

  // ---- the handlers ----

  method Get(store: Store, status: Option<string>, gameId: Option<string>, limitParam: Option<int>, pageParam: Option<int>)
    returns (resp: Response)
    requires store.Valid()
    ensures resp == ListOrders(Documents(store.ids, store.orders), status, gameId, limitParam, pageParam)
  {
    var limit := if limitParam.Some? then limitParam.value else DefaultLimit;
    var page := if pageParam.Some? then pageParam.value else DefaultPage;
    var skip := Skip(page, limit);
    var query := Filter(None, None);
    if Truthy(status) {
      query := query.(paymentStatus := status);
    }
    if Truthy(gameId) {
      query := query.(gameId := gameId);
    }
    assert query == QueryOf(status, gameId);
    assert limit == limitParam.GetOr(DefaultLimit) && page == pageParam.GetOr(DefaultPage);
    if skip < 0 {
      return Response(500, Error(SkipMessage(skip)));
    }
    var matched := Select(Documents(store.ids, store.orders), query);
    var sorted := SortDesc(matched, DashboardStats.CreatedAt);
    resp := Response(200, OrderList(Window(sorted, skip, limit), |matched|, page, limit, Pages(|matched|, limit)));
    assert resp == ListPage(Documents(store.ids, store.orders), query, page, limit, skip);
  }

  method Post(store: Store, body: Result<Order, string>, now: nat, rnd: nat) returns (resp: Response)
    requires store.Valid() && (body.Ok? ==> IsObjectId(body.value.id) && body.value.id !in store.orders)
    modifies store
    ensures store.Valid()
    ensures Outcome(resp, store.orders) == CreateOutcome(old(store.orders), body, now, rnd)
  {
    if body.Err? {
      return Response(400, Error(body.error));
    }
    var order := body.value;
    if !Truthy(order.orderId) {
      order := order.(orderId := Some(GeneratedOrderId(now, rnd)));
    }
    var err := store.Save(order);
    if err.Some? {
      return Response(400, Error(err.value));
    }
    resp := Response(201, Created(order));
  }
}
