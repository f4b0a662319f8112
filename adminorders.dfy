/**
 * The admin orders page: filter and pagination state, the per-order fulfilment actions, and the
 * merge of an updated order (from a socket event or from the answer to an action) into the list.
 * Network answers arrive as parameters.
 */
module AdminOrdersPage {
  import opened Wrappers
  import opened Text
  import opened OrderSchema
  import opened Http
  import OrdersRoute

  /** The pagination object the list endpoint answers with; the page starts at page 1 of 10 rows. */
  datatype Pagination = Pagination(page: int, limit: int, total: int, pages: int)

  /** The two select boxes; "" selects everything. */
  datatype Filters = Filters(status: string, gameId: string)

  datatype FilterField = StatusField | GameField

  /** The body of the PUT that changes an order's fulfilment: only these two keys. */
  datatype Patch = Patch(fulfillmentStatus: string, updatedAt: Option<int>)

  /** The PUT request an action sends: the order it targets and its body. */
  datatype Put = Put(orderId: string, body: Patch)

  const InvalidAction := "Invalid action"
  const DetailsFailed := "Failed to fetch order details"
  const UpdateFailed := "Failed to update order"

  /** The page's action table: the fulfilment status each action asks for, or the thrown error. */
  function PageTarget(action: string): (r: Result<string, string>)
    ensures r.Err? ==> r.error == InvalidAction
  {
    match action
    case "mark-delivered" => Ok("delivered")
    case "mark-failed" => Ok("failed")
    case "retry-delivery" => Ok("pending")
    case _ => Err(InvalidAction)
  }

  /** The buttons the page shows for an order, by its fulfilment status. */
  function PageActions(fulfillmentStatus: string): seq<string> {
    if fulfillmentStatus == "pending" then ["mark-delivered", "mark-failed"]
    else if fulfillmentStatus == "failed" then ["retry-delivery"]
    else []
  }

  /**
   * `orders.map(o => o.orderId === updated.orderId ? updated : o)`: the updated order takes the
   * place of every entry with its `orderId`.
   */
  function MergeUpdated(orders: seq<Order>, updated: Order): (r: seq<Order>)
    ensures |r| == |orders|
    ensures forall i :: 0 <= i < |orders| ==> r[i].orderId == orders[i].orderId
    ensures forall i :: 0 <= i < |orders| && orders[i].orderId != updated.orderId ==> r[i] == orders[i]
    ensures forall i :: 0 <= i < |orders| && orders[i].orderId == updated.orderId ==> r[i] == updated
    ensures (forall o :: o in orders ==> o.orderId != updated.orderId) ==> r == orders
  {
    seq(|orders|, i requires 0 <= i < |orders| => if orders[i].orderId == updated.orderId then updated else orders[i])
  }

  /** The order as stored after a patch: its keys assigned, every other path kept. */
  function Patched(o: Order, p: Patch): (r: Order)
    ensures r.fulfillmentStatus == p.fulfillmentStatus
    ensures r.(fulfillmentStatus := o.fulfillmentStatus, updatedAt := o.updatedAt) == o
  {
    var o' := o.(fulfillmentStatus := p.fulfillmentStatus);
    if p.updatedAt.Some? then o'.(updatedAt := p.updatedAt.value) else o'
  }

  function SetFilter(f: Filters, field: FilterField, value: string): Filters {
    match field
    case StatusField => f.(status := value)
    case GameField => f.(gameId := value)
  }

  /** The "Showing first to last of total" figures under the table. */
  function Showing(rows: nat, p: Pagination): (int, int) {
    (if rows > 0 then (p.page - 1) * p.limit + 1 else 0, if p.page * p.limit < p.total then p.page * p.limit else p.total)
  }

  /** The list request the page sends: a filter is passed only when it is non-empty. */
  function Request(docs: seq<Order>, p: Pagination, f: Filters): Response {
    OrdersRoute.ListOrders(docs, if f.status != "" then Some(f.status) else None,
      if f.gameId != "" then Some(f.gameId) else None, Some(p.limit), Some(p.page))
  }

  /** What one click on an action does: the PUT sent, the alert shown, and the list afterwards. */
  datatype ActionResult = ActionResult(sent: Option<Put>, alert: Option<string>, orders: seq<Order>)

  /**
   * `handleAction`: the order's details are fetched first (`detailsOk`), then the action is looked
   * up, then the PUT is sent with `updatedAt` stamped; its answer (None when not ok) is merged in.
   */
  function PageAction(orders: seq<Order>, orderId: string, action: string, detailsOk: bool,
                      answer: Option<Order>, now: int): (r: ActionResult)
    ensures r.sent.Some? <==> detailsOk && PageTarget(action).Ok?
    ensures r.sent.Some? ==> r.sent.value == Put(orderId, Patch(PageTarget(action).value, Some(now)))
    ensures r.alert.None? <==> r.sent.Some? && answer.Some?
    ensures r.alert.Some? ==> r.orders == orders
    ensures r.alert.None? ==> answer.Some? && r.orders == MergeUpdated(orders, answer.value)
    ensures |r.orders| == |orders|
  {
    if !detailsOk then ActionResult(None, Some("Error: " + DetailsFailed), orders)
    else
      match PageTarget(action)
      case Err(m) => ActionResult(None, Some("Error: " + m), orders)
      case Ok(status) =>
        var put := Some(Put(orderId, Patch(status, Some(now))));
        match answer
        case None => ActionResult(put, Some("Error: " + UpdateFailed), orders)
        case Some(updated) => ActionResult(put, None, MergeUpdated(orders, updated))
  }

  // ---- properties ----

  /** Exactly the three named actions are accepted; each asks for its own status. */
  lemma PageTargetTable(action: string)
    ensures PageTarget(action).Ok? <==> action in ["mark-delivered", "mark-failed", "retry-delivery"]
    ensures action == "mark-delivered" ==> PageTarget(action) == Ok("delivered")
    ensures action == "mark-failed" ==> PageTarget(action) == Ok("failed")
    ensures action == "retry-delivery" ==> PageTarget(action) == Ok("pending")
  {
    if action in ["mark-delivered", "mark-failed", "retry-delivery"] {
      assert action == "mark-delivered" || action == "mark-failed" || action == "retry-delivery";
    }
  }

  /**
   * Every button shown is an accepted action that moves the order to another fulfilment status:
   * pending goes to delivered or failed, failed back to pending, and delivered has no way out.
   */
  lemma ShownActionsMove(status: string, action: string)
    requires action in PageActions(status)
    ensures PageTarget(action).Ok? && PageTarget(action).value != status
    ensures status == "pending" ==> PageTarget(action).value in {"delivered", "failed"}
    ensures status == "failed" ==> PageTarget(action).value == "pending"
    ensures status in FulfillmentStatuses && status != "delivered"
  {
    if status == "pending" {
      assert action == "mark-delivered" || action == "mark-failed";
    } else {
      assert status == "failed" && action == "retry-delivery";
    }
  }

  /** Applying the same update twice is applying it once. */
  lemma MergeIdempotent(orders: seq<Order>, updated: Order)
    ensures MergeUpdated(MergeUpdated(orders, updated), updated) == MergeUpdated(orders, updated)
  {
  }

  /**
   * "Showing" counts exactly the rows on screen: for a page the list endpoint served with a positive
   * limit, the rows run from the first to the last figure; an empty page past the end reads
   * "0 to total".
   */
  lemma ShowingCountsRows(sorted: seq<Order>, page: int, limit: int)
    requires page >= 1 && limit > 0
    ensures var rows := OrdersRoute.Window(sorted, (page - 1) * limit, limit);
      var (first, last) := Showing(|rows|, Pagination(page, limit, |sorted|, 0));
      (|rows| > 0 ==> first == (page - 1) * limit + 1 && last - first + 1 == |rows|) &&
      (|rows| == 0 ==> first == 0 && last == |sorted|)
  {
    var skip := (page - 1) * limit;
    assert page * limit == skip + limit;
    var rows := OrdersRoute.Window(sorted, skip, limit);
    if skip < |sorted| {
      assert |rows| == if limit < |sorted| - skip then limit else |sorted| - skip;
    }
  }

  /**
   * The status select offers fulfilment values, but the list endpoint matches them against
   * `paymentStatus`: choosing "delivered" shows no order at all.
   */
  lemma DeliveredFilterFindsNothing(docs: seq<Order>, p: Pagination, gameId: string)
    requires forall o :: o in docs ==> o.paymentStatus in PaymentStatuses
    ensures Request(docs, p, Filters("delivered", gameId)).body.OrderList? ==>
      Request(docs, p, Filters("delivered", gameId)).body.orders == [] &&
      Request(docs, p, Filters("delivered", gameId)).body.total == 0
  {
    var q := OrdersRoute.QueryOf(Some("delivered"), if gameId != "" then Some(gameId) else None);
    assert "delivered" !in PaymentStatuses;
    SelectNone(docs, q);
  }

  /** A filter that no document satisfies selects nothing; it follows from the contract of `Select`. */
  lemma SelectNone(docs: seq<Order>, q: OrdersRoute.Filter)
    requires forall o :: o in docs ==> !OrdersRoute.Selects(q, o)
    ensures OrdersRoute.Select(docs, q) == []
  {
  }

  // ---- the page's state ----

  class OrdersManagement {
    var orders: seq<Order>
    var pagination: Pagination
    var filters: Filters

    constructor()
      ensures orders == [] && pagination == Pagination(1, 10, 0, 0) && filters == Filters("", "")
    {
      orders := [];
      pagination := Pagination(1, 10, 0, 0);
      filters := Filters("", "");
    }

    /** Changing a select sets that filter only and returns to the first page. */
    method HandleFilterChange(field: FilterField, value: string)
      modifies this
      ensures filters == SetFilter(old(filters), field, value)
      ensures field == StatusField ==> filters.gameId == old(filters.gameId)
      ensures field == GameField ==> filters.status == old(filters.status)
      ensures pagination == old(pagination).(page := 1)
      ensures orders == old(orders)
    {
      filters := SetFilter(filters, field, value);
      pagination := pagination.(page := 1);
    }

    /** Moving to a page inside 1..pages; any other request is ignored. */
    method HandlePageChange(newPage: int)
      modifies this
      ensures 0 < newPage <= old(pagination.pages) ==> pagination == old(pagination).(page := newPage)
      ensures !(0 < newPage <= old(pagination.pages)) ==> pagination == old(pagination)
      ensures 1 <= old(pagination.page) <= old(pagination.pages) ==> 1 <= pagination.page <= pagination.pages
      ensures orders == old(orders) && filters == old(filters)
    {
      if newPage > 0 && newPage <= pagination.pages {
        pagination := pagination.(page := newPage);
      }
    }

    /** The `order-update` socket event. */
    method OnOrderUpdate(updated: Order)
      modifies this
      ensures orders == MergeUpdated(old(orders), updated)
      ensures pagination == old(pagination) && filters == old(filters)
    {
      orders := MergeUpdated(orders, updated);
    }

    /** `handleAction`, with the two network answers as parameters. */
    method HandleAction(orderId: string, action: string, detailsOk: bool, answer: Option<Order>, now: int)
      returns (sent: Option<Put>, alert: Option<string>)
      modifies this
      ensures ActionResult(sent, alert, orders) == PageAction(old(orders), orderId, action, detailsOk, answer, now)
      ensures pagination == old(pagination) && filters == old(filters)
    {
      sent := None;
      if !detailsOk {
        return None, Some("Error: " + DetailsFailed);
      }
      var status: string;
      match action {
        case "mark-delivered" => status := "delivered";
        case "mark-failed" => status := "failed";
        case "retry-delivery" => status := "pending";
        case _ => return None, Some("Error: " + InvalidAction);
      }
      sent := Some(Put(orderId, Patch(status, Some(now))));
      if answer.None? {
        return sent, Some("Error: " + UpdateFailed);
      }
      orders := MergeUpdated(orders, answer.value);
      alert := None;
    }
  }
}
