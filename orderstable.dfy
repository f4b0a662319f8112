/**
 * The dashboard's orders table: the list it shows, fetched on mount only when it was given none,
 * two fulfilment actions on pending orders, and the same merge of socket updates as the orders page.
 */
module OrdersTableView {
  import opened Wrappers
  import opened OrderSchema
  import AdminOrdersPage

  /** The table's action table: only delivering and failing are known here. */
  function TableTarget(action: string): (r: Result<string, string>)
    ensures r.Err? ==> r.error == AdminOrdersPage.InvalidAction
  {
    match action
    case "mark-delivered" => Ok("delivered")
    case "mark-failed" => Ok("failed")
    case _ => Err(AdminOrdersPage.InvalidAction)
  }

  /** The buttons the table shows for an order: both actions while it is pending, none otherwise. */
  function TableActions(fulfillmentStatus: string): seq<string> {
    if fulfillmentStatus == "pending" then ["mark-delivered", "mark-failed"] else []
  }

  /** The PUT body the table sends: `fulfillmentStatus` alone, no timestamp. */
  datatype TablePut = TablePut(orderId: string, fulfillmentStatus: string)

  // ---- properties ----

  /**
   * The table accepts exactly two actions, and where it accepts one it agrees with the orders page;
   * retrying a failed delivery is refused here.
   */
  lemma TableTargetAgrees(action: string)
    ensures TableTarget(action).Ok? <==> action in ["mark-delivered", "mark-failed"]
    ensures TableTarget(action).Ok? ==> TableTarget(action) == AdminOrdersPage.PageTarget(action)
    ensures action == "retry-delivery" ==> TableTarget(action).Err? && AdminOrdersPage.PageTarget(action).Ok?
  {
    if action in ["mark-delivered", "mark-failed"] {
      assert action == "mark-delivered" || action == "mark-failed";
    }
  }

  /** Every button the table shows is accepted, moves a pending order on, and is offered by the page too. */
  lemma TableButtonsAccepted(status: string, action: string)
    requires action in TableActions(status)
    ensures status == "pending"
    ensures TableTarget(action).Ok? && TableTarget(action).value in {"delivered", "failed"}
    ensures action in AdminOrdersPage.PageActions(status)
  {
    assert action == "mark-delivered" || action == "mark-failed";
  }

  class OrdersTable {
    const initialOrders: seq<Order>
    var orders: seq<Order>

    constructor(initialOrders: seq<Order>)
      ensures this.initialOrders == initialOrders && orders == initialOrders
    {
      this.initialOrders := initialOrders;
      orders := initialOrders;
    }

    /**
     * The mount effect: the list is requested only when no initial orders were given; a successful
     * answer replaces the list, a failed one leaves it.
     */
    method Mount(answer: Option<seq<Order>>) returns (requested: bool)
      modifies this
      ensures requested <==> |initialOrders| == 0
      ensures requested && answer.Some? ==> orders == answer.value
      ensures !(requested && answer.Some?) ==> orders == old(orders)
    {
      requested := |initialOrders| == 0;
      if requested && answer.Some? {
        orders := answer.value;
      }
    }

    /** The `order-update` socket event. */
    method OnOrderUpdate(updated: Order)
      modifies this
      ensures orders == AdminOrdersPage.MergeUpdated(old(orders), updated)
    {
      orders := AdminOrdersPage.MergeUpdated(orders, updated);
    }

    /**
     * `handleAction`: the PUT it sends, or the alert; `accepted` is whether the server answered ok.
     * The list is not touched: the change arrives later as a socket event.
     */
    method HandleAction(orderId: string, action: string, accepted: bool)
      returns (sent: Option<TablePut>, alert: Option<string>)
      ensures sent.Some? <==> TableTarget(action).Ok?
      ensures sent.Some? ==> sent.value == TablePut(orderId, TableTarget(action).value)
      ensures TableTarget(action).Err? ==> alert == Some("Error: " + AdminOrdersPage.InvalidAction)
      ensures TableTarget(action).Ok? ==>
        alert == (if accepted then None else Some("Error: " + AdminOrdersPage.UpdateFailed))
    {
      var status: string;
      match action {
        case "mark-delivered" => status := "delivered";
        case "mark-failed" => status := "failed";
        case _ => return None, Some("Error: " + AdminOrdersPage.InvalidAction);
      }
      sent := Some(TablePut(orderId, status));
      alert := if accepted then None else Some("Error: " + AdminOrdersPage.UpdateFailed);
    }
  }
}
