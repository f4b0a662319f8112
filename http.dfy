/** The JSON responses the API routes return, one constructor per response shape. */
module Http {
  import opened Wrappers
  import opened Gateway
  import opened OrderSchema

  /** The sanitised order the confirm route hands back to the browser. */
  datatype ConfirmView = ConfirmView(
    orderId: string,
    status: Option<string>,
    paymentStatus: string,
    amount: Option<int>,
    currency: Option<string>,
    items: Option<seq<Item>>,
    userId: Option<string>,
    serverId: Option<string>,
    gameName: Option<string>,
    packageName: Option<string>,
    createdAt: int,
    updatedAt: int)

  /** The `data` object of the gateway's checkout response. */
  datatype GatewayCheckout = GatewayCheckout(
    redirectUrl: Option<string>,
    transactionId: Option<string>,
    amount: Option<int>,
    currency: Option<string>,
    createdAt: Option<string>)

  datatype Body =
    | Error(error: string)                                        // { error }
    | ErrorDetail(error: string, message: string)                 // { error, message }
    | Success                                                     // { success: true }
    | Acknowledged(message: string, transactionId: Option<string>) // { success: false, message, transactionId }
    | ConfirmMiss(message: string, decrypted: Notification)       // { success: false, message, ...decrypted }
    | Confirmed(view: ConfirmView)                                // { success: true, ...view }
    | OrderAck(message: string, orderId: ObjectId)                // { success: true, message, orderId }
    | Failed(error: string, details: string)                      // { error, details, stack }
    | CheckoutCreated(checkoutUrl: Option<string>, sessionId: Option<string>, orderId: string)
                                                                  // { success: true, checkoutUrl, sessionId, orderId }
    | GatewayCreated(data: GatewayCheckout)                       // { success: true, message, ...data }
    | GatewayFailed(error: string, apiUrl: string)                // { success: false, error, response, apiUrl, ... }
    | Crashed(error: string)                                      // { success: false, error, secretKeyExists, ... }
    | OrderList(orders: seq<Order>, total: nat, page: int, limit: int, pages: Option<int>)
                                                                  // { orders, pagination }; pages null when infinite
    | Created(order: Order)                                       // the saved document
    | Xml(text: string)                                           // an application/xml body

  datatype Response = Response(status: int, body: Body)
}
