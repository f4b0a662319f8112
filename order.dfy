/**
 * The `Order` collection: its declared paths, which of them are required, the two status enums and the
 * defaults a new document receives. Document `_id`s are 24 lower-case hex digits (a MongoDB ObjectId).
 * The routes also write four paths the schema does not declare (`status`, `items`, `totalQuantity`,
 * `transactionDetails`); they are fields here so that what the code writes is visible.
 */
module OrderSchema {
  import opened Wrappers
  import opened Text
  import opened Gateway

  type ObjectId = string

  predicate IsLowerHex(c: char) {
    '0' <= c <= '9' || 'a' <= c <= 'f'
  }

  predicate IsObjectId(s: string) {
    |s| == 24 && forall i :: 0 <= i < |s| ==> IsLowerHex(s[i])
  }

  /** One line of the undeclared `items` path, as the routes build it from a gateway product. */
  datatype Item = Item(
    productId: Option<string>,
    name: Option<string>,
    price: Option<int>,
    quantity: int,
    image: Option<string>,
    itemId: Option<string>)

  datatype Order = Order(
    id: ObjectId,
    orderId: Option<string>,
    gameId: Option<string>,
    gameName: Option<string>,
    packageId: Option<string>,
    packageName: Option<string>,
    amount: Option<int>,
    price: Option<int>,
    currency: Option<string>,
    userId: Option<string>,
    serverId: Option<string>,
    paymentMethod: Option<string>,
    paymentStatus: string,
    fulfillmentStatus: string,
    transactionId: Option<string>,
    createdAt: int,
    updatedAt: int,
    notes: Option<string>,
    status: Option<string>,
    items: Option<seq<Item>>,
    totalQuantity: Option<int>,
    transactionDetails: Option<Notification>)

  const PaymentStatuses: seq<string> := ["pending", "paid", "failed"]
  const FulfillmentStatuses: seq<string> := ["pending", "delivered", "failed"]

  /** A required string path: present and not the empty string. */
  predicate RequiredText(v: Option<string>) {
    v.Some? && v.value != ""
  }

  /** Every validator the schema declares, stated path by path. */
  predicate SchemaValid(o: Order) {
    RequiredText(o.orderId) && RequiredText(o.gameId) && RequiredText(o.gameName)
    && RequiredText(o.packageId) && RequiredText(o.packageName)
    && o.amount.Some? && o.price.Some?
    && RequiredText(o.userId) && RequiredText(o.paymentMethod)
    && o.paymentStatus in PaymentStatuses && o.fulfillmentStatus in FulfillmentStatuses
  }

  function RequiredError(path: string, present: bool): seq<string> {
    if present then [] else [path + ": Path `" + path + "` is required."]
  }

  function EnumMessage(path: string, value: string): string {
    path + ": `" + value + "` is not a valid enum value for path `" + path + "`."
  }

  function EnumError(path: string, value: string, allowed: seq<string>): seq<string> {
    if value in allowed then [] else [EnumMessage(path, value)]
  }

  /** The validator messages for one document, in the schema's path order. */
  function ValidationErrors(o: Order): (errs: seq<string>)
    ensures errs == [] <==> SchemaValid(o)
  {
    RequiredError("orderId", RequiredText(o.orderId))
    + RequiredError("gameId", RequiredText(o.gameId))
    + RequiredError("gameName", RequiredText(o.gameName))
    + RequiredError("packageId", RequiredText(o.packageId))
    + RequiredError("packageName", RequiredText(o.packageName))
    + RequiredError("amount", o.amount.Some?)
    + RequiredError("price", o.price.Some?)
    + RequiredError("userId", RequiredText(o.userId))
    + RequiredError("paymentMethod", RequiredText(o.paymentMethod))
    + EnumError("paymentStatus", o.paymentStatus, PaymentStatuses)
    + EnumError("fulfillmentStatus", o.fulfillmentStatus, FulfillmentStatuses)
  }

  function JoinWith(parts: seq<string>, sep: string): string {
    if parts == [] then "" else if |parts| == 1 then parts[0] else parts[0] + sep + JoinWith(parts[1..], sep)
  }

  /** The message of the `ValidationError` that `save` rejects with. */
  function ValidationMessage(o: Order): (m: string)
    requires !SchemaValid(o)
    ensures StartsWith(m, "Order validation failed: ")
  {
    "Order validation failed: " + JoinWith(ValidationErrors(o), ", ")
  }

  /** The paths the routes assign that the schema does not declare. */
  predicate UsesUndeclaredPaths(o: Order) {
    o.status.Some? || o.items.Some? || o.totalQuantity.Some? || o.transactionDetails.Some?
  }

  /**
   * `new Order({...})` for the paths the caller supplies; the others take the schema's defaults:
   * currency "USD", both statuses "pending", both timestamps the creation time, nothing else set.
   */
  function NewOrder(id: ObjectId, now: int): (o: Order)
    ensures o.currency == Some("USD") && o.paymentStatus == "pending" && o.fulfillmentStatus == "pending"
    ensures o.createdAt == now && o.updatedAt == now && !UsesUndeclaredPaths(o)
    ensures o.orderId.None? && o.transactionId.None? && o.serverId.None? && o.notes.None?
  {
    Order(id, None, None, None, None, None, None, None, Some("USD"), None, None, None, "pending", "pending",
          None, now, now, None, None, None, None, None)
  }

  /** "expired", which the gateway routes write, is not a member of the payment-status enum. */
  lemma ExpiredIsNotAPaymentStatus(o: Order)
    requires o.paymentStatus == "expired"
    ensures !SchemaValid(o)
    ensures EnumMessage("paymentStatus", "expired") in ValidationErrors(o)
  {
    assert "expired" !in PaymentStatuses;
    var errs := ValidationErrors(o);
    var k := |errs| - |EnumError("fulfillmentStatus", o.fulfillmentStatus, FulfillmentStatuses)| - 1;
    assert errs[k] == EnumMessage("paymentStatus", "expired");
  }

  /** A freshly constructed order with nothing supplied fails validation on every required path. */
  lemma DefaultsAreNotEnough(id: ObjectId, now: int)
    ensures |ValidationErrors(NewOrder(id, now))| == 9
  {
  }
}
