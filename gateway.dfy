/**
 * The decrypted notification the payment gateway sends to the webhook, confirm and callback routes:
 * a transaction id, a status word, the charged amount (integer cents), a currency, the merchant's
 * metadata and the purchased products. Every field may be absent from the JSON the gateway sends.
 */
module Gateway {
  import opened Wrappers

  datatype Product = Product(
    productId: Option<string>,
    name: Option<string>,
    price: Option<int>,
    quantity: int,
    image: Option<string>,
    id: Option<string>)

  datatype Metadata = Metadata(orderId: Option<string>)

  datatype Notification = Notification(
    transactionId: Option<string>,
    status: Option<string>,
    amount: Option<int>,
    currency: Option<string>,
    metadata: Option<Metadata>,
    products: Option<seq<Product>>)

  /** `metadata && metadata.orderId`: the merchant order reference when it is present and non-empty. */
  function OrderRef(n: Notification): (r: Option<string>)
    ensures r.Some? <==> n.metadata.Some? && n.metadata.value.orderId.Some? && n.metadata.value.orderId.value != ""
    ensures r.Some? ==> r == n.metadata.value.orderId
  {
    match n.metadata
    case None => None
    case Some(m) => if m.orderId.Some? && m.orderId.value != "" then m.orderId else None
  }

  /** `products && products.length > 0`. */
  predicate HasProducts(n: Notification) {
    n.products.Some? && |n.products.value| > 0
  }
}
