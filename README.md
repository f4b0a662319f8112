# Game top-up store: order and payment model

A Dafny model of the core of a game top-up web store. A player picks a game and a package, enters
their game id (and server id for some games), and pays through the DL Pay gateway. The server keeps
one `Order` document per purchase in MongoDB, reconciles it with the gateway's notifications and
pushes changes to admin dashboards over Socket.IO.

The model covers:

- **The order schema and store** (`order.dfy`, `store.dfy`). The `Order` document and its
  validation: required paths, the payment and fulfilment enums, and the `USD` currency default. The
  store is a class holding insertion order (`ids`) and the documents (`orders`). Its `findOne`
  understands the `_id`-or-`orderId` query, including the ObjectId cast error. Its `save` checks
  validation and the unique `orderId` index, and keeps the collection valid.
- **The payload cipher** (`crypto.dfy`, `aead.dfy`, `base64.dfy`, `bytes.dfy`).
  - The key: a 64-digit hex string decoded to 32 bytes.
  - The frame: IV ‖ ciphertext ‖ tag, in Base64.
  - Decryption: it splits the frame and checks the tag.
  - The round trip `decryptPayload(encryptPayload(p)) == p` is proved for every payload.
- **The payment routes.** They are modelled over the store, the socket registry and the
  notification.
  - **The webhook** (`webhook.dfy`, `reconcile.dfy`, `gateway.dfy`): the legacy path with its
    `paymentId` lookup and the gateway's verification; the encrypted path with its
    transaction-id / metadata lookup; and the status and product reconciliation.
  - **The confirm route** (`confirm.dfy`): the same reconciliation, answered with a projection of
    the order, plus the outbound confirmation call.
  - **The callback route** (`callback.dfy`).
  - **The two checkout routes** (`checkout.dfy`, `dlpay.dfy`).
  - **The orders listing and creation route** (`orders.dfy`).
- **The Socket.IO room registry** (`realtime.dfy`): a class of socket-to-rooms memberships, and
  who the two emitters reach.
- **The dashboard statistics** (`stats.dfy`, `sorting.dfy`): counts, revenue, top games, recent
  orders and the per-day chart.
- **The sitemap serializer** (`sitemap.dfy`) and **Cloudinary public-id extraction**
  (`cloudinary.dfy`, with the text helpers in `text.dfy`).
- **The client-side state machines**, each a class over its component's state:
  - the admin orders page (`adminorders.dfy`);
  - the dashboard orders table (`orderstable.dfy`);
  - the top-up flow (`topup.dfy`) and the shared game context (`gamecontext.dfy`);
  - the account-verification form shared by the modal and the verify page (`verification.dfy`);
  - the support form (`support.dfy`).

Each route is a `method` that updates a `Store` in place. Its `ensures` ties the response and the
new collection to a pure function of the old collection (`…Outcome`). The lemmas state what the
route promises about that function: which orders it may change, which statuses it can write, when
it calls out, and that it keeps the collection valid.

Where the code behaves differently from what its messages or comments suggest, the model follows
the code, and a lemma states the behaviour:

- `expired` is not one of the schema's payment statuses, so an `EXPIRED` notification is never
  saved (`OrderSchema.ExpiredIsNotAPaymentStatus`, `WebhookRoute.ExpiredNotificationRejected`).
- The callback route decrypts without passing the key, so it always answers 500
  (`CallbackRoute.Post`). Its fallback order fails validation, so the "New order created" branch
  cannot complete (`CallbackRoute.MissNeverCreates`). It also writes `pending` over any status that
  is not `SUCCESS` (`CallbackRoute.CallbackPaidIffSuccess`).
- The confirm route calls the gateway's confirm endpoint whatever status it has just stored
  (`ConfirmRoute.ConfirmsEveryStoredStatus`).
- A legacy webhook notification without an `id` filters on `paymentId: undefined`, which every
  document satisfies, so it rewrites the first stored order (`WebhookRoute.LegacyTarget`).
- The Game schema (`src/db/Game.js`) declares no `packages` path, so `game.packages.find` throws a
  TypeError for every stored game and `POST /api/checkout` answers 500 "Failed to create checkout
  session" before it reaches the payment service (`CheckoutRoute.FoundGameFails`). The package branch
  is kept for a game that does carry a package list.
- The encrypted webhook path never writes `transactionId` (`WebhookRoute.EncryptedKeepsTransactionIds`).
- The admin page's status filter offers fulfilment values but the listing filters on
  `paymentStatus`, so "delivered" lists nothing (`AdminOrdersPage.DeliveredFilterFindsNothing`).
- Deselecting a game with `null` leaves the stored copy, so a reload brings it back
  (`GameState.DeselectThenReload`).
- The dashboard table refuses `retry-delivery`, which the orders page accepts
  (`OrdersTableView.TableTargetAgrees`).

## Model

| member | source | states |
|---|---|---|
| PayloadCipher.KeyBytes | src/lib/crypto.js:15 | a missing key is refused with the "not defined" message; an accepted key is exactly 32 bytes |
| PayloadCipher.HexKeyAccepted | src/lib/crypto.js:6-15 | every 64-digit hex key is accepted |
| PayloadCipher.NonHexKeyRefused | src/lib/crypto.js:15 | a non-hex digit among the first 64 shortens the decoded key, which is refused with the key-length message |
| PayloadCipher.Frame | src/lib/crypto.js:27 | the frame is IV, ciphertext and tag concatenated, with length the sum of the three |
| PayloadCipher.SplitFrame | src/lib/crypto.js:46-52 | the IV is the first 12 bytes (or all of a shorter buffer); a long enough buffer yields a 16-byte tag and the rest as ciphertext |
| PayloadCipher.SplitFrameOfFrame | src/lib/crypto.js:27-52 | splitting a frame built from a 12-byte IV and a 16-byte tag gives back the three parts |
| PayloadCipher.FrameOfSplitFrame | src/lib/crypto.js:46-52 | re-framing the parts of any buffer of at least 28 bytes gives the buffer back |
| PayloadCipher.EncryptPayload | src/lib/crypto.js:9-32 | encryption succeeds exactly when the key is accepted; errors carry the "Encryption failed" prefix; the output has the Base64 length of IV+ciphertext+tag (create-dlpay-checkout's `encryptDirectly` is the same code) |
| PayloadCipher.DecryptBytes | src/lib/crypto.js:43-61 | a plaintext is returned only for valid Base64 and an accepted key, and only when the tag checks |
| PayloadCipher.DecryptPayload | src/lib/crypto.js:40-69 | errors carry the "Decryption failed" prefix; success means the bytes decrypted and parsed; a missing key gives the key-missing error |
| PayloadCipher.ShortBlobHasNoPlaintext | src/lib/crypto.js:46-52 | a blob shorter than IV+tag never decrypts to a non-empty plaintext |
| PayloadCipher.RoundTrip | src/lib/crypto.js:9-69 | with an accepted key and a JSON round-trip, decrypting an encrypted payload gives the payload back |
| PayloadCipher.WrongKeyFormRefused | src/lib/crypto.js:55 | a refused key makes decryption fail with that key's message, whatever the input |
| Aead.Seal | src/lib/crypto.js:21 | the ciphertext is as long as the plaintext |
| Aead.Unseal | src/lib/crypto.js:58-61 | the plaintext is as long as the ciphertext |
| Aead.Tag | src/lib/crypto.js:24 | the authentication tag is 16 bytes |
| Aead.Open | src/lib/crypto.js:58-61 | opening succeeds exactly when the tag matches, and returns as many bytes as the ciphertext |
| Aead.OpenSeal | src/lib/crypto.js:58-61 | opening a sealed message with its own tag gives the plaintext back |
| Base64.Encode | src/lib/crypto.js:27 | the encoding has length 4·⌈n/3⌉ |
| Base64.IndexOfAlphabet | src/lib/crypto.js:27 | the alphabet is inverted by the decoder's lookup |
| Base64.DecodeEncode | src/lib/crypto.js:43 | decoding an encoding gives the bytes back |
| Bytes.ClampIndex | src/lib/crypto.js:49 | `subarray` clamps its bounds into the buffer and leaves in-range ones alone |
| Bytes.Slice | src/lib/crypto.js:46-52 | in-range bounds give the plain slice |
| Bytes.HexDecode | src/lib/crypto.js:15 | `Buffer.from(hex)` yields at most half as many bytes as digits |
| Bytes.HexDecodeLength | src/lib/crypto.js:15 | an all-hex text of even length decodes to exactly half as many bytes |
| Bytes.HexDecodeStopsEarly | src/lib/crypto.js:15 | decoding stops at the first non-hex pair, so the result is shorter |
| DlpayCheckoutRoute.NormalizeProduct | src/app/api/create-dlpay-checkout/route.js:86-93 | the product id becomes text; a missing or zero quantity becomes 1; name, price and image are kept |
| DlpayCheckoutRoute.NormalizeProducts | src/app/api/create-dlpay-checkout/route.js:86-93 | every product is normalised, in order |
| DlpayCheckoutRoute.Prepare | src/app/api/create-dlpay-checkout/route.js:64-93 | given URLs are kept and missing ones get the site defaults carrying the order id; metadata is kept; products are normalised |
| DlpayCheckoutRoute.ErrorOrder | src/app/api/create-dlpay-checkout/route.js:40-62 | a missing payload is 400 and a missing secret 500; nothing is sent without the secret, the API key and a usable key; a 200 means the request went out |
| DlpayCheckoutRoute.PrepareIdempotent | src/app/api/create-dlpay-checkout/route.js:68-93 | preparing twice is preparing once |
| DlpayCheckoutRoute.ForwardedPayloadDecrypts | src/app/api/create-dlpay-checkout/route.js:98-111 | what is forwarded decrypts, under the same key, to the prepared payload |
| DlpayCheckoutRoute.Post | src/app/api/create-dlpay-checkout/route.js:31-169 | the response and the forwarded request are those of the route's outcome function |
| Gateway.OrderRef | src/app/api/webhook/route.js:135 | a notification's order reference is its non-empty `metadata.orderId`, if any |
| OrderSchema.ValidationErrors | src/db/Order.js:3-29 | a document has no validation errors exactly when it satisfies the schema |
| OrderSchema.ValidationMessage | src/db/Order.js:3-29 | the error text of an invalid document begins "Order validation failed: " |
| OrderSchema.NewOrder | src/db/Order.js:11-27 | a new document gets the USD currency, pending statuses and creation/update times, and nothing else |
| OrderSchema.ExpiredIsNotAPaymentStatus | src/db/Order.js:15-19 | a document with payment status "expired" fails validation with the enum message |
| OrderSchema.DefaultsAreNotEnough | src/db/Order.js:4-14 | a document holding only the defaults misses all nine required paths |
| OrderStore.CastObjectId | src/app/api/webhook/route.js:136-138 | a reference casts to an ObjectId exactly when it is 24 hex digits |
| OrderStore.FirstMatch | src/app/api/webhook/route.js:132 | `findOne` returns the first matching document in insertion order, or none when nothing matches |
| OrderStore.Find | src/app/api/webhook/route.js:132-138 | the `_id`-or-`orderId` query fails exactly on a reference that does not cast; otherwise it finds a match or shows none exists |
| OrderStore.StorePreservesValid | src/db/Order.js:4 | saving a valid document whose `orderId` is free keeps the collection valid |
| OrderStore.SameOrderIdIsFree | src/db/Order.js:4 | re-saving a document under its own `orderId` does not trip the unique index |
| OrderStore.SaveError | src/db/Order.js:3-29 | a save fails exactly when validation fails or the `orderId` is taken; validation is reported first |
| OrderStore.Store.constructor | src/db/Order.js:32 | the collection starts empty |
| OrderStore.Store.FindOne | src/app/api/webhook/route.js:132 | the store's `findOne` is the lookup above on its current state |
| OrderStore.Store.FindDuplicate | src/db/Order.js:4 | reports exactly whether another document holds the same `orderId` |
| OrderStore.Store.Save | src/db/Order.js:3-29 | a successful save inserts or replaces the document and appends new ids; a failed one changes nothing |
| Reconciliation.Resolve | src/app/api/webhook/route.js:131-139 | lookup by transaction id first, then by metadata order id; an uncastable reference is an error only when no transaction matches |
| Reconciliation.ItemsOf | src/app/api/webhook/route.js:176-183 | one item per product, in order |
| Reconciliation.ReduceIsItemQuantity | src/app/api/webhook/route.js:190 | the total quantity reduce equals the sum over the new items |
| Reconciliation.ReconcileStatus | src/app/api/webhook/route.js:157-171 | SUCCESS marks the order paid/completed with fulfilment pending; FAILED and EXPIRED set their status; anything else changes no status |
| Reconciliation.ReconcileProducts | src/app/api/webhook/route.js:173-191 | with products, items are replaced, amount copied and quantity summed; without, all three are untouched |
| Reconciliation.ReconcileFrame | src/app/api/webhook/route.js:157-193 | identity, game, package, price, player and transaction fields are kept; `updatedAt` becomes now |
| Reconciliation.ReconcileIdempotent | src/app/api/webhook/route.js:157-193 | applying the same notification twice is applying it once |
| Reconciliation.ReconcileSaveable | src/app/api/webhook/route.js:157-194 | a valid order stays valid exactly when the notification is not EXPIRED and does not list products without an amount |
| WebhookRoute.LegacyTarget | src/app/api/webhook/route.js:38-49 | a notification without an `id` picks the first stored order (none when the store is empty); one with an `id` picks the first order, in insertion order, whose `transactionId` is that id; the result is stored, and there is none only when no order carries that `transactionId` |
| WebhookRoute.LegacyUpdate | src/app/api/webhook/route.js:58-105 | only the two status fields change; paid requires a verified completion; a failed verification is reported exactly for a completed status |
| WebhookRoute.SingleRewriteFrame | src/app/api/webhook/route.js:193-194 | one save keeps the key set and validity, and changes at most one document |
| WebhookRoute.RewriteOne | src/app/api/webhook/route.js:193-194 | replacing a document by a valid one with the same id and `orderId` is a single rewrite |
| WebhookRoute.LegacyRewrites | src/app/api/webhook/route.js:38-111 | the legacy path rewrites at most one order, and only when it answers 200 |
| WebhookRoute.EncryptedRewrites | src/app/api/webhook/route.js:114-213 | the encrypted path rewrites at most one order, and only when it answers 200 |
| WebhookRoute.WebhookFrame | src/app/api/webhook/route.js:10-218 | the webhook never creates or deletes orders, keeps the collection valid, and changes at most one order, only on 200 |
| WebhookRoute.ExpiredNotificationRejected | src/app/api/webhook/route.js:167-194 | an EXPIRED notification for a found order is answered 500 and stores nothing |
| WebhookRoute.FoundNotificationStored | src/app/api/webhook/route.js:155-203 | a saveable notification for a found order is stored reconciled, acknowledged, and emitted to the order's room |
| WebhookRoute.EncryptedKeepsTransactionIds | src/app/api/webhook/route.js:157-194 | the encrypted path never changes any order's `transactionId` |
| WebhookRoute.LegacyPaidOnlyWhenVerified | src/app/api/webhook/route.js:59-84 | the legacy path marks an order paid only if both the webhook and the gateway's verification report completion |
| WebhookRoute.Legacy | src/app/api/webhook/route.js:38-111 | the legacy handler's response and new collection are its outcome function's |
| WebhookRoute.LegacyStatus | src/app/api/webhook/route.js:58-107 | the status update on a found order is the legacy update applied and saved |
| WebhookRoute.Encrypted | src/app/api/webhook/route.js:114-213 | the encrypted handler's response and new collection are its outcome function's |
| WebhookRoute.EncryptedUpdate | src/app/api/webhook/route.js:155-203 | the field updates, save and emit on a found order are the found-branch outcome, and the collection stays valid |
| WebhookRoute.Post | src/app/api/webhook/route.js:10-218 | the route dispatches on the payload and its effect is the webhook outcome |
| ConfirmRoute.ConfirmUrl | src/app/api/confirm/route.js:96 | the confirm URL starts with the configured API URL or the default |
| ConfirmRoute.ConfirmAgreesWithWebhook | src/app/api/confirm/route.js:33-91 | for a non-empty payload, confirm leaves the collection exactly as the encrypted webhook would |
| ConfirmRoute.ConfirmsEveryStoredStatus | src/app/api/confirm/route.js:93-113 | one outbound confirmation is made exactly on a confirmed 200, whatever the stored status; a miss or an error changes nothing |
| ConfirmRoute.ConfirmReturnsSavedOrder | src/app/api/confirm/route.js:115-130 | the answer projects the order it found, with the new timestamp and the stored payment status |
| ConfirmRoute.ProjectionFallbacks | src/app/api/confirm/route.js:118-122 | the projection shows the order's id and falls back to the notification's currency |
| ConfirmRoute.Get | src/app/api/confirm/route.js:10-135 | the route's response, outbound calls and new collection are its outcome function's |
| ConfirmRoute.Update | src/app/api/confirm/route.js:57-130 | the update of a found order is the found-branch outcome |
| CallbackRoute.Post | src/app/api/callback/route.js:11-27 | a bad body is 500, a missing payload 400, and any payload ends in the key-missing decryption error |
| CallbackRoute.CallbackItems | src/app/api/callback/route.js:53-58 | one item per product, in order |
| CallbackRoute.MissNeverCreates | src/app/api/callback/route.js:45-79 | on a miss nothing is stored, emitted or confirmed and the answer is 500; the synthesized order misses at least eight required paths |
| CallbackRoute.CallbackPaidIffSuccess | src/app/api/callback/route.js:81-84 | a found order is paid exactly on SUCCESS and pending otherwise, with the notification's transaction id and the new time |
| CallbackRoute.TransactionDetailsWriteOnce | src/app/api/callback/route.js:86-89 | transaction details are written only when absent, so the first notification's stay |
| CallbackRoute.CallbackUpdateSaveable | src/app/api/callback/route.js:81-91 | the callback's update keeps a valid order valid, with the same id and `orderId` |
| CallbackRoute.CallbackFrame | src/app/api/callback/route.js:32-128 | keys and validity are kept; the outbound confirmation happens exactly on 200; an error changes nothing |
| CallbackRoute.FoundFrame | src/app/api/callback/route.js:81-100 | the found branch keeps keys and validity |
| CallbackRoute.Process | src/app/api/callback/route.js:32-128 | the processing step's effect is the callback outcome |
| CallbackRoute.Update | src/app/api/callback/route.js:81-128 | the update of a found order is the found-branch outcome |
| CheckoutRoute.FindPackage | src/app/api/checkout.js:37 | finds a package with the requested id from the game's list, or shows there is none |
| CheckoutRoute.Either | src/app/api/checkout.js:62-76 | `a \|\| b` on optional text |
| CheckoutRoute.Check | src/app/api/checkout.js:14-59 | a passing check has a player id, a game whose `packages` is defined, a package from that list with the requested id, and the full configuration; failures are 400, 404 or 500, and a game without `packages` fails with the TypeError's 500 |
| CheckoutRoute.ChecksComeFirst | src/app/api/checkout.js:14-59 | without a gateway request nothing is stored and the answer is not 200; missing fields are rejected before anything else |
| CheckoutRoute.OrderRecordedAfterSession | src/app/api/checkout.js:80-120 | an order is recorded exactly when the route answers 200, only after the gateway created the session, pending on both statuses |
| CheckoutRoute.CommitRecords | src/app/api/checkout.js:89-117 | the commit step adds exactly the new order on success and nothing otherwise |
| CheckoutRoute.FoundGameFails | src/app/api/checkout.js:29-37 | with every game loaded through the Game schema (no `packages` path), a request naming a stored game answers 500 "Failed to create checkout session" with the `find` TypeError as details, and no request reaches the payment service or records an order |
| CheckoutRoute.CheckoutOrderIdIsNotAnObjectId | src/app/api/checkout.js:86 | the generated `ORD-` id never casts to an ObjectId |
| CheckoutRoute.ImageFallsBackToGame | src/app/api/checkout.js:62-76 | the package image is used when present, else the game's |
| CheckoutRoute.Post | src/app/api/checkout.js:7-132 | the route's response, gateway request and new collection are its outcome function's |
| OrdersRoute.QueryOf | src/app/api/orders/route.js:18-20 | the query filters on payment status and game id exactly when those parameters are non-empty |
| OrdersRoute.Select | src/app/api/orders/route.js:23 | selects exactly the documents matching the query |
| OrdersRoute.Documents | src/app/api/orders/route.js:23 | the collection's documents in insertion order |
| OrdersRoute.Window | src/app/api/orders/route.js:23 | `skip` then `limit`, where a negative limit means its absolute value and zero means no limit |
| OrdersRoute.WithOrderId | src/app/api/orders/route.js:50-53 | a given `orderId` is kept; a missing one is generated, so the result always has one |
| OrdersRoute.PagesCoverTotal | src/app/api/orders/route.js:34 | with a positive limit the page count is the least that covers the total |
| OrdersRoute.WindowOfSorted | src/app/api/orders/route.js:23 | a window of a newest-first list is newest-first, drawn from it, and at most `limit` long |
| OrdersRoute.ListingIsAPageOfMatches | src/app/api/orders/route.js:10-36 | the listing answers 200 exactly when the skip is non-negative; then it is a newest-first page of matching documents with the full match count |
| OrdersRoute.CreateKeepsOrGenerates | src/app/api/orders/route.js:48-58 | creation answers 201 exactly when the save succeeds and stores the document; otherwise 400 and nothing changes; a generated id starts with "ORD" |
| OrdersRoute.Get | src/app/api/orders/route.js:6-41 | the listing is computed over the collection's documents |
| OrdersRoute.Post | src/app/api/orders/route.js:44-63 | the route's response and new collection are its outcome function's |
| Sorting.Insert | src/lib/stats.js:51 | inserting into a sorted list keeps it sorted and adds exactly the element |
| Sorting.SortDesc | src/lib/stats.js:56 | the result is sorted by decreasing key and is a permutation of the input |
| Sorting.Take | src/lib/stats.js:56 | `limit(n)` keeps a prefix of length n, or the whole list |
| Sorting.Count | src/lib/stats.js:50 | a count is the element's multiplicity |
| Sorting.Distinct | src/lib/stats.js:50 | the grouping keys are the input's values, each once |
| Sorting.TopOfSorted | src/lib/stats.js:51-52 | the top n are sorted, drawn from the input, and no left-out element outranks a kept one |
| DashboardStats.CountFulfillment | src/lib/stats.js:31-46 | a count never exceeds the number of orders |
| DashboardStats.CountSince | src/lib/stats.js:12-14 | the daily count never exceeds the number of orders |
| DashboardStats.GroupByGame | src/lib/stats.js:49-50 | each game name appears in one group, with its exact count |
| DashboardStats.DaysSince | src/lib/stats.js:62-63 | the days are exactly those of the orders since the cut-off |
| DashboardStats.Points | src/lib/stats.js:64-69 | one point per distinct day, counting that day's orders |
| DashboardStats.AscendingDays | src/lib/stats.js:70 | sorting distinct days gives strictly ascending days |
| DashboardStats.Chart | src/lib/stats.js:62-77 | the chart has strictly ascending days, each counting its orders, and covers every recent order |
| DashboardStats.RevenueSinceBounded | src/lib/stats.js:17-28 | with non-negative prices, revenue since a date lies between zero and total revenue |
| DashboardStats.DailyRevenueBounded | src/lib/stats.js:16-28 | daily revenue lies between zero and total revenue |
| DashboardStats.FulfillmentPartition | src/lib/stats.js:35-46 | the three fulfilment counts sum to at most the order count, exactly when all orders are valid |
| DashboardStats.StatusCountsPartition | src/lib/stats.js:30-46 | the status counts partition valid orders, and successful top-ups equal the delivered count |
| DashboardStats.RecentOrdersAreNewest | src/lib/stats.js:56 | recent orders are the five newest (or all), newest first |
| DashboardStats.OrdersByGameAreTop | src/lib/stats.js:49-53 | at most five games, by decreasing exact count, and no game left out has more orders than one shown |
| DashboardStats.ChartCountsEachDay | src/lib/stats.js:58-77 | the dashboard's chart data is the chart of the past week |
| Realtime.OrderRoom | src/lib/socket.js:51 | an order's room is "order-" plus its id, never the admin room |
| Realtime.SocketServer.constructor | src/lib/socket.js:3 | no server and no sockets at first |
| Realtime.SocketServer.Initialize | src/lib/socket.js:5-90 | a second initialisation returns the existing server; a failed first one leaves none |
| Realtime.SocketServer.Connect | src/lib/socket.js:30-31 | a new socket joins no rooms |
| Realtime.SocketServer.JoinAdmin | src/lib/socket.js:34-46 | the socket joins the admin room, whatever the token, and is acknowledged |
| Realtime.SocketServer.JoinOrder | src/lib/socket.js:49-56 | the socket joins the order's room only |
| Realtime.SocketServer.LeaveOrder | src/lib/socket.js:59-66 | the socket leaves the order's room only |
| Realtime.SocketServer.Disconnect | src/lib/socket.js:73-75 | the socket's memberships are dropped |
| Realtime.SocketServer.EmitOrderUpdate | src/lib/socket.js:92-103 | at most one "order-update" delivery, reaching only members of the order's room |
| Realtime.SocketServer.EmitDashboardUpdate | src/lib/socket.js:105-116 | at most one "dashboard-update" delivery, reaching only admin-room members |
| Realtime.SocketServer.Broadcast | src/app/api/webhook/route.js:71-78 | at most one delivery, reaching every connected socket |
| Realtime.OrderUpdateSkipsAdminOnly | src/lib/socket.js:92-103 | a socket only in the admin room never receives order updates |
| Realtime.EmitBeforeInitIsNoOp | src/lib/socket.js:92-116 | before initialisation nothing is delivered |
| Realtime.OrderUpdateReachesMembers | src/lib/socket.js:92-103 | every member of an order's room receives that order's update |
| CloudinaryPublicId.PublicIdFromUrl | src/lib/cloudinary-utils.js:6-32 | an id is found exactly for a non-empty URL containing "cloudinary.com" with an "upload" segment (src/lib/cloudinary.js:99-125 is the same code) |
| CloudinaryPublicId.LeadingDigits | src/lib/cloudinary-utils.js:24 | the length of the run of digits at the start |
| CloudinaryPublicId.StripVersion | src/lib/cloudinary-utils.js:24 | removing the version leaves a suffix |
| CloudinaryPublicId.LastIndex | src/lib/cloudinary-utils.js:27 | the last position of a character, or -1 |
| CloudinaryPublicId.StripExtension | src/lib/cloudinary-utils.js:27 | removing the extension leaves a prefix |
| CloudinaryPublicId.StripVersionRemovesFolder | src/lib/cloudinary-utils.js:24 | "v", digits and "/" are removed |
| CloudinaryPublicId.LeadingDigitsOf | src/lib/cloudinary-utils.js:24 | digits followed by a non-digit count exactly |
| CloudinaryPublicId.StripVersionKeepsPlainPath | src/lib/cloudinary-utils.js:24 | a path not starting with "v" is unchanged |
| CloudinaryPublicId.StripExtensionRemovesOne | src/lib/cloudinary-utils.js:27 | exactly one final extension is removed |
| CloudinaryPublicId.StripExtensionNeedsAName | src/lib/cloudinary-utils.js:27 | no dot, a trailing dot, or a slash after the last dot leaves the text unchanged |
| CloudinaryPublicId.PublicIdAfterUpload | src/lib/cloudinary.js:108-120 | the id is what follows the first "upload" segment, without version and extension |
| CloudinaryPublicId.DocumentedFormat | src/lib/cloudinary.js:107 | the documented URL shape yields "folder/public-id" |
| Text.Split | src/lib/cloudinary-utils.js:15 | `split` returns at least one part, none containing the separator |
| Text.IndexOf | src/lib/cloudinary-utils.js:16 | `indexOf` is the first position of the element, or -1 exactly when it is absent |
| Text.JoinSplit | src/lib/cloudinary-utils.js:21 | joining the parts with the separator rebuilds the text |
| Text.TrimEmptyIffBlank | src/app/support/pages.jsx:32 | `!s.trim()` holds exactly for blank text |
| Text.TrimsToEmpty | src/app/support/pages.jsx:32 | the blank test as the forms evaluate it |
| SitemapRoute.DatePart | src/app/api/sitemap/route.js:39 | the date part has no "T" |
| SitemapRoute.DatePartOfIso | src/app/api/sitemap/route.js:39 | the date part of an ISO timestamp is its date |
| SitemapRoute.StaticEntries | src/app/api/sitemap/route.js:18-33 | one entry per static page |
| SitemapRoute.GameEntriesShape | src/app/api/sitemap/route.js:36-43 | game entries exist exactly when every game has an update time, one per game, in order |
| SitemapRoute.SitemapShape | src/app/api/sitemap/route.js:11-55 | the sitemap is 200 exactly when every game has an update time, and then is the prolog, static entries, game entries and closing tag |
| SitemapRoute.GameLocsDistinct | src/app/api/sitemap/route.js:38 | distinct game ids give distinct locations |
| SitemapRoute.RenderedEntryListed | src/app/api/sitemap/route.js:14-45 | each rendered entry occurs in the document |
| SitemapRoute.EveryGameListed | src/app/api/sitemap/route.js:36-43 | every game of a successful sitemap is listed with its location and date |
| SitemapRoute.Get | src/app/api/sitemap/route.js:5-56 | the loop builds exactly the specified sitemap |
| SitemapRoute.GameEntriesNone | src/app/api/sitemap/route.js:52-55 | a game without an update time anywhere makes the whole sitemap fail |
| AdminOrdersPage.PageTarget | src/app/admin/orders/page.jsx:125-137 | unknown actions fail with "Invalid action" |
| AdminOrdersPage.PageTargetTable | src/app/admin/orders/page.jsx:125-137 | the three known actions map to delivered, failed and pending |
| AdminOrdersPage.MergeUpdated | src/app/admin/orders/page.jsx:84-86 | the list keeps its length and ids; orders with the updated id are replaced, others kept |
| AdminOrdersPage.MergeIdempotent | src/app/admin/orders/page.jsx:159-161 | merging the same update twice is merging once |
| AdminOrdersPage.Patched | src/app/admin/orders/page.jsx:139-149 | only fulfilment status and update time change |
| AdminOrdersPage.PageAction | src/app/admin/orders/page.jsx:114-170 | a PUT is sent exactly for a known action after the details load; no alert exactly when it is answered, and then the answer is merged into the list by `orderId`; an alert leaves the list |
| AdminOrdersPage.ShownActionsMove | src/app/admin/orders/page.jsx:345-374 | every shown button is accepted and moves the order to another fulfilment status |
| AdminOrdersPage.ShowingCountsRows | src/app/admin/orders/page.jsx:421-424 | "Showing first to last" counts exactly the rows on the page |
| AdminOrdersPage.DeliveredFilterFindsNothing | src/app/admin/orders/page.jsx:234-237 | filtering on "delivered" lists no orders |
| AdminOrdersPage.OrdersManagement.constructor | src/app/admin/orders/page.jsx:12-20 | page 1, limit 10, no filters, no orders |
| AdminOrdersPage.OrdersManagement.HandleFilterChange | src/app/admin/orders/page.jsx:102-106 | sets one filter, keeps the other, returns to page 1 |
| AdminOrdersPage.OrdersManagement.HandlePageChange | src/app/admin/orders/page.jsx:108-112 | moves only to an existing page, so the page stays in range |
| AdminOrdersPage.OrdersManagement.OnOrderUpdate | src/app/admin/orders/page.jsx:80-89 | the socket event merges the update |
| AdminOrdersPage.OrdersManagement.HandleAction | src/app/admin/orders/page.jsx:114-170 | the handler's PUT, alert and list are those of the page action |
| OrdersTableView.TableTarget | src/components/admin/OrdersTable.jsx:54-63 | unknown actions fail with "Invalid action" |
| OrdersTableView.TableTargetAgrees | src/components/admin/OrdersTable.jsx:54-63 | exactly two actions are accepted, agreeing with the page; retry-delivery is refused here but accepted there |
| OrdersTableView.TableButtonsAccepted | src/components/admin/OrdersTable.jsx:126-145 | every button shown is on a pending order, is accepted, and is also offered by the page |
| OrdersTableView.OrdersTable.constructor | src/components/admin/OrdersTable.jsx:9 | the list starts as the given orders |
| OrdersTableView.OrdersTable.Mount | src/components/admin/OrdersTable.jsx:24-46 | fetches exactly when no initial orders were given; only a successful answer replaces the list |
| OrdersTableView.OrdersTable.OnOrderUpdate | src/components/admin/OrdersTable.jsx:14-21 | the socket event merges the update as the page does |
| OrdersTableView.OrdersTable.HandleAction | src/components/admin/OrdersTable.jsx:48-84 | a PUT carrying only the fulfilment status is sent exactly for a known action; otherwise the alert |
| GameState.GameContext.constructor | src/context/GameContext.jsx:11-21 | starts with the stored game and an empty order |
| GameState.GameContext.ResetOrder | src/context/GameContext.jsx:23-31 | clears ids, package, payment and details and releases the lock; the game stays |
| GameState.GameContext.ClearSelectedGame | src/context/GameContext.jsx:34-37 | forgets the game on screen and in storage |
| GameState.GameContext.SetSelectedGame | src/context/GameContext.jsx:40-50 | a game is shown, stored and announced; null only clears the screen |
| GameState.GameContext.SetSelectedPackage | src/context/GameContext.jsx:53-61 | the package is set and, when present, announced |
| GameState.GameContext.SetInProgress | src/context/GameContext.jsx:21 | only the lock changes |
| GameState.DeselectThenReload | src/context/GameContext.jsx:11-50 | after deselecting with null, a reload shows the game again |
| GameState.ClearThenReload | src/context/GameContext.jsx:11-37 | after clearing, a reload starts with no game |
| TopUp.View | src/components/TopUpFlow.jsx:117-154 | a modal is shown exactly when open and on one of the five steps |
| TopUp.GameNameById | src/components/TopUpFlow.jsx:65-84 | the selected game's name when ids agree, else the known name, else "Unknown Game" |
| TopUp.StepsChain | src/components/TopUpFlow.jsx:117-154 | "next" walks the five steps in order; "back" goes one step back |
| TopUp.BackUndoesNext | src/components/TopUpFlow.jsx:117-154 | going on and back returns to the same modal |
| TopUp.TopUpFlow.constructor | src/components/TopUpFlow.jsx:11-15 | starts on the initial step, uninitialised |
| TopUp.TopUpFlow.Effect | src/components/TopUpFlow.jsx:18-63 | opening takes the lock; a game id selects that game and moves to "package"; closing clears the initialised flag |
| TopUp.TopUpFlow.HandleNext | src/components/TopUpFlow.jsx:111-114 | moves to the given step |
| TopUp.TopUpFlow.HandleClose | src/components/TopUpFlow.jsx:103-109 | resets the order and releases the lock; the game stays |
| AccountVerification.Validate | src/components/modals/VerificationModal.jsx:31-45 | valid exactly when the game id is filled in and, for games with servers, the server id too; each failing check sets its own error |
| AccountVerification.BothErrorsAtOnce | src/app/verify/page.jsx:34-53 | both missing ids are reported in one validation |
| AccountVerification.ServerIdIgnoredElsewhere | src/components/modals/VerificationModal.jsx:47-50 | the server id does not matter for games without servers |
| AccountVerification.VerificationForm.constructor | src/components/modals/VerificationModal.jsx:13-14 | both errors start empty |
| AccountVerification.VerificationForm.HandleUserIdChange | src/components/modals/VerificationModal.jsx:21-24 | stores the game id and clears only its error |
| AccountVerification.VerificationForm.HandleServerIdChange | src/app/verify/page.jsx:29-32 | stores the server id and clears only its error |
| AccountVerification.VerificationForm.ValidateForm | src/app/verify/page.jsx:34-53 | the verdict and errors are those of `Validate` |
| AccountVerification.VerificationForm.HandleSubmit | src/app/verify/page.jsx:55-80 | proceeds exactly when validation passes and a game with an id is selected |
| SupportForm.Set | src/app/support/pages.jsx:19-21 | sets one field and keeps the others |
| SupportForm.AddError | src/app/support/pages.jsx:29-48 | adds a field's error when it has one, leaving other entries |
| SupportForm.Errors | src/app/support/pages.jsx:29-52 | the error object has exactly the failing fields, with their messages |
| SupportForm.AcceptedIff | src/app/support/pages.jsx:29-52 | the form is accepted exactly when all fields are filled in and the e-mail has the shape |
| SupportForm.PlainAddressShaped | src/app/support/pages.jsx:38 | any local@domain.tld without spaces has the e-mail shape |
| SupportForm.NoAtIsInvalid | src/app/support/pages.jsx:38 | a filled-in address without "@" is reported invalid |
| SupportForm.SupportPage.constructor | src/app/support/pages.jsx:7-17 | empty form, no errors, no success |
| SupportForm.SupportPage.HandleChange | src/app/support/pages.jsx:19-27 | stores the value and blanks that field's error if set |
| SupportForm.SupportPage.ValidateForm | src/app/support/pages.jsx:29-52 | the error object is `Errors` of the form, and the verdict is its emptiness |
| SupportForm.SupportPage.HandleSubmit | src/app/support/pages.jsx:54-81 | an invalid form stops at the errors; a valid one succeeds and empties every field |

## Left out

- The AES-256-GCM cipher itself: `Aead` is a stand-in keyed keystream with a checksum tag. It has the same lengths, framing and tag check, but it is not the real block cipher or GHASH. Only the framing, key handling and round trip are modelled.
- PayloadCipher.DecryptBytes: a decoded buffer of 1 to 11 bytes is refused with "Invalid initialization vector". Node accepts any non-empty GCM nonce, so there the error comes later: from `setAuthTag` ("Invalid authentication tag length: n", where n is the length of the tag slice), or from the authentication check when n is 4 or 8. Only the error text differs; in both, decryption fails unless the tag is forged.
- Gateway.Product: `quantity` is always an integer. A product whose quantity is missing makes the source's `totalQuantity` sum NaN, and a text quantity turns it into string concatenation (src/app/api/webhook/route.js:190, src/app/api/confirm/route.js:87). Those sums are not modelled.
- WebhookRoute.Post and CallbackRoute.Post: a body that parses to JSON `null` is not modelled. The source throws when it reads `body.payload` (src/app/api/webhook/route.js:25) or destructures the body (src/app/api/callback/route.js:17), and answers 500 from its outer `catch`. The model's body is either a parse error or an object.
- Base64.Decode: strict; Node's lenient decoder (it skips invalid characters and accepts missing padding) is not modelled.
- Mongoose strict mode: writes to paths the schema does not declare (`status`, `items`, `totalQuantity`, `transactionDetails`) stay in the model's document; Mongoose drops them on save.
- WebhookRoute.LegacyTarget: the `paymentId` filter is on a path the schema does not declare. It is modelled as the server sends it: no document has the path, so a given id matches nothing and a missing one matches every document. Mongoose's `strictQuery` option, which can drop such a filter, is not modelled.
- OrdersRoute.Post: a client-supplied `_id` is taken as a fresh ObjectId (a requirement of the method); duplicate-key errors on `_id` are not modelled.
- OrdersRoute.ListingIsAPageOfMatches: `parseInt` of non-numeric text (NaN) is not modelled; the parameters are integers or absent. The error text for a negative skip is a constant rather than the server's exact message.
- Sorting.SortDesc: the order among equal keys (MongoDB's tie order) is not specified; the model uses stable insertion.
- DashboardStats: times are integers (milliseconds). Local midnight and the UTC day boundary of `$dateToString` are parameters, not computed from a clock.
- SitemapRoute.DatePart: `toISOString` itself is taken as given; the model starts from the ISO text.
- Realtime: the transport, ping timers, CORS, connection errors and the database connection are not modelled; so are all `console` logging and the `fetch`/`axios` calls, whose answers are parameters.
- CheckoutRoute and DlpayCheckoutRoute: extra JSON keys in request bodies are ignored. Product ids are either text or numbers.
- CallbackRoute.Process: the fallback order fails validation, so the "New order created" branch ends in 500. The model says so rather than creating an order.
- JSON serialisation and parsing are parameters (`stringify`, `parse`) with a round-trip requirement where it matters.
- TopUp.TopUpFlow.Effect: the asynchronous game-details fetch is modelled as completing within the effect (its answer is a parameter). Interleavings with other renders are not modelled.
- TopUp.GameNameById: lookups of inherited object keys (`games["constructor"]`) are not modelled.
- GameState: local storage holds JSON text; the model stores the value it was written from.
- AdminOrdersPage: `fetchOrders`, `fetchGames`, the authentication redirect, the 60-second auto-refresh and the loading flags are not modelled.
- SupportForm.SupportPage.HandleSubmit: the 1500 ms simulated delay and the toast/alert UI are not modelled.
- OrderStore.Find: the Mongo cast of `metadata.orderId` for `_id` is modelled as the 24-hex-digit rule only.
