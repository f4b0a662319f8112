/**
 * `POST /api/checkout`: validates the request, resolves the game and the package from the catalogue,
 * checks the configuration, asks the payment service for a checkout session and only then records a
 * pending order. The payment service, the clock and the random suffix are parameters.
 */
module CheckoutRoute {
  import opened Wrappers
  import opened Text
  import opened OrderSchema
  import opened OrderStore
  import opened Http

  datatype PlayerInfo = PlayerInfo(userId: Option<string>, serverId: Option<string>)

  datatype CheckoutRequest = CheckoutRequest(gameId: Option<string>, packageId: Option<string>, playerInfo: Option<PlayerInfo>)

  datatype Package = Package(id: ObjectId, name: Option<string>, price: Option<int>, image: Option<string>)

  /**
   * A game document as the route reads it. `packages` is what `game.packages` evaluates to: `None` stands
   * for `undefined`, which is what a document hydrated by the Game schema gives, since that schema
   * declares no `packages` path.
   */
  datatype Game = Game(name: Option<string>, image: Option<string>, packages: Option<seq<Package>>)

  /** Every game as the Game model loads it: without a `packages` path. */
  predicate HydratedByGameSchema(games: map<ObjectId, Game>) {
    forall k :: k in games ==> games[k].packages.None?
  }

  /** The three settings the route reads from the environment. */
  datatype Config = Config(siteUrl: Option<string>, secretKey: Option<string>, apiKey: Option<string>)

  /** What the payment service hands back: the session id and the URL to send the player to. */
  datatype Session = Session(id: Option<string>, checkoutUrl: Option<string>)

  /** The `paymentData` sent to the payment service. */
  datatype PaymentData = PaymentData(
    amount: Option<int>,
    currency: string,
    gameId: string,
    packageId: string,
    packageName: Option<string>,
    packageImage: Option<string>,
    userId: string,
    serverId: string,
    gameName: Option<string>,
    successUrl: string,
    cancelUrl: string)

  datatype Outcome = Outcome(resp: Response, orders: map<ObjectId, Order>, request: Option<PaymentData>)

  const FailedMessage := "Failed to create checkout session"

  /** The TypeError Node raises for `undefined.find(...)`. */
  const UndefinedFind := "Cannot read properties of undefined (reading 'find')"

  /** `packages.find(pkg => pkg._id.toString() === packageId)`: the first package with that id. */
  function FindPackage(packages: seq<Package>, packageId: string): (r: Option<Package>)
    ensures r.Some? ==> r.value in packages && r.value.id == packageId
    ensures r.None? <==> forall i :: 0 <= i < |packages| ==> packages[i].id != packageId
    ensures r.Some? ==> exists i :: 0 <= i < |packages| && packages[i] == r.value
                          && forall j :: 0 <= j < i ==> packages[j].id != packageId
  {
    if packages == [] then None
    else if packages[0].id == packageId then Some(packages[0])
    else
      var r := FindPackage(packages[1..], packageId);
      if r.Some? then
        ghost var i :| 0 <= i < |packages[1..]| && packages[1..][i] == r.value
                       && forall j :: 0 <= j < i ==> packages[1..][j].id != packageId;
        assert packages[i + 1] == r.value;
        r
      else r
  }

  /** `a || b` on optional strings whose result may itself be absent. */
  function Either(a: Option<string>, b: Option<string>): (r: Option<string>)
    ensures Truthy(a) ==> r == a
    ensures !Truthy(a) ==> r == b
  {
    if Truthy(a) then a else b
  }

  /** `ORD-${Date.now()}-${Math.floor(Math.random() * 1000)}`. */
  function CheckoutOrderId(now: nat, rnd: nat): string {
    "ORD-" + NatToString(now) + "-" + NatToString(rnd)
  }

  function PaymentDataOf(gameId: string, packageId: string, game: Game, pkg: Package, player: PlayerInfo, siteUrl: string): PaymentData
    requires player.userId.Some?
  {
    PaymentData(pkg.price, "USD", gameId, packageId, pkg.name, Either(pkg.image, game.image), player.userId.value,
                OrElse(player.serverId, ""), game.name,
                siteUrl + "/payment/success?sessionId={CHECKOUT_SESSION_ID}", siteUrl + "/payment/cancel")
  }

  /** The pending order recorded once the session exists. */
  function Draft(id: ObjectId, gameId: string, packageId: string, game: Game, pkg: Package, player: PlayerInfo,
                 session: Session, now: nat, rnd: nat): Order
  {
    NewOrder(id, now).(
      orderId := Some(CheckoutOrderId(now, rnd)),
      gameId := Some(gameId), gameName := game.name,
      packageId := Some(packageId), packageName := pkg.name,
      amount := pkg.price, price := pkg.price, currency := Some("USD"),
      userId := player.userId, serverId := Some(OrElse(player.serverId, "")),
      paymentMethod := Some("DL_PAY"), paymentStatus := "pending",
      transactionId := session.id)
  }

  /** A request that passed every check: the resolved game and package and the player. */
  datatype Checked = Checked(gameId: string, packageId: string, game: Game, pkg: Package, player: PlayerInfo, siteUrl: string)

  /** The checks up to the configuration, in the route's order: the first that fails gives the response. */
  function Check(games: map<ObjectId, Game>, body: Result<CheckoutRequest, string>, config: Config): (r: Result<Checked, Response>)
    ensures r.Ok? ==> r.value.player.userId.Some? && r.value.game.packages.Some?
                      && r.value.pkg in r.value.game.packages.value
                      && r.value.pkg.id == r.value.packageId
                      && Truthy(config.siteUrl) && Truthy(config.secretKey) && Truthy(config.apiKey)
    ensures r.Err? ==> r.error.status in {400, 404, 500}
  {
    if body.Err? then Err(Response(500, Failed(FailedMessage, body.error)))
    else
      var req := body.value;
      if !Truthy(req.gameId) || !Truthy(req.packageId) || req.playerInfo.None? then
        Err(Response(400, Error("Missing required parameters")))
      else if !Truthy(req.playerInfo.value.userId) then
        Err(Response(400, Error("Missing player user ID")))
      else if CastObjectId(req.gameId.value).None? then
        Err(Response(500, Failed(FailedMessage, CastMessageFor("Game", req.gameId.value))))
      else if CastObjectId(req.gameId.value).value !in games then
        Err(Response(404, Error("Game not found")))
      else
        var game := games[CastObjectId(req.gameId.value).value];
        if game.packages.None? then Err(Response(500, Failed(FailedMessage, UndefinedFind)))
        else
          var pkg := FindPackage(game.packages.value, req.packageId.value);
          if pkg.None? then Err(Response(404, Error("Package not found")))
          else if !Truthy(config.siteUrl) then Err(Response(500, Error("Missing site URL configuration")))
          else if !Truthy(config.secretKey) then Err(Response(500, Error("Missing payment service configuration")))
          else if !Truthy(config.apiKey) then Err(Response(500, Error("Missing payment service API key")))
          else Ok(Checked(req.gameId.value, req.packageId.value, game, pkg.value, req.playerInfo.value, config.siteUrl.value))
  }

  /**
   * The route's whole behaviour. `body` is the parsed body or the parse error; `createCheckout` stands
   * for the payment service; `newId` is the `_id` Mongoose assigns to the new document.
   */
  function CheckoutOutcome(orders: map<ObjectId, Order>, games: map<ObjectId, Game>,
                           body: Result<CheckoutRequest, string>, config: Config,
                           createCheckout: PaymentData -> Result<Session, string>,
                           now: nat, rnd: nat, newId: ObjectId): Outcome
  {
    var checked := Check(games, body, config);
    if checked.Err? then Outcome(checked.error, orders, None)
    else
      var c := checked.value;
      var data := PaymentDataOf(c.gameId, c.packageId, c.game, c.pkg, c.player, c.siteUrl);
      Commit(orders, newId, c.gameId, c.packageId, c.game, c.pkg, c.player, data, createCheckout(data), now, rnd)
  }

  /** From the payment service's answer on: record the pending order, or report the failure. */
  function Commit(orders: map<ObjectId, Order>, newId: ObjectId, gameId: string, packageId: string, game: Game,
                  pkg: Package, player: PlayerInfo, data: PaymentData, session: Result<Session, string>,
                  now: nat, rnd: nat): Outcome
  {
    if session.Err? then Outcome(Response(500, Failed(FailedMessage, session.error)), orders, Some(data))
    else
      var order := Draft(newId, gameId, packageId, game, pkg, player, session.value, now, rnd);
      var err := SaveError(orders, order);
      if err.Some? then Outcome(Response(500, Failed(FailedMessage, err.value)), orders, Some(data))
      else
        Outcome(Response(200, CheckoutCreated(session.value.checkoutUrl, session.value.id, CheckoutOrderId(now, rnd))),
                orders[newId := order], Some(data))
  }

  // ---- properties ----

  /**
   * The checks run in the order parameters, player, game, package list, package, site URL, secret key,
   * API key; every one of them answers before the payment service is called and leaves the store alone.
   */
  lemma ChecksComeFirst(orders: map<ObjectId, Order>, games: map<ObjectId, Game>,
                        body: Result<CheckoutRequest, string>, config: Config,
                        createCheckout: PaymentData -> Result<Session, string>, now: nat, rnd: nat, newId: ObjectId)
    ensures var out := CheckoutOutcome(orders, games, body, config, createCheckout, now, rnd, newId);
      out.request.None? ==> out.orders == orders && out.resp.status != 200
    ensures var out := CheckoutOutcome(orders, games, body, config, createCheckout, now, rnd, newId);
      body.Ok? && (!Truthy(body.value.gameId) || !Truthy(body.value.packageId) || body.value.playerInfo.None?) ==>
        out.resp == Response(400, Error("Missing required parameters"))
    ensures var out := CheckoutOutcome(orders, games, body, config, createCheckout, now, rnd, newId);
      out.request.Some? ==> Truthy(config.siteUrl) && Truthy(config.secretKey) && Truthy(config.apiKey)
  {
  }

  /**
   * The store changes only when the session was created and the save succeeded; then exactly the new
   * document is added, it is pending, carries the session id as its transaction id and charges the
   * package price, and the service was asked for that same price.
   */
  lemma OrderRecordedAfterSession(ids: seq<ObjectId>, orders: map<ObjectId, Order>, games: map<ObjectId, Game>,
                                  body: Result<CheckoutRequest, string>, config: Config,
                                  createCheckout: PaymentData -> Result<Session, string>,
                                  now: nat, rnd: nat, newId: ObjectId)
    requires ValidState(ids, orders) && IsObjectId(newId) && newId !in orders
    ensures var out := CheckoutOutcome(orders, games, body, config, createCheckout, now, rnd, newId);
      (out.orders != orders <==> out.resp.status == 200)
      && (out.resp.status == 200 ==>
        out.request.Some? && createCheckout(out.request.value).Ok?
        && out.orders.Keys == orders.Keys + {newId}
        && var o := out.orders[newId];
        o.paymentStatus == "pending" && o.fulfillmentStatus == "pending"
        && o.transactionId == createCheckout(out.request.value).value.id
        && o.amount == o.price == out.request.value.amount
        && o.currency == Some("USD") && o.paymentMethod == Some("DL_PAY")
        && o.orderId == Some(CheckoutOrderId(now, rnd))
        && out.resp.body.sessionId == o.transactionId
        && ValidState(ids + [newId], out.orders))
  {
    var checked := Check(games, body, config);
    if checked.Ok? {
      var c := checked.value;
      var data := PaymentDataOf(c.gameId, c.packageId, c.game, c.pkg, c.player, c.siteUrl);
      CommitRecords(ids, orders, newId, c.gameId, c.packageId, c.game, c.pkg, c.player, data, createCheckout(data), now, rnd);
    }
  }

  lemma CommitRecords(ids: seq<ObjectId>, orders: map<ObjectId, Order>, newId: ObjectId, gameId: string,
                      packageId: string, game: Game, pkg: Package, player: PlayerInfo, data: PaymentData,
                      session: Result<Session, string>, now: nat, rnd: nat)
    requires ValidState(ids, orders) && IsObjectId(newId) && newId !in orders && data.amount == pkg.price
    ensures var out := Commit(orders, newId, gameId, packageId, game, pkg, player, data, session, now, rnd);
      out.request == Some(data) && (out.orders != orders <==> out.resp.status == 200)
      && (out.resp.status == 200 ==>
        session.Ok? && out.orders.Keys == orders.Keys + {newId}
        && var o := out.orders[newId];
        o.paymentStatus == "pending" && o.fulfillmentStatus == "pending"
        && o.transactionId == session.value.id
        && o.amount == o.price == data.amount
        && o.currency == Some("USD") && o.paymentMethod == Some("DL_PAY")
        && o.orderId == Some(CheckoutOrderId(now, rnd))
        && out.resp.body.sessionId == o.transactionId
        && ValidState(ids + [newId], out.orders))
  {
    if session.Ok? {
      var o := Draft(newId, gameId, packageId, game, pkg, player, session.value, now, rnd);
      if SaveError(orders, o).None? {
        StorePreservesValid(ids, orders, o);
        assert newId in orders[newId := o];
      }
    }
  }

  /**
   * With the catalogue as the Game model loads it, a request that names a stored game fails on
   * `game.packages.find` with a 500, and no request at all reaches the payment service or records an order.
   */
  lemma FoundGameFails(orders: map<ObjectId, Order>, games: map<ObjectId, Game>,
                       body: Result<CheckoutRequest, string>, config: Config,
                       createCheckout: PaymentData -> Result<Session, string>, now: nat, rnd: nat, newId: ObjectId)
    requires HydratedByGameSchema(games)
    ensures var out := CheckoutOutcome(orders, games, body, config, createCheckout, now, rnd, newId);
      out.request.None? && out.orders == orders && out.resp.status != 200
    ensures var out := CheckoutOutcome(orders, games, body, config, createCheckout, now, rnd, newId);
      body.Ok? && Truthy(body.value.gameId) && Truthy(body.value.packageId) && body.value.playerInfo.Some?
      && Truthy(body.value.playerInfo.value.userId) && CastObjectId(body.value.gameId.value).Some?
      && CastObjectId(body.value.gameId.value).value in games ==>
        out.resp == Response(500, Failed(FailedMessage, UndefinedFind))
  {
  }

  /** The generated order id starts with "ORD-", so it is never an ObjectId and never casts as one. */
  lemma CheckoutOrderIdIsNotAnObjectId(now: nat, rnd: nat)
    ensures !IsObjectId(CheckoutOrderId(now, rnd))
    ensures CastObjectId(CheckoutOrderId(now, rnd)).None?
    ensures StartsWith(CheckoutOrderId(now, rnd), "ORD-")
  {
    assert CheckoutOrderId(now, rnd)[0] == 'O';
  }

  /** The package image is used when set, the game image otherwise. */
  lemma ImageFallsBackToGame(gameId: string, packageId: string, game: Game, pkg: Package, player: PlayerInfo, siteUrl: string)
    requires player.userId.Some?
    ensures var d := PaymentDataOf(gameId, packageId, game, pkg, player, siteUrl);
      (Truthy(pkg.image) ==> d.packageImage == pkg.image) && (!Truthy(pkg.image) ==> d.packageImage == game.image)
      && d.amount == pkg.price && d.serverId == OrElse(player.serverId, "") && d.currency == "USD"
  {
  }

  // ---- the handler ----

  method Post(store: Store, games: map<ObjectId, Game>, body: Result<CheckoutRequest, string>, config: Config,
              createCheckout: PaymentData -> Result<Session, string>, now: nat, rnd: nat, newId: ObjectId)
    returns (resp: Response, request: Option<PaymentData>)
    requires store.Valid() && IsObjectId(newId) && newId !in store.orders
    modifies store
    ensures store.Valid()
    ensures Outcome(resp, store.orders, request)
         == CheckoutOutcome(old(store.orders), games, body, config, createCheckout, now, rnd, newId)
  {
    var checked := Check(games, body, config);
    if checked.Err? {
      return checked.error, None;
    }
    var c := checked.value;
    var data := PaymentDataOf(c.gameId, c.packageId, c.game, c.pkg, c.player, c.siteUrl);
    request := Some(data);
    var session := createCheckout(data);
    if session.Err? {
      return Response(500, Failed(FailedMessage, session.error)), request;
    }
    var order := Draft(newId, c.gameId, c.packageId, c.game, c.pkg, c.player, session.value, now, rnd);
    var err := store.Save(order);
    if err.Some? {
      return Response(500, Failed(FailedMessage, err.value)), request;
    }
    resp := Response(200, CheckoutCreated(session.value.checkoutUrl, session.value.id, order.orderId.value));
  }
}
