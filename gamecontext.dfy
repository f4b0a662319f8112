/**
 * The shared top-up state: the selected game (persisted in the browser's storage), the player ids,
 * the chosen package, payment method and order details, and the in-progress lock.
 */
module GameState {
  import opened Wrappers
  import opened Text

  /** A selected game as the flow stores it: its id and, when known, its display name. */
  datatype GameRef = GameRef(id: string, name: Option<string>)

  /** A selected package; only its name is read here. */
  datatype PackageRef = PackageRef(id: string, name: Option<string>)

  /** The toast shown when a game is selected. */
  function GameToast(g: GameRef): string {
    JsText(g.name) + " selected!"
  }

  function PackageToast(p: PackageRef): string {
    JsText(p.name) + " package selected!"
  }

  class GameContext {
    var selectedGame: Option<GameRef>
    /** The "selectedGame" entry of local storage, as the value it was written from. */
    var storedGame: Option<GameRef>
    var userId: string
    var serverId: string
    var selectedPackage: Option<PackageRef>
    var paymentMethod: Option<string>
    /** The order details object, carried as its JSON text. */
    var orderDetails: Option<string>
    var inProgress: bool

    /** Every game on screen is also in storage, so a reload shows it again. */
    predicate Persisted()
      reads this
    {
      selectedGame.Some? ==> storedGame == selectedGame
    }

    /** A fresh provider: the stored game if there is one, everything else empty. */
    constructor(stored: Option<GameRef>)
      ensures selectedGame == stored && storedGame == stored
      ensures userId == "" && serverId == "" && selectedPackage.None? && paymentMethod.None?
      ensures orderDetails.None? && !inProgress
      ensures Persisted()
    {
      selectedGame := stored;
      storedGame := stored;
      userId := "";
      serverId := "";
      selectedPackage := None;
      paymentMethod := None;
      orderDetails := None;
      inProgress := false;
    }

    /** Clears the order in progress and releases the lock; the selected game stays. */
    method ResetOrder()
      modifies this
      requires Persisted()
      ensures userId == "" && serverId == ""
      ensures selectedPackage.None? && paymentMethod.None? && orderDetails.None? && !inProgress
      ensures selectedGame == old(selectedGame) && storedGame == old(storedGame)
      ensures Persisted()
    {
      userId := "";
      serverId := "";
      selectedPackage := None;
      paymentMethod := None;
      orderDetails := None;
      inProgress := false;
    }

    /** Forgets the selected game, on screen and in storage. */
    method ClearSelectedGame()
      modifies this
      ensures selectedGame.None? && storedGame.None?
      ensures userId == old(userId) && serverId == old(serverId) && selectedPackage == old(selectedPackage)
      ensures paymentMethod == old(paymentMethod) && orderDetails == old(orderDetails) && inProgress == old(inProgress)
      ensures Persisted()
    {
      selectedGame := None;
      storedGame := None;
    }

    /**
     * Selects a game: a game is persisted and announced with a toast; null only clears the screen
     * and leaves the stored copy in place.
     */
    method SetSelectedGame(game: Option<GameRef>) returns (toast: Option<string>)
      modifies this
      requires Persisted()
      ensures selectedGame == game
      ensures storedGame == if game.Some? then game else old(storedGame)
      ensures toast == if game.Some? then Some(GameToast(game.value)) else None
      ensures userId == old(userId) && serverId == old(serverId) && selectedPackage == old(selectedPackage)
      ensures paymentMethod == old(paymentMethod) && orderDetails == old(orderDetails) && inProgress == old(inProgress)
      ensures Persisted()
    {
      selectedGame := game;
      toast := None;
      if game.Some? {
        storedGame := game;
        toast := Some(GameToast(game.value));
      }
    }

    method SetSelectedPackage(pkg: Option<PackageRef>) returns (toast: Option<string>)
      modifies this
      requires Persisted()
      ensures selectedPackage == pkg
      ensures toast == if pkg.Some? then Some(PackageToast(pkg.value)) else None
      ensures selectedGame == old(selectedGame) && storedGame == old(storedGame)
      ensures userId == old(userId) && serverId == old(serverId)
      ensures paymentMethod == old(paymentMethod) && orderDetails == old(orderDetails) && inProgress == old(inProgress)
      ensures Persisted()
    {
      selectedPackage := pkg;
      toast := if pkg.Some? then Some(PackageToast(pkg.value)) else None;
    }

    method SetInProgress(b: bool)
      modifies this
      requires Persisted()
      ensures inProgress == b
      ensures selectedGame == old(selectedGame) && storedGame == old(storedGame)
      ensures userId == old(userId) && serverId == old(serverId) && selectedPackage == old(selectedPackage)
      ensures paymentMethod == old(paymentMethod) && orderDetails == old(orderDetails)
      ensures Persisted()
    {
      inProgress := b;
    }
  }

  /**
   * Deselecting with null does not survive a reload: a provider built from storage afterwards shows
   * the previously selected game again. Only clearing forgets it.
   */
  method DeselectThenReload(g: GameRef) returns (reloaded: GameContext)
    ensures reloaded.selectedGame == Some(g)
  {
    var ctx := new GameContext(None);
    var _ := ctx.SetSelectedGame(Some(g));
    var _ := ctx.SetSelectedGame(None);
    assert ctx.selectedGame.None?;
    reloaded := new GameContext(ctx.storedGame);
  }

  /** After clearing, a reload starts with no game. */
  method ClearThenReload(g: GameRef) returns (reloaded: GameContext)
    ensures reloaded.selectedGame.None?
  {
    var ctx := new GameContext(None);
    var _ := ctx.SetSelectedGame(Some(g));
    ctx.ClearSelectedGame();
    reloaded := new GameContext(ctx.storedGame);
  }
}
