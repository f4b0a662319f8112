/**
 * The top-up flow: a modal that walks through game, package, verification, payment and
 * confirmation, initialised from the selected game or a game id when it opens.
 */
module TopUp {
  import opened Wrappers
  import opened Text
  import opened GameState

  /** The modal shown for a step. */
  datatype Modal = GameSelection | PackageSelection | Verification | Payment | Confirmation

  const Steps: seq<string> := ["game", "package", "verification", "payment", "confirmation"]
  const UnknownGame := "Unknown Game"

  /** The modal for the current step: nothing while closed or for a step the switch does not know. */
  function View(isOpen: bool, step: string): (m: Option<Modal>)
    ensures m.Some? <==> isOpen && step in Steps
  {
    if !isOpen then None
    else
      match step
      case "game" => Some(GameSelection)
      case "package" => Some(PackageSelection)
      case "verification" => Some(Verification)
      case "payment" => Some(Payment)
      case "confirmation" => Some(Confirmation)
      case _ => None
  }

  /** The step a modal's "next" moves to; the confirmation's "done" closes the flow instead. */
  function Next(m: Modal): Option<string> {
    match m
    case GameSelection => Some("package")
    case PackageSelection => Some("verification")
    case Verification => Some("payment")
    case Payment => Some("confirmation")
    case Confirmation => None
  }

  /** The step a modal's "back" moves to; the first and last modals have no way back. */
  function Back(m: Modal): Option<string> {
    match m
    case GameSelection => None
    case PackageSelection => Some("game")
    case Verification => Some("package")
    case Payment => Some("verification")
    case Confirmation => None
  }

  /** The fallback names of the games the flow knows by id. */
  const KnownGames: map<string, string> := map[
    "mobile-legends" := "Mobile Legends",
    "free-fire" := "Free Fire",
    "clash-of-clans" := "Clash of Clans",
    "magic-chess" := "Magic Chess",
    "league-of-legends" := "League of Legends",
    "pubg-mobile" := "PUBG Mobile",
    "call-of-duty-mobile" := "Call of Duty Mobile",
    "arena-of-valor" := "Arena of Valor",
    "genshin-impact" := "Genshin Impact"
  ]

  /** `getGameNameById`: the selected game's name when the ids agree, else the table, else "Unknown Game". */
  function GameNameById(selected: Option<GameRef>, id: string): (name: Option<string>)
    ensures selected.Some? && selected.value.id == id ==> name == selected.value.name
    ensures !(selected.Some? && selected.value.id == id) ==>
      name.Some? && (name.value == UnknownGame <==> id !in KnownGames)
    ensures !(selected.Some? && selected.value.id == id) && id in KnownGames ==> name == Some(KnownGames[id])
  {
    if selected.Some? && selected.value.id == id then selected.value.name
    else if id in KnownGames then Some(KnownGames[id])
    else Some(UnknownGame)
  }

  // ---- properties ----

  /**
   * Forward moves follow the five steps in order, and "back" undoes "next": from every modal that
   * has both, going on and coming back shows the same modal again.
   */
  lemma StepsChain(i: nat)
    requires i < |Steps|
    ensures View(true, Steps[i]).Some?
    ensures i + 1 < |Steps| ==> Next(View(true, Steps[i]).value) == Some(Steps[i + 1])
    ensures i + 1 == |Steps| ==> Next(View(true, Steps[i]).value).None?
    ensures 0 < i < |Steps| - 1 ==> Back(View(true, Steps[i]).value) == Some(Steps[i - 1])
  {
  }

  lemma BackUndoesNext(m: Modal)
    requires Next(m).Some? && View(true, Next(m).value).Some?
    ensures var n := View(true, Next(m).value).value;
      Back(n).Some? ==> View(true, Back(n).value) == Some(m)
  {
  }

  class TopUpFlow {
    const ctx: GameContext
    var currentStep: string
    var initialized: bool
    var prevOpen: bool

    constructor(ctx: GameContext, isOpen: bool, initialStep: string)
      ensures this.ctx == ctx && currentStep == initialStep && !initialized && prevOpen == isOpen
    {
      this.ctx := ctx;
      currentStep := initialStep;
      initialized := false;
      prevOpen := isOpen;
    }

    /**
     * The effect that runs when the props change. Opening takes the in-progress lock. Opening with
     * a game id selects that game (named by the fetched details, or by `GameNameById` when the fetch
     * failed) and moves to "package"; opening without one moves to "package" only when a game is
     * already selected. Closing clears the initialised flag. The fetch answer is a parameter.
     */
    method Effect(isOpen: bool, gameId: Option<string>, fetchedName: Option<Option<string>>)
      returns (toast: Option<string>)
      modifies this, ctx
      requires ctx.Persisted()
      ensures ctx.Persisted()
      ensures prevOpen == isOpen
      ensures ctx.inProgress == (if isOpen && !old(prevOpen) then true else old(ctx.inProgress))
      ensures isOpen && Truthy(gameId) && !old(initialized) ==>
        var name := if fetchedName.Some? then fetchedName.value else GameNameById(old(ctx.selectedGame), gameId.value);
        ctx.selectedGame == Some(GameRef(gameId.value, name)) && ctx.storedGame == ctx.selectedGame &&
        toast == Some(GameToast(GameRef(gameId.value, name))) &&
        currentStep == "package" && initialized
      ensures isOpen && !Truthy(gameId) && !old(initialized) ==>
        ctx.selectedGame == old(ctx.selectedGame) && toast.None? && initialized &&
        currentStep == (if old(ctx.selectedGame).Some? then "package" else old(currentStep))
      ensures isOpen && old(initialized) ==>
        initialized && currentStep == old(currentStep) && ctx.selectedGame == old(ctx.selectedGame) && toast.None?
      ensures !isOpen ==>
        !initialized && currentStep == old(currentStep) && ctx.selectedGame == old(ctx.selectedGame) && toast.None?
      ensures ctx.userId == old(ctx.userId) && ctx.serverId == old(ctx.serverId)
    {
      toast := None;
      if isOpen && !prevOpen {
        ctx.SetInProgress(true);
      }
      prevOpen := isOpen;
      if isOpen && Truthy(gameId) && !initialized {
        var name := if fetchedName.Some? then fetchedName.value else GameNameById(ctx.selectedGame, gameId.value);
        toast := ctx.SetSelectedGame(Some(GameRef(gameId.value, name)));
        currentStep := "package";
        initialized := true;
      } else if isOpen && !initialized {
        if ctx.selectedGame.Some? {
          currentStep := "package";
        }
        initialized := true;
      } else if !isOpen {
        initialized := false;
      }
    }

    method HandleNext(step: string)
      modifies this
      ensures currentStep == step && initialized == old(initialized) && prevOpen == old(prevOpen)
    {
      currentStep := step;
    }

    /** Closing: the order is reset and the lock released; the step and the selected game stay. */
    method HandleClose()
      modifies ctx
      requires ctx.Persisted()
      ensures ctx.Persisted()
      ensures ctx.userId == "" && ctx.serverId == "" && ctx.selectedPackage.None?
      ensures ctx.paymentMethod.None? && ctx.orderDetails.None? && !ctx.inProgress
      ensures ctx.selectedGame == old(ctx.selectedGame) && ctx.storedGame == old(ctx.storedGame)
    {
      ctx.ResetOrder();
      ctx.SetInProgress(false);
    }
  }
}
