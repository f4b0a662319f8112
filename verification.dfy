/**
 * The account-verification form, shared by the verification modal of the top-up flow and the
 * stand-alone verify page: the player's game id is always required, the server id only for the
 * games that have servers. Both ids live in the game context; the field errors belong to the form.
 */
module AccountVerification {
  import opened Wrappers
  import opened Text
  import opened GameState

  const ServerIdGames: seq<string> := ["mobile-legends", "magic-chess"]
  const UserIdRequired := "Game ID is required"
  const ServerIdRequired := "Server ID is required"

  /**
   * `needsServerId`: a game is selected and is one of the games with servers. (The modal reads the
   * game's id without the null check, but it renders nothing while no game is selected.)
   */
  predicate NeedsServerId(game: Option<GameRef>) {
    game.Some? && game.value.id in ServerIdGames
  }

  /** The form renders (modal) or stays (page) only while a game and a package are selected. */
  predicate Ready(game: Option<GameRef>, pkg: Option<PackageRef>) {
    game.Some? && pkg.Some?
  }

  /** The verdict of `validateForm` and the two error messages afterwards. */
  datatype Check = Check(ok: bool, userIdError: string, serverIdError: string)

  /**
   * `validateForm`: each failing check sets its own error, neither stops the other, and a passing
   * check leaves its error as it was.
   */
  function Validate(userId: string, serverId: string, game: Option<GameRef>,
                    userIdError: string, serverIdError: string): (c: Check)
    ensures c.ok <==> !IsBlank(userId) && (NeedsServerId(game) ==> !IsBlank(serverId))
    ensures c.userIdError == if IsBlank(userId) then UserIdRequired else userIdError
    ensures c.serverIdError == if NeedsServerId(game) && IsBlank(serverId) then ServerIdRequired else serverIdError
  {
    TrimEmptyIffBlank(userId);
    TrimEmptyIffBlank(serverId);
    var userMissing := Trim(userId) == "";
    var serverMissing := NeedsServerId(game) && Trim(serverId) == "";
    Check(!userMissing && !serverMissing,
      if userMissing then UserIdRequired else userIdError,
      if serverMissing then ServerIdRequired else serverIdError)
  }

  /** One validation reports both missing ids together. */
  lemma BothErrorsAtOnce(userId: string, serverId: string, game: Option<GameRef>, e1: string, e2: string)
    requires IsBlank(userId) && IsBlank(serverId) && NeedsServerId(game)
    ensures var c := Validate(userId, serverId, game, e1, e2);
      !c.ok && c.userIdError == UserIdRequired && c.serverIdError == ServerIdRequired
  {
  }

  /** The server id does not matter for a game without servers. */
  lemma ServerIdIgnoredElsewhere(userId: string, s1: string, s2: string, game: Option<GameRef>, e1: string, e2: string)
    requires !NeedsServerId(game)
    ensures Validate(userId, s1, game, e1, e2) == Validate(userId, s2, game, e1, e2)
  {
  }

  class VerificationForm {
    const ctx: GameContext
    var userIdError: string
    var serverIdError: string

    constructor(ctx: GameContext)
      ensures this.ctx == ctx && userIdError == "" && serverIdError == ""
    {
      this.ctx := ctx;
      userIdError := "";
      serverIdError := "";
    }

    /** Typing a game id stores it in the context and clears its error only. */
    method HandleUserIdChange(value: string)
      modifies this, ctx
      requires ctx.Persisted()
      ensures ctx.Persisted()
      ensures ctx.userId == value && userIdError == ""
      ensures serverIdError == old(serverIdError) && ctx.serverId == old(ctx.serverId)
      ensures ctx.selectedGame == old(ctx.selectedGame) && ctx.selectedPackage == old(ctx.selectedPackage)
    {
      ctx.userId := value;
      userIdError := "";
    }

    /** Typing a server id stores it in the context and clears its error only. */
    method HandleServerIdChange(value: string)
      modifies this, ctx
      requires ctx.Persisted()
      ensures ctx.Persisted()
      ensures ctx.serverId == value && serverIdError == ""
      ensures userIdError == old(userIdError) && ctx.userId == old(ctx.userId)
      ensures ctx.selectedGame == old(ctx.selectedGame) && ctx.selectedPackage == old(ctx.selectedPackage)
    {
      ctx.serverId := value;
      serverIdError := "";
    }

    method ValidateForm() returns (isValid: bool)
      modifies this
      ensures Check(isValid, userIdError, serverIdError)
        == Validate(ctx.userId, ctx.serverId, ctx.selectedGame, old(userIdError), old(serverIdError))
    {
      isValid := true;
      if Trim(ctx.userId) == "" {
        userIdError := UserIdRequired;
        isValid := false;
      }
      if NeedsServerId(ctx.selectedGame) && Trim(ctx.serverId) == "" {
        serverIdError := ServerIdRequired;
        isValid := false;
      }
    }

    /**
     * Submitting: the flow moves on (the modal's `onNext`, the page's navigation to /payment) only
     * when validation passes and the selected game has an id.
     */
    method HandleSubmit() returns (proceed: bool)
      modifies this
      ensures var c := Validate(ctx.userId, ctx.serverId, ctx.selectedGame, old(userIdError), old(serverIdError));
        userIdError == c.userIdError && serverIdError == c.serverIdError &&
        (proceed <==> c.ok && ctx.selectedGame.Some? && ctx.selectedGame.value.id != "")
    {
      var ok := ValidateForm();
      if !ok {
        return false;
      }
      TrimEmptyIffBlank(ctx.userId);
      proceed := ctx.selectedGame.Some? && ctx.selectedGame.value.id != "" && ctx.userId != "";
    }
  }
}
