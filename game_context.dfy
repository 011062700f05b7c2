/**
 * The game overlay shared through React context (GameContext.tsx): whether the
 * game is open, whether the work it covers is still loading, the loading text,
 * and the callback to run with the final score.
 */
module GameContext {
  import opened Common

  const DefaultLoadingText := "Loading..."

  /** A callback, identified by the caller that supplied it. */
  datatype Callback = Callback(id: nat)

  /** A call of a callback outside the game: React runs a function handed to a
      state setter as an updater, at once, with the previous state as argument. */
  datatype Invocation = UpdaterCall(callback: Callback, previous: Option<Callback>)

  /** What `setOnGameComplete(onComplete)` stores: nothing for no callback;
      otherwise the updater's return value, which for a `(score) => void`
      callback is `undefined`. */
  function StoredCallback(onComplete: Option<Callback>, returned: Option<Callback>): Option<Callback> {
    if onComplete.Some? then returned else None
  }

  /** A callback that returns nothing is never kept: after openGame no callback
      is stored, whichever one was passed, so the game end cannot reach it;
      storing it would need `setOnGameComplete(() => onComplete)`. */
  lemma VoidCallbackIsDropped(onComplete: Option<Callback>)
    ensures StoredCallback(onComplete, None).None?
    ensures onComplete.Some? ==> StoredCallback(onComplete, None) != onComplete
  {
  }

  /** The provider's four state values. */
  class GameProvider {
    var isGameOpen: bool
    var isGameLoading: bool
    var gameLoadingText: string
    var onGameComplete: Option<Callback>
    /** The callbacks run as state updaters, in order. */
    var invocations: seq<Invocation>

    /** The state a provider starts in, and the one closeGame returns to. */
    predicate IsInitial()
      reads this
    {
      !isGameOpen && !isGameLoading && gameLoadingText == DefaultLoadingText && onGameComplete.None?
    }

    constructor ()
      ensures IsInitial() && invocations == []
    {
      isGameOpen := false;
      isGameLoading := false;
      gameLoadingText := DefaultLoadingText;
      onGameComplete := None;
      invocations := [];
    }

    /** openGame: an omitted loading flag means loading and an omitted text means
        'Loading...'. A callback given to `setOnGameComplete` runs at once as a
        React updater with the previous callback as its argument, and what it
        returns (`returned`) is stored; without one, nothing is stored. */
    method OpenGame(loadingState: Option<bool>, loadingText: Option<string>, onComplete: Option<Callback>,
                    returned: Option<Callback>)
      modifies this
      ensures isGameOpen
      ensures isGameLoading == loadingState.GetOr(true)
      ensures gameLoadingText == loadingText.GetOr(DefaultLoadingText)
      ensures onComplete.None? ==> onGameComplete.None? && invocations == old(invocations)
      ensures onComplete.Some? ==>
        && onGameComplete == returned
        && invocations == old(invocations) + [UpdaterCall(onComplete.value, old(onGameComplete))]
    {
      isGameLoading := loadingState.GetOr(true);
      gameLoadingText := loadingText.GetOr(DefaultLoadingText);
      if onComplete.Some? {
        invocations := invocations + [UpdaterCall(onComplete.value, onGameComplete)];
      }
      onGameComplete := StoredCallback(onComplete, returned);
      isGameOpen := true;
    }

    /** closeGame: back to exactly the initial state. */
    method CloseGame()
      modifies `isGameOpen, `isGameLoading, `gameLoadingText, `onGameComplete
      ensures IsInitial()
    {
      isGameOpen := false;
      isGameLoading := false;
      gameLoadingText := DefaultLoadingText;
      onGameComplete := None;
    }

    /** setGameLoading: only the loading flag changes. */
    method SetGameLoading(loading: bool)
      modifies `isGameLoading
      ensures isGameLoading == loading
    {
      isGameLoading := loading;
    }
  }

  /** useGame: the provider's value, or the error thrown outside a provider. */
  function UseGame(context: Option<GameProvider>): (r: Result<GameProvider, string>)
    ensures r.Success? <==> context.Some?
    ensures r.Success? ==> r.value == context.value
    ensures r.Failure? ==> r.error == "useGame must be used within a GameProvider"
  {
    match context
    case None => Failure("useGame must be used within a GameProvider")
    case Some(p) => Success(p)
  }
}
