/**
 * The in-memory game store: a single slot holding the last saved state. In the app the
 * slot is a companion-object field shared by every repository instance; here it is the
 * field of one store object.
 */
module GameRepository {
  import opened Wrappers
  import opened GameStateModel

  /** What `loadGameState(sessionId)` finds in the slot. */
  function Lookup(slot: Option<GameState>, sessionId: string): (r: Option<GameState>)
    ensures r.Some? <==> slot.Some? && slot.value.sessionId == sessionId
    ensures r.Some? ==> r == slot
  {
    if slot.Some? && slot.value.sessionId == sessionId then slot else None
  }

  /** The slot after `deleteGameState(sessionId)`. */
  function AfterDelete(slot: Option<GameState>, sessionId: string): (r: Option<GameState>)
    ensures slot.Some? && slot.value.sessionId == sessionId ==> r == None
    ensures !(slot.Some? && slot.value.sessionId == sessionId) ==> r == slot
  {
    if slot.Some? && slot.value.sessionId == sessionId then None else slot
  }

  /** A saved state is found again under its own session id, and under no other. */
  lemma LookupAfterSave(s: GameState, sessionId: string)
    ensures Lookup(Some(s), s.sessionId) == Some(s)
    ensures sessionId != s.sessionId ==> Lookup(Some(s), sessionId) == None
  {
  }

  /** After a delete nothing is found under the deleted id; an empty slot finds nothing. */
  lemma LookupAfterDelete(slot: Option<GameState>, sessionId: string)
    ensures Lookup(AfterDelete(slot, sessionId), sessionId) == None
    ensures Lookup(None, sessionId) == None
  {
  }

  /** A delete under a foreign id changes nothing, and deleting twice is deleting once. */
  lemma DeleteIsIdempotent(slot: Option<GameState>, sessionId: string)
    ensures AfterDelete(AfterDelete(slot, sessionId), sessionId) == AfterDelete(slot, sessionId)
    ensures Lookup(slot, sessionId).None? ==> AfterDelete(slot, sessionId) == slot
  {
  }

  class GameRepositoryImpl {
    /** `lastGameState`: null until the first save. */
    var lastGameState: Option<GameState>

    constructor ()
      ensures lastGameState == None
    {
      lastGameState := None;
    }

    /** `saveGameState`: overwrites the slot, whatever session it held. */
    method SaveGameState(gameState: GameState)
      modifies this
      ensures lastGameState == Some(gameState)
    {
      lastGameState := Some(gameState);
    }

    /** `loadGameState`: the stored state if its session id matches, otherwise null. */
    method LoadGameState(sessionId: string) returns (r: Option<GameState>)
      ensures r == Lookup(lastGameState, sessionId)
    {
      r := if lastGameState.Some? && lastGameState.value.sessionId == sessionId then lastGameState else None;
    }

    /** `getLastGameState`: the slot as it is. */
    method GetLastGameState() returns (r: Option<GameState>)
      ensures r == lastGameState
    {
      r := lastGameState;
    }

    /** `deleteGameState`: clears the slot only when the session ids match. */
    method DeleteGameState(sessionId: string)
      modifies this
      ensures lastGameState == AfterDelete(old(lastGameState), sessionId)
    {
      if lastGameState.Some? && lastGameState.value.sessionId == sessionId {
        lastGameState := None;
      }
    }
  }

  /** Save, then read back: the last state and a load under its id both return it. */
  method SaveThenLoad(repo: GameRepositoryImpl, s: GameState) returns (last: Option<GameState>, loaded: Option<GameState>)
    modifies repo
    ensures last == Some(s) && loaded == Some(s)
    ensures repo.lastGameState == Some(s)
  {
    repo.SaveGameState(s);
    last := repo.GetLastGameState();
    loaded := repo.LoadGameState(s.sessionId);
    LookupAfterSave(s, s.sessionId);
  }

  /** Two saves leave only the second state, even under different session ids. */
  method SecondSaveOverwrites(repo: GameRepositoryImpl, first: GameState, second: GameState)
    returns (loadedFirst: Option<GameState>)
    requires first.sessionId != second.sessionId
    modifies repo
    ensures repo.lastGameState == Some(second)
    ensures loadedFirst == None
  {
    repo.SaveGameState(first);
    repo.SaveGameState(second);
    loadedFirst := repo.LoadGameState(first.sessionId);
  }
}
