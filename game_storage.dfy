/** The game's persistent store: one slot for the game state and one for the slayer masters, each
    empty or holding the last value written. The operations read the stored game, change fields
    of it and write it back. JSON encoding is not modelled: a slot holds the value itself. */
module GameStorage {
  import opened Strings
  import opened GameTypes
  import GameBoard

  /** The index of the first key source with the id, or the length when there is none
      (`keySources.find(s => s.id === sourceId)`). */
  function FindSource(sources: seq<KeySource>, id: string): (i: nat)
    ensures i <= |sources|
    ensures i < |sources| ==> sources[i].id == id
    ensures forall k :: 0 <= k < i ==> sources[k].id != id
  {
    if sources == [] then 0
    else if sources[0].id == id then 0
    else 1 + FindSource(sources[1..], id)
  }

  /** The source with the id exists and has not been completed yet: marking it pays. */
  predicate PaysOnMark(state: GameState, id: string)
  {
    var i := FindSource(state.keySources, id);
    i < |state.keySources| && !state.keySources[i].completed
  }

  /** markKeySourceCompleted on a loaded state: the first source with the id, when it is not
      completed yet, becomes completed and its keys are added; otherwise nothing changes. */
  function MarkKeySource(state: GameState, id: string): (r: GameState)
    ensures !PaysOnMark(state, id) ==> r == state
    ensures PaysOnMark(state, id) ==> (
      var i := FindSource(state.keySources, id);
      r.keys == state.keys + state.keySources[i].keysRewarded
      && r.keySources == state.keySources[i := state.keySources[i].(completed := true)]
      && r.(keys := state.keys, keySources := state.keySources) == state)
  {
    var i := FindSource(state.keySources, id);
    if i < |state.keySources| && !state.keySources[i].completed then
      state.(
        keySources := state.keySources[i := state.keySources[i].(completed := true)],
        keys := state.keys + state.keySources[i].keysRewarded)
    else state
  }

  /** A key source pays at most once: marking it a second time changes nothing. */
  lemma MarkKeySourceOnce(state: GameState, id: string)
    ensures MarkKeySource(MarkKeySource(state, id), id) == MarkKeySource(state, id)
    ensures !PaysOnMark(MarkKeySource(state, id), id)
  {
    var r := MarkKeySource(state, id);
    if PaysOnMark(state, id) {
      var i := FindSource(state.keySources, id);
      assert forall k :: 0 <= k < |r.keySources| ==> r.keySources[k].id == state.keySources[k].id;
      assert FindSource(r.keySources, id) == i by {
        FindSourceSameIds(state.keySources, r.keySources, id);
      }
    }
  }

  /** The search only looks at the ids. */
  lemma {:induction false} FindSourceSameIds(a: seq<KeySource>, b: seq<KeySource>, id: string)
    requires |a| == |b| && forall k :: 0 <= k < |a| ==> a[k].id == b[k].id
    ensures FindSource(a, id) == FindSource(b, id)
  {
    if a != [] && a[0].id != id {
      FindSourceSameIds(a[1..], b[1..], id);
    }
  }

  /** `gameState?.playerName === playerName.toLowerCase()`. */
  predicate HasExistingGame(stored: Option<GameState>, playerName: string)
  {
    stored.Some? && stored.value.playerName == ToLower(playerName)
  }

  /** A game saved under a name with an upper-case letter is never found, whatever name is asked
      for: the argument is lower-cased and the stored name is not. */
  lemma CapitalisedNameNeverFound(stored: GameState, playerName: string, k: nat)
    requires k < |stored.playerName| && 'A' <= stored.playerName[k] <= 'Z'
    ensures !HasExistingGame(Some(stored), playerName)
  {
    if |ToLower(playerName)| == |stored.playerName| {
      assert ToLower(playerName)[k] == ToLowerChar(playerName[k]);
      assert !('A' <= ToLowerChar(playerName[k]) <= 'Z');
    }
  }

  /** The two storage slots. */
  class Store {
    var gameState: Option<GameState>
    var slayerMasters: Option<seq<GameBoard.SlayerMaster>>

    /** An empty store. */
    constructor ()
      ensures gameState == None && slayerMasters == None
    {
      gameState := None;
      slayerMasters := None;
    }

    /** saveGameState. */
    method SaveGameState(s: GameState)
      modifies this
      ensures gameState == Some(s) && slayerMasters == old(slayerMasters)
    {
      gameState := Some(s);
    }

    /** loadGameState: the last saved state, or nothing. */
    method LoadGameState() returns (s: Option<GameState>)
      ensures s == gameState
    {
      s := gameState;
    }

    /** resetGame: the game slot is emptied; the slayer masters stay. */
    method ResetGame()
      modifies this
      ensures gameState == None && slayerMasters == old(slayerMasters)
    {
      gameState := None;
    }

    /** hasExistingGame. */
    method HasExisting(playerName: string) returns (b: bool)
      ensures b == HasExistingGame(gameState, playerName)
    {
      var s := LoadGameState();
      b := s.Some? && s.value.playerName == ToLower(playerName);
    }

    /** updatePlayerStats: the stored game gets the new stats and the clock reading `now`;
      without a stored game nothing happens. */
    method UpdatePlayerStats(newStats: PlayerStats, now: int)
      modifies this
      ensures old(gameState).None? ==> gameState == None
      ensures old(gameState).Some? ==>
        gameState == Some(old(gameState).value.(playerStats := newStats, lastUpdated := now))
      ensures slayerMasters == old(slayerMasters)
    {
      var s := LoadGameState();
      if s.Some? {
        SaveGameState(s.value.(playerStats := newStats, lastUpdated := now));
      }
    }

    /** addKeys: exactly `amount` more keys in the stored game; without one nothing happens. */
    method AddKeys(amount: int)
      modifies this
      ensures old(gameState).None? ==> gameState == None
      ensures old(gameState).Some? ==> gameState == Some(old(gameState).value.(keys := old(gameState).value.keys + amount))
      ensures slayerMasters == old(slayerMasters)
    {
      var s := LoadGameState();
      if s.Some? {
        SaveGameState(s.value.(keys := s.value.keys + amount));
      }
    }

    /** markKeySourceCompleted: the stored game after marking the source, written back only when
      the mark paid. */
    method MarkKeySourceCompleted(sourceId: string)
      modifies this
      ensures old(gameState).None? ==> gameState == None
      ensures old(gameState).Some? ==> gameState == Some(MarkKeySource(old(gameState).value, sourceId))
      ensures slayerMasters == old(slayerMasters)
    {
      var s := LoadGameState();
      if s.Some? && PaysOnMark(s.value, sourceId) {
        SaveGameState(MarkKeySource(s.value, sourceId));
      }
    }

    /** saveSlayerMasters, under its own key: the game slot is untouched. */
    method SaveSlayerMasters(masters: seq<GameBoard.SlayerMaster>)
      modifies this
      ensures slayerMasters == Some(masters) && gameState == old(gameState)
    {
      slayerMasters := Some(masters);
    }

    /** loadSlayerMasters: the last saved list, or nothing. */
    method LoadSlayerMasters() returns (ms: Option<seq<GameBoard.SlayerMaster>>)
      ensures ms == slayerMasters
    {
      ms := slayerMasters;
    }
  }

  /** Saving then loading returns the saved state, resetting then loading returns nothing, and
      the slayer list round-trips without touching the game. */
  method StoreRoundTrips(s: GameState, masters: seq<GameBoard.SlayerMaster>) returns (loaded: Option<GameState>, afterReset: Option<GameState>, list: Option<seq<GameBoard.SlayerMaster>>)
    ensures loaded == Some(s) && afterReset == None && list == Some(masters)
  {
    var store := new Store();
    store.SaveGameState(s);
    store.SaveSlayerMasters(masters);
    loaded := store.LoadGameState();
    list := store.LoadSlayerMasters();
    store.ResetGame();
    afterReset := store.LoadGameState();
  }

  /** Adding keys twice adds their sum, and marking a key source twice pays it once. */
  method StoreAccumulates(s: GameState, a: int, b: int, id: string) returns (afterKeys: Option<GameState>, afterMarks: Option<GameState>)
    ensures afterKeys == Some(s.(keys := s.keys + a + b))
    ensures afterMarks == Some(MarkKeySource(s, id))
  {
    var store := new Store();
    store.SaveGameState(s);
    store.AddKeys(a);
    store.AddKeys(b);
    afterKeys := store.LoadGameState();
    store.SaveGameState(s);
    store.MarkKeySourceCompleted(id);
    store.MarkKeySourceCompleted(id);
    MarkKeySourceOnce(s, id);
    afterMarks := store.LoadGameState();
  }
}
