/** The state transitions of the game board: completing a tile, counting slayer tasks, the click
    and unlock handlers, and the state a tile is drawn in. Each handler is a function from the
    component's state cells (a `Board`) to the cells it leaves behind. */
module GameBoard {
  import opened GameTypes
  import opened GameLogic

  /** The gold a completed tile pays, by the difficulty of its task: 100 when there is no task. */
  function GoldForCompletion(task: Option<Task>): (gold: int)
    ensures task.None? ==> gold == 100
    ensures task.Some? ==> gold == match task.value.difficulty
      case Easy => 50
      case Medium => 150
      case Hard => 300
      case Elite => 500
      case Master => 1000
  {
    if task.None? then 100
    else match task.value.difficulty
      case Easy => 50
      case Medium => 150
      case Hard => 300
      case Elite => 500
      case Master => 1000
  }

  /** The task on a tile, if it has one. */
  function TaskOf(state: GameState, tileId: string): Option<Task>
  {
    if tileId in state.tileTasks then Some(state.tileTasks[tileId]) else None
  }

  /** handleCompleteTile's new state: the tile is appended to the completed tiles and the gold of
      its difficulty is added. Nothing else changes: keys stay, and the task's own rewards are
      never read. */
  function CompleteTile(state: GameState, tileId: string): (s: GameState)
    ensures s.completedTiles == state.completedTiles + [tileId]
    ensures s.gold == state.gold + GoldForCompletion(TaskOf(state, tileId))
    ensures s.(completedTiles := state.completedTiles, gold := state.gold) == state
  {
    state.(completedTiles := state.completedTiles + [tileId], gold := state.gold + GoldForCompletion(TaskOf(state, tileId)))
  }

  /** Completing pays between 50 and 1000 gold, and replacing a task's rewards by anything else
      changes nothing: the payout follows the difficulty alone. */
  lemma CompletionIgnoresRewards(state: GameState, tileId: string, rewards: seq<Reward>)
    requires tileId in state.tileTasks
    ensures var other := state.(tileTasks := state.tileTasks[tileId := state.tileTasks[tileId].(rewards := rewards)]);
      CompleteTile(other, tileId).gold == CompleteTile(state, tileId).gold
      && CompleteTile(other, tileId).keys == state.keys
    ensures 50 <= CompleteTile(state, tileId).gold - state.gold <= 1000
  {
    var other := state.(tileTasks := state.tileTasks[tileId := state.tileTasks[tileId].(rewards := rewards)]);
    assert TaskOf(other, tileId).value.difficulty == TaskOf(state, tileId).value.difficulty;
  }

  /** handleCompleteTile does not check that the tile is unprotected: completing twice lists the
      tile twice and pays twice. The guard lives in the click handler and the popup. */
  lemma CompleteTwicePaysTwice(state: GameState, tileId: string)
    ensures var s := CompleteTile(CompleteTile(state, tileId), tileId);
      s.completedTiles == state.completedTiles + [tileId, tileId]
      && s.gold == state.gold + 2 * GoldForCompletion(TaskOf(state, tileId))
  {
    var s1 := CompleteTile(state, tileId);
    assert TaskOf(s1, tileId) == TaskOf(state, tileId);
  }

  /** A slayer master's counter. */
  datatype SlayerMaster = SlayerMaster(name: string, image: string, tasksCompleted: int, requiredTasks: int)

  const SLAYER_MASTER_NAMES: seq<string> := [
    "Turael", "Spria", "Mazchna", "Vannaka", "Chaeldar", "Duradel", "Nieve", "Konar", "Krystilia"]

  function SlayerMasterHead(name: string): string
  {
    "/src/assets/slayer_masters/" + name + "_head.png"
  }

  /** The masters a board starts with: nine, each at 0 of 5 tasks. */
  function InitialSlayerMasters(): (ms: seq<SlayerMaster>)
    ensures |ms| == 9
    ensures forall i :: 0 <= i < |ms| ==>
      ms[i] == SlayerMaster(SLAYER_MASTER_NAMES[i], SlayerMasterHead(SLAYER_MASTER_NAMES[i]), 0, 5)
  {
    seq(|SLAYER_MASTER_NAMES|, i requires 0 <= i < |SLAYER_MASTER_NAMES| =>
      SlayerMaster(SLAYER_MASTER_NAMES[i], SlayerMasterHead(SLAYER_MASTER_NAMES[i]), 0, 5))
  }

  /** The nine names are distinct, so a slayer +1 always addresses exactly one master. */
  lemma SlayerMasterNamesDistinct()
    ensures forall i, j :: 0 <= i < j < |SLAYER_MASTER_NAMES| ==> SLAYER_MASTER_NAMES[i] != SLAYER_MASTER_NAMES[j]
  {
    forall i, j | 0 <= i < j < |SLAYER_MASTER_NAMES|
      ensures SLAYER_MASTER_NAMES[i] != SLAYER_MASTER_NAMES[j]
    {
    }
  }

  /** One master's update: the count goes up by one, and on reaching the required number it resets
      to zero and earns a key. */
  function SlayerStep(m: SlayerMaster): (r: (SlayerMaster, bool))
    ensures r.1 <==> m.tasksCompleted + 1 >= m.requiredTasks
    ensures r.0 == m.(tasksCompleted := if r.1 then 0 else m.tasksCompleted + 1)
  {
    var newCount := m.tasksCompleted + 1;
    if newCount >= m.requiredTasks then (m.(tasksCompleted := 0), true)
    else (m.(tasksCompleted := newCount), false)
  }

  /** The masters after a slayer task for `name`: the step applied to every master of that name. */
  function SlayerMastersAfter(masters: seq<SlayerMaster>, name: string): (r: seq<SlayerMaster>)
    ensures |r| == |masters|
    ensures forall i :: 0 <= i < |masters| ==>
      r[i] == if masters[i].name == name then SlayerStep(masters[i]).0 else masters[i]
  {
    seq(|masters|, i requires 0 <= i < |masters| =>
      if masters[i].name == name then SlayerStep(masters[i]).0 else masters[i])
  }

  /** Some master of that name reaches its required count. */
  predicate EarnsKey(masters: seq<SlayerMaster>, name: string)
  {
    exists i :: 0 <= i < |masters| && masters[i].name == name && SlayerStep(masters[i]).1
  }

  /** The game state after a slayer task: one key more when a master completes its round. Every
      completing master sets the state to the same `keys + 1` computed from the state the handler
      saw, so it is one key however many masters share the name. */
  function SlayerKeysAfter(state: GameState, masters: seq<SlayerMaster>, name: string): (s: GameState)
    ensures s.keys == state.keys + (if EarnsKey(masters, name) then 1 else 0)
    ensures s.(keys := state.keys) == state
  {
    if EarnsKey(masters, name) then state.(keys := state.keys + 1) else state
  }

  /** A counter kept in [0, required) stays there, and only the named master moves. */
  lemma SlayerCounterStaysBelowRequired(masters: seq<SlayerMaster>, name: string)
    requires forall i :: 0 <= i < |masters| ==> 0 <= masters[i].tasksCompleted < masters[i].requiredTasks
    ensures var r := SlayerMastersAfter(masters, name);
      forall i :: 0 <= i < |r| ==>
        0 <= r[i].tasksCompleted < r[i].requiredTasks
        && r[i].name == masters[i].name && r[i].requiredTasks == masters[i].requiredTasks
        && (masters[i].name != name ==> r[i] == masters[i])
  {
  }

  /** The masters after `n` slayer tasks for `name`. */
  function SlayerMastersAfterN(masters: seq<SlayerMaster>, name: string, n: nat): seq<SlayerMaster>
  {
    if n == 0 then masters else SlayerMastersAfter(SlayerMastersAfterN(masters, name, n - 1), name)
  }

  /** For a master of the initial list, tasks one to four earn no key and advance its counter to
      four; the fifth earns one key and resets it. */
  lemma {:induction false} FifthTaskEarnsKey(i: nat, n: nat)
    requires i < 9 && n <= 4
    ensures var m0 := InitialSlayerMasters();
      var mn := SlayerMastersAfterN(m0, m0[i].name, n);
      |mn| == 9 && mn[i] == m0[i].(tasksCompleted := n)
      && (forall j :: 0 <= j < 9 && j != i ==> mn[j] == m0[j])
      && (EarnsKey(mn, m0[i].name) <==> n == 4)
  {
    var m0 := InitialSlayerMasters();
    var name := m0[i].name;
    SlayerMasterNamesDistinct();
    if n > 0 {
      FifthTaskEarnsKey(i, n - 1);
    }
    var mn := SlayerMastersAfterN(m0, name, n);
    if n > 0 {
      var prev := SlayerMastersAfterN(m0, name, n - 1);
      assert mn == SlayerMastersAfter(prev, name);
      assert prev[i].name == name;
      assert mn[i] == SlayerStep(prev[i]).0;
    }
    if n == 4 {
      assert mn[i].name == name && SlayerStep(mn[i]).1;
    }
  }

  /** The state a tile is drawn in. */
  datatype TileState = Locked | UnlockedTile | CompletedTile

  /** Completed wins over unlocked, unlocked over locked. */
  function DeriveTileState(state: GameState, tileId: string): (t: TileState)
    ensures t == CompletedTile <==> tileId in state.completedTiles
    ensures t == UnlockedTile <==> tileId !in state.completedTiles && tileId in state.unlockedTiles
    ensures t == Locked <==> tileId !in state.completedTiles && tileId !in state.unlockedTiles
  {
    if tileId in state.completedTiles then CompletedTile
    else if tileId in state.unlockedTiles then UnlockedTile
    else Locked
  }

  /** The button the expanded tile offers. */
  datatype TileAction = NoAction | OfferComplete | OfferUnlock

  /** Nothing for a completed tile, Complete for an unlocked one, Unlock for a locked one that can
      be unlocked. */
  function OfferedAction(state: GameState, tileId: string): (a: TileAction)
    ensures a == OfferComplete <==> DeriveTileState(state, tileId) == UnlockedTile
    ensures a == OfferUnlock <==> DeriveTileState(state, tileId) == Locked && CanUnlockTile(tileId, state)
  {
    if tileId in state.completedTiles then NoAction
    else if tileId in state.unlockedTiles then OfferComplete
    else if CanUnlockTile(tileId, state) then OfferUnlock
    else NoAction
  }

  /** handleTileClick: without a game or on a completed tile nothing happens; otherwise the tile is
      expanded, or collapsed when it already was. */
  function NextClickedTile(game: Option<GameState>, clicked: Option<string>, tileId: string): (r: Option<string>)
    ensures game.None? || (game.Some? && tileId in game.value.completedTiles) ==> r == clicked
    ensures game.Some? && tileId !in game.value.completedTiles ==>
      (r == None <==> clicked == Some(tileId)) && (r != None ==> r == Some(tileId))
  {
    if game.None? || tileId in game.value.completedTiles then clicked
    else if clicked == Some(tileId) then None
    else Some(tileId)
  }

  /** Clicking a tile twice restores the expansion it had, unless it is completed. */
  lemma ClickTwiceRestores(game: Option<GameState>, clicked: Option<string>, tileId: string)
    requires clicked.None? || clicked == Some(tileId)
    ensures NextClickedTile(game, NextClickedTile(game, clicked, tileId), tileId) == clicked
  {
  }

  /** What handleUnlockTile does to the game: without a game nothing happens; a rejected unlock
      keeps the game and raises the alert with the error; otherwise the game becomes the unlocked
      state. */
  datatype UnlockStep = NoGame | Alerted(error: UnlockError) | Committed(state: GameState)

  function AfterUnlock(game: Option<GameState>, tileId: string): (r: UnlockStep)
    ensures game.None? <==> r.NoGame?
    ensures game.Some? && UnlockTile(tileId, game.value).Rejected? ==>
      r == Alerted(UnlockTile(tileId, game.value).error)
    ensures game.Some? && UnlockTile(tileId, game.value).Unlocked? ==>
      r == Committed(UnlockTile(tileId, game.value).state)
  {
    if game.None? then NoGame
    else
      var outcome := UnlockTile(tileId, game.value);
      if outcome.Rejected? then Alerted(outcome.error) else Committed(outcome.state)
  }

  /** A rejected unlock raises the alert and commits nothing; a committed one has spent a key and
      recorded the tile as unlocked. */
  lemma CommittedUnlockSpendsKey(game: GameState, tileId: string)
    ensures AfterUnlock(Some(game), tileId).Alerted? <==> !CanUnlockTile(tileId, game) || ParseTileId(tileId).None?
    ensures AfterUnlock(Some(game), tileId).Committed? ==> (
      var s := AfterUnlock(Some(game), tileId).state;
      s.keys == game.keys - 1 && tileId in s.unlockedTiles && tileId !in game.unlockedTiles)
  {
  }

  /** The component's state cells, and the two storage slots its handlers write (what
      saveGameState and saveSlayerMasters last stored). */
  datatype Board = Board(
    gameState: Option<GameState>, slayerMasters: seq<SlayerMaster>,
    clickedTile: Option<string>, popupTile: Option<string>, hoverTile: Option<string>,
    alert: Option<UnlockError>, savedGame: Option<GameState>, savedMasters: Option<seq<SlayerMaster>>)

  /** A board before the game loads: no game and the initial masters. */
  function InitialBoard(): (b: Board)
    ensures b.gameState == None && b.slayerMasters == InitialSlayerMasters()
    ensures b.clickedTile == None && b.popupTile == None && b.hoverTile == None && b.alert == None
    ensures b.savedGame == None && b.savedMasters == None
  {
    Board(None, InitialSlayerMasters(), None, None, None, None, None, None)
  }

  /** The tile is collapsed and neither hovered nor in the popup. */
  predicate Collapsed(b: Board)
  {
    b.clickedTile == None && b.popupTile == None && b.hoverTile == None
  }

  /** handleTileClick: only the expanded tile changes. */
  function TileClick(b: Board, tileId: string): (r: Board)
    ensures r == b.(clickedTile := NextClickedTile(b.gameState, b.clickedTile, tileId))
  {
    b.(clickedTile := NextClickedTile(b.gameState, b.clickedTile, tileId))
  }

  /** handleUnlockTile: a committed unlock replaces and saves the game and collapses the tile; a
      rejected one only raises the alert; without a game nothing happens. */
  function UnlockTileAction(b: Board, tileId: string): (r: Board)
    ensures AfterUnlock(b.gameState, tileId).NoGame? ==> r == b
    ensures AfterUnlock(b.gameState, tileId).Alerted? ==>
      r == b.(alert := Some(AfterUnlock(b.gameState, tileId).error))
    ensures AfterUnlock(b.gameState, tileId).Committed? ==> (
      r.gameState == Some(AfterUnlock(b.gameState, tileId).state) && r.savedGame == r.gameState
      && Collapsed(r) && r.alert == b.alert
      && r.slayerMasters == b.slayerMasters && r.savedMasters == b.savedMasters)
  {
    match AfterUnlock(b.gameState, tileId)
    case NoGame => b
    case Alerted(e) => b.(alert := Some(e))
    case Committed(s) =>
      b.(gameState := Some(s), savedGame := Some(s), popupTile := None, clickedTile := None, hoverTile := None)
  }

  /** The handler either keeps the game and raises an alert, or commits and saves what
      unlockTile returned; a rejected attempt never changes the game. */
  lemma UnlockActionKeepsGameOnRejection(b: Board, tileId: string)
    requires b.gameState.Some?
    ensures var r := UnlockTileAction(b, tileId);
      (r.gameState == b.gameState && r.savedGame == b.savedGame && r.alert.Some?)
      || (r.gameState == Some(UnlockTile(tileId, b.gameState.value).state) && r.savedGame == r.gameState)
    ensures UnlockTile(tileId, b.gameState.value).Rejected? ==>
      UnlockTileAction(b, tileId).gameState == b.gameState
  {
  }

  /** handleCompleteTile: the completed state is committed and saved, and the tile collapses. */
  function CompleteTileAction(b: Board, tileId: string): (r: Board)
    ensures b.gameState.None? ==> r == b
    ensures b.gameState.Some? ==> (
      r.gameState == Some(CompleteTile(b.gameState.value, tileId)) && r.savedGame == r.gameState
      && Collapsed(r) && r.alert == b.alert
      && r.slayerMasters == b.slayerMasters && r.savedMasters == b.savedMasters)
  {
    if b.gameState.None? then b
    else
      var s := CompleteTile(b.gameState.value, tileId);
      b.(gameState := Some(s), savedGame := Some(s), popupTile := None, clickedTile := None, hoverTile := None)
  }

  /** handleSlayerTaskComplete: the named master steps and the list is saved; a completed round
      adds one key to the game, which is saved too. */
  function SlayerTaskCompleteAction(b: Board, name: string): (r: Board)
    ensures b.gameState.None? ==> r == b
    ensures b.gameState.Some? ==> (
      r.slayerMasters == SlayerMastersAfter(b.slayerMasters, name) && r.savedMasters == Some(r.slayerMasters)
      && r.gameState == Some(SlayerKeysAfter(b.gameState.value, b.slayerMasters, name))
      && r.savedGame == (if EarnsKey(b.slayerMasters, name) then r.gameState else b.savedGame)
      && r.clickedTile == b.clickedTile && r.popupTile == b.popupTile && r.hoverTile == b.hoverTile
      && r.alert == b.alert)
  {
    if b.gameState.None? then b
    else
      var masters := SlayerMastersAfter(b.slayerMasters, name);
      var b' := b.(slayerMasters := masters, savedMasters := Some(masters));
      if EarnsKey(b.slayerMasters, name) then
        var s := SlayerKeysAfter(b.gameState.value, b.slayerMasters, name);
        b'.(gameState := Some(s), savedGame := Some(s))
      else b'
  }

  /** New games start with all masters at zero, so handling slayer tasks never gives a master a
      count at or above its requirement, and keys only grow. */
  lemma SlayerActionKeepsCountersBelowRequired(b: Board, name: string)
    requires b.gameState.Some?
    requires forall i :: 0 <= i < |b.slayerMasters| ==>
      0 <= b.slayerMasters[i].tasksCompleted < b.slayerMasters[i].requiredTasks
    ensures var r := SlayerTaskCompleteAction(b, name);
      (forall i :: 0 <= i < |r.slayerMasters| ==>
        0 <= r.slayerMasters[i].tasksCompleted < r.slayerMasters[i].requiredTasks)
      && b.gameState.value.keys <= r.gameState.value.keys <= b.gameState.value.keys + 1
  {
    SlayerCounterStaysBelowRequired(b.slayerMasters, name);
  }
}
