/** The grid engine (gameLogic): which tiles are visible, when a tile may be unlocked and what
    unlocking does, the initial game state, and the batch that pre-generates a task for every tile
    near the unlocked region with its duplicate-retry loop. */
module GameLogic {
  import opened Strings
  import opened GameTypes
  import OtherTaskGenerator

  /** The origin tile's key. */
  const ORIGIN: string := "0,0"

  /** The parser used for tile ids: split on ',', read `parts[i] || '0'` with `parseInt`, and reject
      the id when either coordinate is NaN. A missing or empty coordinate reads as 0. */
  function ParseTileId(id: string): Option<Position>
  {
    var parts := Split(id, ',');
    var xs := if parts[0] == "" then "0" else parts[0];
    var ys := if |parts| < 2 || parts[1] == "" then "0" else parts[1];
    match (ParseInt(xs), ParseInt(ys))
    case (Num(x), Num(y)) => Some(Pos(x, y))
    case _ => None
  }

  /** Every canonical key parses back to its position. */
  lemma ParseTileKey(p: Position)
    ensures ParseTileId(TileKey(p)) == Some(p)
  {
    SplitAtFirst(IntToString(p.x), ',', IntToString(p.y));
    SplitNoSeparator(IntToString(p.y), ',');
    assert Split(TileKey(p), ',') == [IntToString(p.x), IntToString(p.y)];
    IntToStringRoundTrip(p.x);
    IntToStringRoundTrip(p.y);
  }

  /** The parser is lenient: ids that are not canonical keys can parse too ("" reads as the origin). */
  lemma EmptyIdIsOrigin()
    ensures ParseTileId("") == Some(Pos(0, 0))
  {
    assert Split("", ',') == [""];
    ParseIntOfDigits("0");
  }

  /** Four-neighbourhood: the positions one step right, left, down or up. */
  predicate Adjacent(p: Position, q: Position)
  {
    (p.y == q.y && (q.x == p.x + 1 || q.x == p.x - 1)) || (p.x == q.x && (q.y == p.y + 1 || q.y == p.y - 1))
  }

  /** getNeighborPositions: right, left, bottom, top. */
  function GetNeighborPositions(p: Position): (r: seq<Position>)
    ensures |r| == 4
    ensures forall q :: q in r <==> Adjacent(p, q)
    ensures forall i, j :: 0 <= i < j < |r| ==> r[i] != r[j]
  {
    [Pos(p.x + 1, p.y), Pos(p.x - 1, p.y), Pos(p.x, p.y + 1), Pos(p.x, p.y - 1)]
  }

  /** The positions of the unlocked ids that parse, in list order (the first loop of
      generateVisibleTiles). */
  function ParsedPositions(ids: seq<string>): seq<Position>
    decreases |ids|
  {
    if ids == [] then []
    else
      var rest := ParsedPositions(ids[..|ids| - 1]);
      match ParseTileId(ids[|ids| - 1])
      case Some(p) => rest + [p]
      case None => rest
  }

  lemma {:induction false} ParsedPositionsMember(ids: seq<string>, id: string)
    requires id in ids && ParseTileId(id).Some?
    ensures ParseTileId(id).value in ParsedPositions(ids)
    decreases |ids|
  {
    if id != ids[|ids| - 1] {
      assert id in ids[..|ids| - 1];
      ParsedPositionsMember(ids[..|ids| - 1], id);
    }
  }

  lemma {:induction false} ParsedPositionsParse(ids: seq<string>, p: Position)
    requires p in ParsedPositions(ids)
    ensures exists id :: id in ids && ParseTileId(id) == Some(p)
    decreases |ids|
  {
    var last := ids[|ids| - 1];
    if ParseTileId(last) == Some(p) {
      assert last in ids;
    } else {
      ParsedPositionsParse(ids[..|ids| - 1], p);
      var id :| id in ids[..|ids| - 1] && ParseTileId(id) == Some(p);
      assert id in ids;
    }
  }

  /** The unlocked ids that parse (the `processed` set after the first loop). */
  ghost function ParsedIds(ids: seq<string>): set<string>
    decreases |ids|
  {
    if ids == [] then {}
    else ParsedIds(ids[..|ids| - 1]) + (if ParseTileId(ids[|ids| - 1]).Some? then {ids[|ids| - 1]} else {})
  }

  lemma {:induction false} ParsedIdsMember(ids: seq<string>, id: string)
    requires id in ParsedIds(ids)
    ensures id in ids && ParseTileId(id).Some?
    decreases |ids|
  {
    if id in ParsedIds(ids[..|ids| - 1]) {
      ParsedIdsMember(ids[..|ids| - 1], id);
      assert id in ids[..|ids| - 1];
    }
  }

  lemma {:induction false} ParsedIdsComplete(ids: seq<string>, id: string)
    requires id in ids && ParseTileId(id).Some?
    ensures id in ParsedIds(ids)
    decreases |ids|
  {
    if id != ids[|ids| - 1] {
      assert id in ids[..|ids| - 1];
      ParsedIdsComplete(ids[..|ids| - 1], id);
    }
  }

  /** One more id extends the parsed positions and ids by that id's parse, if any. */
  lemma ParsedStep(ids: seq<string>, i: nat)
    requires i < |ids|
    ensures ParsedPositions(ids[..i + 1])
      == ParsedPositions(ids[..i]) + (if ParseTileId(ids[i]).Some? then [ParseTileId(ids[i]).value] else [])
    ensures ParsedIds(ids[..i + 1]) == ParsedIds(ids[..i]) + (if ParseTileId(ids[i]).Some? then {ids[i]} else {})
  {
    assert ids[..i + 1][..i] == ids[..i];
  }

  /** The tiles the board shows: the origin alone while nothing is unlocked, otherwise every parsed
      unlocked position and every neighbour of one. */
  ghost predicate IsVisible(unlocked: seq<string>, q: Position)
  {
    if unlocked == [] then q == Pos(0, 0)
    else q in ParsedPositions(unlocked) || exists p :: p in ParsedPositions(unlocked) && Adjacent(p, q)
  }

  /** The keys of a list of positions. */
  ghost function KeySet(ps: seq<Position>): set<string>
  {
    set e | e in ps :: TileKey(e)
  }

  lemma KeySetAppend(a: seq<Position>, b: seq<Position>)
    ensures KeySet(a + b) == KeySet(a) + KeySet(b)
  {
  }

  /** What the second pass of generateVisibleTiles has appended so far: distinct positions, none
      keyed by a parsed unlocked id, each next to a parsed position. */
  ghost predicate AddedNeighbors(ps: seq<Position>, ids: set<string>, extra: seq<Position>)
  {
    NoDuplicates(extra)
    && forall e :: e in extra ==> TileKey(e) !in ids && exists p :: p in ps && Adjacent(p, e)
  }

  /** A canonical key always parses, so one missing from the parsed ids is not unlocked at all. */
  lemma UnparsedKeyNotUnlocked(unlocked: seq<string>, e: Position)
    requires TileKey(e) !in ParsedIds(unlocked)
    ensures TileKey(e) !in unlocked
  {
    ParseTileKey(e);
    if TileKey(e) in unlocked {
      ParsedIdsComplete(unlocked, TileKey(e));
    }
  }

  /** A position whose key was already processed is already listed. */
  lemma SeenIsListed(unlocked: seq<string>, extra: seq<Position>, q: Position)
    requires TileKey(q) in ParsedIds(unlocked) + KeySet(extra)
    ensures q in ParsedPositions(unlocked) + extra
  {
    if TileKey(q) in ParsedIds(unlocked) {
      ParsedIdsMember(unlocked, TileKey(q));
      ParseTileKey(q);
      ParsedPositionsMember(unlocked, TileKey(q));
    } else {
      var e :| e in extra && TileKey(e) == TileKey(q);
      TileKeyInjective(e, q);
    }
  }

  lemma AddedNeighborsAppend(ps: seq<Position>, ids: set<string>, extra: seq<Position>, added: seq<Position>, p: Position)
    requires AddedNeighbors(ps, ids, extra) && p in ps
    requires NoDuplicates(added)
    requires forall e :: e in added ==> Adjacent(p, e) && TileKey(e) !in ids + KeySet(extra)
    ensures AddedNeighbors(ps, ids, extra + added)
  {
    forall a, b | 0 <= a < b < |extra + added|
      ensures (extra + added)[a] != (extra + added)[b]
    {
      if a < |extra| && b >= |extra| {
        assert TileKey((extra + added)[a]) in KeySet(extra);
        assert (extra + added)[b] in added;
      }
    }
  }

  /** With every parsed position's neighbours listed, the list is exactly the visible set. */
  lemma VisibleIsExact(unlocked: seq<string>, extra: seq<Position>)
    requires unlocked != []
    requires forall e :: e in extra ==> exists p :: p in ParsedPositions(unlocked) && Adjacent(p, e)
    requires forall p, q :: p in ParsedPositions(unlocked) && Adjacent(p, q) ==> q in ParsedPositions(unlocked) + extra
    ensures forall q :: q in ParsedPositions(unlocked) + extra <==> IsVisible(unlocked, q)
  {
  }

  /** The inner loop of the second pass of generateVisibleTiles: appends each neighbour of `p`
      whose key is not processed yet and marks its key processed. Afterwards every neighbour was
      either appended now or already processed. */
  method AddUnseenNeighbors(p: Position, visible: seq<Position>, processed: set<string>)
    returns (visible': seq<Position>, processed': set<string>, ghost added: seq<Position>)
    ensures visible' == visible + added
    ensures processed' == processed + KeySet(added)
    ensures NoDuplicates(added)
    ensures forall e :: e in added ==> Adjacent(p, e) && TileKey(e) !in processed
    ensures forall q :: Adjacent(p, q) ==> q in added || TileKey(q) in processed
  {
    var neighbors := GetNeighborPositions(p);
    visible', processed', added := visible, processed, [];
    for j := 0 to 4
      invariant visible' == visible + added
      invariant processed' == processed + KeySet(added)
      invariant NoDuplicates(added)
      invariant forall e :: e in added ==> Adjacent(p, e) && TileKey(e) !in processed
      invariant forall k :: 0 <= k < j ==> neighbors[k] in added || TileKey(neighbors[k]) in processed
    {
      var n := neighbors[j];
      var nid := TileKey(n);
      if nid !in processed' {
        KeySetAppend(added, [n]);
        visible' := visible' + [n];
        processed' := processed' + {nid};
        added := added + [n];
      } else if nid !in processed {
        ghost var e :| e in added && TileKey(e) == nid;
        TileKeyInjective(e, n);
      }
    }
  }

  /** The first loop of generateVisibleTiles: the positions of the unlocked ids that parse, in
      order, and the set of those ids. */
  method ListUnlockedPositions(unlocked: seq<string>) returns (visible: seq<Position>, processed: set<string>)
    ensures visible == ParsedPositions(unlocked)
    ensures processed == ParsedIds(unlocked)
  {
    visible := [];
    processed := {};
    for i := 0 to |unlocked|
      invariant visible == ParsedPositions(unlocked[..i])
      invariant processed == ParsedIds(unlocked[..i])
    {
      var id := unlocked[i];
      var parsed := ParseTileId(id);
      ParsedStep(unlocked, i);
      if parsed.Some? {
        visible := visible + [parsed.value];
        processed := processed + {id};
      }
    }
    assert unlocked[..|unlocked|] == unlocked;
  }

  /** The second loop of generateVisibleTiles: for each unlocked id that parses, appends the
      neighbours whose key is not processed yet. Every neighbour of a parsed position ends up
      listed; what is appended is distinct, keyed by no parsed id, and next to a parsed position. */
  method AppendNeighbors(unlocked: seq<string>, ps: seq<Position>, processed: set<string>)
    returns (visible: seq<Position>, ghost extra: seq<Position>)
    requires ps == ParsedPositions(unlocked) && processed == ParsedIds(unlocked)
    ensures visible == ps + extra
    ensures AddedNeighbors(ps, processed, extra)
    ensures forall p, q :: p in ps && Adjacent(p, q) ==> q in visible
  {
    ghost var ids := processed;
    var seen := processed;
    visible := ps;
    extra := [];
    for i := 0 to |unlocked|
      invariant visible == ps + extra
      invariant seen == ids + KeySet(extra)
      invariant AddedNeighbors(ps, ids, extra)
      invariant forall p, q :: p in ParsedPositions(unlocked[..i]) && Adjacent(p, q) ==> q in visible
    {
      var id := unlocked[i];
      var parsed := ParseTileId(id);
      ParsedStep(unlocked, i);
      if parsed.Some? {
        var p := parsed.value;
        ParsedPositionsMember(unlocked, id);
        ghost var added;
        visible, seen, added := AddUnseenNeighbors(p, visible, seen);
        forall q | Adjacent(p, q)
          ensures q in visible
        {
          if q !in added {
            SeenIsListed(unlocked, extra, q);
          }
        }
        AddedNeighborsAppend(ps, ids, extra, added, p);
        KeySetAppend(extra, added);
        extra := extra + added;
      }
    }
    assert unlocked[..|unlocked|] == unlocked;
  }

  /** generateVisibleTiles: the origin alone when nothing is unlocked; otherwise the parsed unlocked
      positions in order (repeats kept), followed by each of their neighbours whose key was not yet
      seen, once each and never one whose key is an unlocked id. The seen set holds the raw ids, so
      a non-canonical id such as "01,0" does not stop its position from being listed again as a
      neighbour. */
  method GenerateVisibleTiles(unlocked: seq<string>) returns (visible: seq<Position>)
    ensures unlocked == [] ==> visible == [Pos(0, 0)]
    ensures forall q :: q in visible <==> IsVisible(unlocked, q)
    ensures unlocked != [] ==> var ps := ParsedPositions(unlocked);
      |ps| <= |visible| && visible[..|ps|] == ps
      && (forall i, j :: |ps| <= i < j < |visible| ==> visible[i] != visible[j])
      && (forall i :: |ps| <= i < |visible| ==> TileKey(visible[i]) !in unlocked)
  {
    if |unlocked| == 0 {
      return [Pos(0, 0)];
    }
    var ps, processed := ListUnlockedPositions(unlocked);
    ghost var extra;
    visible, extra := AppendNeighbors(unlocked, ps, processed);
    VisibleIsExact(unlocked, extra);
    forall e | e in extra
      ensures TileKey(e) !in unlocked
    {
      UnparsedKeyNotUnlocked(unlocked, e);
    }
    assert visible[..|ps|] == ps;
    forall i, j | |ps| <= i < j < |visible|
      ensures visible[i] != visible[j]
    {
      assert visible[i] == extra[i - |ps|] && visible[j] == extra[j - |ps|];
    }
    forall i | |ps| <= i < |visible|
      ensures TileKey(visible[i]) !in unlocked
    {
      assert visible[i] == extra[i - |ps|];
    }
  }

  /** canUnlockTile: a tile may be unlocked when it is not unlocked yet and a key is available. */
  predicate CanUnlockTile(tileId: string, state: GameState)
  {
    tileId !in state.unlockedTiles && state.keys >= 1
  }

  /** The two errors unlockTile throws. */
  datatype UnlockError = CannotUnlock | InvalidTileId

  datatype UnlockOutcome = Unlocked(state: GameState) | Rejected(error: UnlockError)

  predicate NoDuplicates<T(==)>(s: seq<T>)
  {
    forall i, j :: 0 <= i < j < |s| ==> s[i] != s[j]
  }

  /** `set.add(x)` on an insertion-ordered set. */
  function AddUnique(s: seq<string>, x: string): (r: seq<string>)
    ensures NoDuplicates(s) ==> NoDuplicates(r)
    ensures forall y :: y in r <==> y in s || y == x
  {
    if x in s then s else s + [x]
  }

  /** Adding the elements of `xs`, in order, to an insertion-ordered set. */
  function AddAllUnique(s: seq<string>, xs: seq<string>): (r: seq<string>)
    ensures NoDuplicates(s) ==> NoDuplicates(r)
    ensures forall y :: y in r <==> y in s || y in xs
    decreases |xs|
  {
    if xs == [] then s
    else
      var r := AddAllUnique(AddUnique(s, xs[0]), xs[1..]);
      assert forall y :: y in xs <==> y == xs[0] || y in xs[1..];
      r
  }

  /** `Array.from(new Set(s))`: the first occurrence of each element, in order. */
  function Dedup(s: seq<string>): (r: seq<string>)
    ensures NoDuplicates(r)
    ensures forall y :: y in r <==> y in s
    ensures NoDuplicates(s) ==> r == s
  {
    DedupKeepsDistinct(s);
    AddAllUnique([], s)
  }

  lemma {:induction false} AddAllDistinct(s: seq<string>, xs: seq<string>)
    requires NoDuplicates(s + xs)
    ensures AddAllUnique(s, xs) == s + xs
    decreases |xs|
  {
    if xs != [] {
      assert xs[0] !in s by {
        assert (s + xs)[|s|] == xs[0];
        assert forall k :: 0 <= k < |s| ==> (s + xs)[k] == s[k];
      }
      assert s + xs == (s + [xs[0]]) + xs[1..];
      AddAllDistinct(s + [xs[0]], xs[1..]);
    }
  }

  lemma DedupKeepsDistinct(s: seq<string>)
    ensures NoDuplicates(s) ==> AddAllUnique([], s) == s
  {
    if NoDuplicates(s) {
      assert [] + s == s;
      AddAllDistinct([], s);
    }
  }

  /** Adding elements keeps what was there first, in front. */
  lemma {:induction false} AddAllUniqueKeepsPrefix(s: seq<string>, xs: seq<string>)
    ensures |s| <= |AddAllUnique(s, xs)| && AddAllUnique(s, xs)[..|s|] == s
    decreases |xs|
  {
    if xs != [] {
      var t := AddUnique(s, xs[0]);
      assert |s| <= |t| && t[..|s|] == s;
      AddAllUniqueKeepsPrefix(t, xs[1..]);
      var r := AddAllUnique(s, xs);
      assert r[..|s|] == r[..|t|][..|s|];
    }
  }

  /** Adding `xs + ys` is adding `xs`, then `ys`. */
  lemma {:induction false} AddAllUniqueAppend(s: seq<string>, xs: seq<string>, ys: seq<string>)
    ensures AddAllUnique(s, xs + ys) == AddAllUnique(AddAllUnique(s, xs), ys)
    decreases |xs|
  {
    if xs == [] {
      assert xs + ys == ys;
    } else {
      assert (xs + ys)[1..] == xs[1..] + ys;
      AddAllUniqueAppend(AddUnique(s, xs[0]), xs[1..], ys);
    }
  }

  /** Adding the first `i + 1` elements is adding the first `i`, then one more `set.add`. */
  lemma PrefixAddStep(s: seq<string>, xs: seq<string>, i: nat, cur: seq<string>)
    requires i < |xs| && cur == AddAllUnique(s, xs[..i])
    ensures AddAllUnique(s, xs[..i + 1]) == if xs[i] in cur then cur else cur + [xs[i]]
  {
    assert xs[..i + 1] == xs[..i] + [xs[i]];
    AddAllUniqueSnoc(s, xs[..i], xs[i]);
  }

  /** Adding one more element last is one more `set.add`. */
  lemma AddAllUniqueSnoc(s: seq<string>, xs: seq<string>, x: string)
    ensures AddAllUnique(s, xs + [x]) == AddUnique(AddAllUnique(s, xs), x)
  {
    AddAllUniqueAppend(s, xs, [x]);
    assert [x][1..] == [];
  }

  /** The keys of the four neighbours, in getNeighborPositions order. */
  function NeighborKeys(p: Position): (r: seq<string>)
    ensures forall k :: k in r <==> exists q :: Adjacent(p, q) && k == TileKey(q)
  {
    var ns := GetNeighborPositions(p);
    assert forall q :: Adjacent(p, q) ==> q == ns[0] || q == ns[1] || q == ns[2] || q == ns[3];
    [TileKey(ns[0]), TileKey(ns[1]), TileKey(ns[2]), TileKey(ns[3])]
  }

  lemma NeighborKeyAt(p: Position, j: nat)
    requires j < 4
    ensures |NeighborKeys(p)| == 4 && NeighborKeys(p)[j] == TileKey(GetNeighborPositions(p)[j])
  {
  }

  /** The neighbour keys of every position of `vs`, tile by tile, in the order
      getNeighborPositions lists them. */
  function AllNeighborKeys(vs: seq<Position>): (r: seq<string>)
    ensures |r| == 4 * |vs|
  {
    if vs == [] then [] else AllNeighborKeys(vs[..|vs| - 1]) + NeighborKeys(vs[|vs| - 1])
  }

  lemma AllNeighborKeysStep(vs: seq<Position>, i: nat)
    requires i < |vs|
    ensures AllNeighborKeys(vs[..i + 1]) == AllNeighborKeys(vs[..i]) + NeighborKeys(vs[i])
  {
    assert vs[..i + 1][..i] == vs[..i];
  }

  /** unlockTile: refuses with CannotUnlock unless canUnlockTile holds, then with InvalidTileId when
      the id does not parse. Otherwise spends one key, appends the id to the unlocked tiles and
      makes the tile's four neighbours visible; nothing else changes. */
  function UnlockTile(tileId: string, state: GameState): (r: UnlockOutcome)
    ensures !CanUnlockTile(tileId, state) ==> r == Rejected(CannotUnlock)
    ensures CanUnlockTile(tileId, state) && ParseTileId(tileId).None? ==> r == Rejected(InvalidTileId)
    ensures r.Unlocked? <==> CanUnlockTile(tileId, state) && ParseTileId(tileId).Some?
    ensures r.Unlocked? ==>
      var p := ParseTileId(tileId).value;
      var s := r.state;
      s.keys == state.keys - 1
      && s.unlockedTiles == state.unlockedTiles + [tileId]
      && (forall k :: k in s.visibleTiles <==> k in state.visibleTiles || exists q :: Adjacent(p, q) && k == TileKey(q))
      && NoDuplicates(s.visibleTiles)
      && (NoDuplicates(state.visibleTiles) ==>
            |state.visibleTiles| <= |s.visibleTiles| && s.visibleTiles[..|state.visibleTiles|] == state.visibleTiles)
      && s == state.(keys := s.keys, unlockedTiles := s.unlockedTiles, visibleTiles := s.visibleTiles)
  {
    if !CanUnlockTile(tileId, state) then Rejected(CannotUnlock)
    else match ParseTileId(tileId)
      case None => Rejected(InvalidTileId)
      case Some(p) =>
        AddAllUniqueKeepsPrefix(Dedup(state.visibleTiles), NeighborKeys(p));
        Unlocked(state.(
          keys := state.keys - 1,
          unlockedTiles := state.unlockedTiles + [tileId],
          visibleTiles := AddAllUnique(Dedup(state.visibleTiles), NeighborKeys(p))))
  }

  /** A successful unlock makes the tile's id unlocked, so it cannot be unlocked a second time;
      a state with a single key cannot pay for a second unlock either. */
  lemma UnlockOnce(tileId: string, state: GameState)
    requires UnlockTile(tileId, state).Unlocked?
    ensures !CanUnlockTile(tileId, UnlockTile(tileId, state).state)
    ensures UnlockTile(tileId, UnlockTile(tileId, state).state) == Rejected(CannotUnlock)
  {
  }

  /** The key sources every new game starts with (generateKeySources). */
  const INITIAL_KEY_SOURCES: seq<KeySource> := [
    KeySource("slayer_master", "Slayer Tasks", "Complete Slayer Tasks", Slayer, 1, false, 0, 5, "\U{1F480}"),
    KeySource("boss_kill", "Boss Tasks", "Kill bosses", Boss, 3, false, 0, 5, "\U{2694}\U{FE0F}"),
    KeySource("daily", "Daily", "Complete daily tasks", Daily, 1, false, 0, 1, "\U{1F4CB}")]

  /** The start task generateInitialGameState writes inline: the start task's fields, but a single
      0-gold reward "Begin your journey". */
  const INITIAL_START_TASK: Task := Task(
    "start_0,0", OtherTaskGenerator.START_TITLE, OtherTaskGenerator.START_DESCRIPTION, Start, Easy, None,
    [ItemReq("key", 1)], [Reward(Gold, 0, "Begin your journey")])

  /** generateInitialGameState; `now` stands for both Date.now() reads. A new game holds one key and
      no gold, nothing unlocked or completed, only the origin visible, and the origin's start task. */
  function GenerateInitialGameState(playerName: string, stats: PlayerStats, now: int): (s: GameState)
    ensures s.playerName == playerName && s.playerStats == stats
    ensures s.keys == 1 && s.gold == 0
    ensures s.unlockedTiles == [] && s.completedTiles == [] && s.visibleTiles == [ORIGIN]
    ensures s.tileTasks.Keys == {ORIGIN} && s.tileTasks[ORIGIN].category == Start
    ensures s.keySources == INITIAL_KEY_SOURCES
    ensures s.lastUpdated == now && s.statsLastFetched == now
    ensures CanUnlockTile(ORIGIN, s)
  {
    GameState(playerName, stats, 1, 0, [], [], [ORIGIN], INITIAL_KEY_SOURCES,
      map[ORIGIN := INITIAL_START_TASK], now, now)
  }

  /** The origin task of a new game is the start task with its rewards replaced by one worth
      nothing: it does not pay the 2 keys and 50 gold the generator's start task promises. */
  lemma InitialStartTaskPaysNothing(playerName: string, stats: PlayerStats, now: int)
    ensures var t := GenerateInitialGameState(playerName, stats, now).tileTasks[ORIGIN];
      t == OtherTaskGenerator.GenerateStartTask(ORIGIN).(rewards := t.rewards)
      && t.rewards == [Reward(Gold, 0, "Begin your journey")]
      && t != OtherTaskGenerator.GenerateStartTask(ORIGIN)
  {
    var t := GenerateInitialGameState(playerName, stats, now).tileTasks[ORIGIN];
    var g := OtherTaskGenerator.GenerateStartTask(ORIGIN);
    assert g.rewards[0].kind == Keys;
    assert t.rewards[0].kind == Gold;
  }

  /** The duplicate test of isDuplicateTask against one existing task: two skill tasks for the same
      (non-empty) skill, or two tasks of one category with one title. */
  predicate Clashes(t: Task, e: Task)
  {
    (t.category == Skill && e.category == Skill
      && t.skillName.Some? && t.skillName.value != ""
      && e.skillName.Some? && e.skillName.value != ""
      && t.skillName.value == e.skillName.value)
    || (t.category == e.category && t.title == e.title)
  }

  /** isDuplicateTask: scans the existing tasks until one clashes. */
  method IsDuplicateTask(t: Task, existing: map<string, Task>) returns (dup: bool)
    ensures dup <==> exists k :: k in existing && Clashes(t, existing[k])
  {
    var remaining := existing.Keys;
    while remaining != {}
      invariant remaining <= existing.Keys
      invariant forall k :: k in existing && k !in remaining ==> !Clashes(t, existing[k])
      decreases |remaining|
    {
      var k :| k in remaining;
      if Clashes(t, existing[k]) {
        return true;
      }
      remaining := remaining - {k};
    }
    return false;
  }

  const MAX_ATTEMPTS: nat := 10
  /** From this retry on, the category of a duplicate is excluded from later draws. */
  const EXCLUDE_FROM_ATTEMPT: nat := 5

  /** generateTaskForTile as this loop sees it: the tile id, the excluded categories, and the
      number of the call (0 for the first), which stands for the fresh random draws each call makes. */
  type TaskSource = (string, seq<Category>, nat) -> Task

  /** The retry loop of generateTasksForVisibleTiles for one tile: regenerate while the task clashes
      with an existing one, at most MAX_ATTEMPTS times, excluding a duplicate's category once the
      fifth retry is reached. The task kept is the last one generated; it is a duplicate only when
      every attempt was used. */
  method GenerateUniqueTask(tileId: string, existing: map<string, Task>, generate: TaskSource)
    returns (task: Task, attempts: nat, excluded: seq<Category>)
    ensures attempts <= MAX_ATTEMPTS
    ensures task == generate(tileId, excluded, attempts)
    ensures attempts < MAX_ATTEMPTS ==> forall k :: k in existing ==> !Clashes(task, existing[k])
    ensures attempts > 0 ==> exists k :: k in existing && Clashes(generate(tileId, [], 0), existing[k])
    ensures attempts < EXCLUDE_FROM_ATTEMPT ==> excluded == []
    ensures |excluded| <= if attempts < EXCLUDE_FROM_ATTEMPT then 0 else attempts - EXCLUDE_FROM_ATTEMPT + 1
    ensures NoDuplicates(excluded)
  {
    excluded := [];
    attempts := 0;
    task := generate(tileId, [], 0);
    var dup := IsDuplicateTask(task, existing);
    while dup && attempts < MAX_ATTEMPTS
      invariant attempts <= MAX_ATTEMPTS
      invariant task == generate(tileId, excluded, attempts)
      invariant dup <==> exists k :: k in existing && Clashes(task, existing[k])
      invariant attempts > 0 ==> exists k :: k in existing && Clashes(generate(tileId, [], 0), existing[k])
      invariant attempts < EXCLUDE_FROM_ATTEMPT ==> excluded == []
      invariant |excluded| <= if attempts < EXCLUDE_FROM_ATTEMPT then 0 else attempts - EXCLUDE_FROM_ATTEMPT + 1
      invariant NoDuplicates(excluded)
    {
      attempts := attempts + 1;
      if attempts >= EXCLUDE_FROM_ATTEMPT && task.category !in excluded {
        excluded := excluded + [task.category];
      }
      task := generate(tileId, excluded, attempts);
      dup := IsDuplicateTask(task, existing);
    }
  }

  /** The tiles a batch fills: every visible tile and every neighbour of one. */
  ghost predicate InBatch(unlocked: seq<string>, q: Position)
  {
    IsVisible(unlocked, q) || exists p :: IsVisible(unlocked, p) && Adjacent(p, q)
  }

  /** The keys of a list of positions, in order. */
  ghost function KeysOf(ps: seq<Position>): (ks: seq<string>)
    ensures |ks| == |ps| && forall a :: 0 <= a < |ps| ==> ks[a] == TileKey(ps[a])
  {
    seq(|ps|, a requires 0 <= a < |ps| => TileKey(ps[a]))
  }

  lemma KeysOfMember(ps: seq<Position>, q: Position)
    ensures TileKey(q) in KeysOf(ps) <==> q in ps
  {
    if TileKey(q) in KeysOf(ps) {
      var a :| 0 <= a < |ps| && KeysOf(ps)[a] == TileKey(q);
      TileKeyInjective(ps[a], q);
    }
  }

  /** A position of the list or a neighbour of one. */
  ghost predicate NearList(visible: seq<Position>, q: Position)
  {
    q in visible || exists p :: p in visible && Adjacent(p, q)
  }

  /** Every key of the neighbour keys of a list is the key of a neighbour of one of its positions. */
  lemma {:induction false} NeighborKeyOrigin(vs: seq<Position>, k: string)
    requires k in AllNeighborKeys(vs)
    ensures exists p, q :: p in vs && Adjacent(p, q) && k == TileKey(q)
  {
    var init := vs[..|vs| - 1];
    var last := vs[|vs| - 1];
    assert last in vs;
    if k in NeighborKeys(last) {
      var q :| Adjacent(last, q) && k == TileKey(q);
    } else {
      NeighborKeyOrigin(init, k);
      var p, q :| p in init && Adjacent(p, q) && k == TileKey(q);
      assert p in vs by {
        var a :| 0 <= a < |init| && init[a] == p;
        assert vs[a] == p;
      }
    }
  }

  /** The key of every neighbour of a position of the list is among its neighbour keys. */
  lemma {:induction false} NeighborKeyListed(vs: seq<Position>, p: Position, q: Position)
    requires p in vs && Adjacent(p, q)
    ensures TileKey(q) in AllNeighborKeys(vs)
  {
    var init := vs[..|vs| - 1];
    var last := vs[|vs| - 1];
    if p == last {
      assert TileKey(q) in NeighborKeys(last);
    } else {
      assert p in init by {
        var a :| 0 <= a < |vs| && vs[a] == p;
        assert a < |vs| - 1 && init[a] == p;
      }
      NeighborKeyListed(init, p, q);
    }
  }

  /** The first `forEach` of the collection: `set.add` of each visible tile's key, in order. */
  method AddVisibleKeys(visible: seq<Position>) returns (ids: seq<string>)
    ensures ids == AddAllUnique([], KeysOf(visible))
  {
    ghost var ks := KeysOf(visible);
    ids := [];
    for i := 0 to |visible|
      invariant ids == AddAllUnique([], ks[..i])
    {
      var key := TileKey(visible[i]);
      PrefixAddStep([], ks, i, ids);
      if key !in ids {
        ids := ids + [key];
      }
    }
    assert ks[..|visible|] == ks;
  }

  /** The collected keys are exactly the keys of the visible tiles and of their neighbours, each
      once. */
  lemma CollectedKeysExact(visible: seq<Position>, ids: seq<string>)
    requires ids == AddAllUnique(AddAllUnique([], KeysOf(visible)), AllNeighborKeys(visible))
    ensures NoDuplicates(ids)
    ensures forall k :: k in ids ==> exists q :: NearList(visible, q) && k == TileKey(q)
    ensures forall q :: NearList(visible, q) ==> TileKey(q) in ids
  {
    assert NoDuplicates<string>([]);
    forall k | k in ids
      ensures exists q :: NearList(visible, q) && k == TileKey(q)
    {
      if k in KeysOf(visible) {
        var a :| 0 <= a < |visible| && KeysOf(visible)[a] == k;
        assert NearList(visible, visible[a]);
      } else {
        NeighborKeyOrigin(visible, k);
        var p, q :| p in visible && Adjacent(p, q) && k == TileKey(q);
        assert NearList(visible, q);
      }
    }
    forall q | NearList(visible, q)
      ensures TileKey(q) in ids
    {
      if q in visible {
        KeysOfMember(visible, q);
      } else {
        var p :| p in visible && Adjacent(p, q);
        NeighborKeyListed(visible, p, q);
      }
    }
  }

  /** The first half of generateTasksForVisibleTiles: the insertion-ordered set of the keys of the
      visible tiles, then of their neighbours, tile by tile (each key added only when not already
      present). */
  method CollectTilesToGenerate(visible: seq<Position>) returns (ids: seq<string>)
    ensures ids == AddAllUnique(AddAllUnique([], KeysOf(visible)), AllNeighborKeys(visible))
    ensures NoDuplicates(ids)
    ensures forall k :: k in ids ==> exists q :: NearList(visible, q) && k == TileKey(q)
    ensures forall q :: NearList(visible, q) ==> TileKey(q) in ids
  {
    ids := AddVisibleKeys(visible);
    ghost var base := ids;
    for i := 0 to |visible|
      invariant ids == AddAllUnique(base, AllNeighborKeys(visible[..i]))
    {
      AllNeighborKeysStep(visible, i);
      AddAllUniqueAppend(base, AllNeighborKeys(visible[..i]), NeighborKeys(visible[i]));
      ids := AddNeighborKeys(visible[i], ids);
    }
    assert visible[..|visible|] == visible;
    CollectedKeysExact(visible, ids);
  }

  /** The inner `neighbors.forEach` of the first half of generateTasksForVisibleTiles: `set.add` of
      the keys of the four neighbours of `p`, in order. */
  method AddNeighborKeys(p: Position, ids: seq<string>) returns (ids': seq<string>)
    ensures ids' == AddAllUnique(ids, NeighborKeys(p))
  {
    var ns := GetNeighborPositions(p);
    ghost var nk := NeighborKeys(p);
    ids' := ids;
    for j := 0 to 4
      invariant ids' == AddAllUnique(ids, nk[..j])
    {
      var key := TileKey(ns[j]);
      NeighborKeyAt(p, j);
      PrefixAddStep(ids, nk, j, ids');
      if key !in ids' {
        ids' := ids' + [key];
      }
    }
    assert nk[..4] == nk;
  }

  /** The tiles near the visible list are the batch tiles. */
  lemma NearVisibleIsBatch(unlocked: seq<string>, visible: seq<Position>)
    requires forall q :: q in visible <==> IsVisible(unlocked, q)
    ensures forall q :: NearList(visible, q) <==> InBatch(unlocked, q)
  {
  }

  /** `t` is what the retry loop can leave for `tileId`: a task generated for it on one of at most
      MAX_ATTEMPTS retries, with distinct excluded categories and none before the fifth retry, and
      clashing with none of `tasks` unless every retry was used. */
  ghost predicate RetriedTask(tileId: string, t: Task, generate: TaskSource, tasks: map<string, Task>)
  {
    exists excluded: seq<Category>, n: nat ::
      && t == generate(tileId, excluded, n)
      && n <= MAX_ATTEMPTS
      && NoDuplicates(excluded)
      && (n < EXCLUDE_FROM_ATTEMPT ==> excluded == [])
      && (n < MAX_ATTEMPTS ==> forall k :: k in tasks ==> !Clashes(t, tasks[k]))
  }

  /** The second half of generateTasksForVisibleTiles: every listed id without a task gets the
      result of the retry loop; ids that do not parse are skipped. */
  method FillTasks(ids: seq<string>, tasks: map<string, Task>, generate: TaskSource)
    returns (filled: map<string, Task>)
    ensures forall k :: k in tasks ==> k in filled && filled[k] == tasks[k]
    ensures forall k :: k in ids && ParseTileId(k).Some? ==> k in filled
    ensures forall k :: k in filled && k !in tasks ==>
      k in ids && RetriedTask(k, filled[k], generate, tasks)
  {
    filled := tasks;
    for i := 0 to |ids|
      invariant forall k :: k in tasks ==> k in filled && filled[k] == tasks[k]
      invariant forall a :: 0 <= a < i && ParseTileId(ids[a]).Some? ==> ids[a] in filled
      invariant forall k :: k in filled && k !in tasks ==>
        k in ids && RetriedTask(k, filled[k], generate, tasks)
    {
      var id := ids[i];
      if id !in filled {
        var parsed := ParseTileId(id);
        if parsed.Some? {
          var t, attempts, excluded := GenerateUniqueTask(id, filled, generate);
          assert RetriedTask(id, t, generate, tasks) by {
            assert attempts < MAX_ATTEMPTS ==> forall k :: k in tasks ==> !Clashes(t, tasks[k]) by {
              if attempts < MAX_ATTEMPTS {
                forall k | k in tasks
                  ensures !Clashes(t, tasks[k])
                {
                  assert k in filled && filled[k] == tasks[k];
                }
              }
            }
          }
          filled := filled[id := t];
        }
      }
    }
  }

  /** generateTasksForVisibleTiles: gives every visible tile and every neighbour of a visible tile a
      task, keeps the tasks already assigned, and adds tasks for no other tile; every new task is
      one the generator produced for that tile. Only the task map changes. */
  method GenerateTasksForVisibleTiles(state: GameState, generate: TaskSource) returns (r: GameState)
    ensures r == state.(tileTasks := r.tileTasks)
    ensures forall k :: k in state.tileTasks ==> k in r.tileTasks && r.tileTasks[k] == state.tileTasks[k]
    ensures forall q :: InBatch(state.unlockedTiles, q) ==> TileKey(q) in r.tileTasks
    ensures forall k :: k in r.tileTasks && k !in state.tileTasks ==>
      (exists q :: InBatch(state.unlockedTiles, q) && k == TileKey(q))
      && RetriedTask(k, r.tileTasks[k], generate, state.tileTasks)
  {
    var visible := GenerateVisibleTiles(state.unlockedTiles);
    var toGenerate := CollectTilesToGenerate(visible);
    NearVisibleIsBatch(state.unlockedTiles, visible);
    var tasks := FillTasks(toGenerate, state.tileTasks, generate);
    forall q | InBatch(state.unlockedTiles, q)
      ensures TileKey(q) in tasks
    {
      ParseTileKey(q);
    }
    r := state.(tileTasks := tasks);
  }

  /** checkTaskRequirements as written reads `req.skill` and `req.level`, fields no generated
      requirement has; each comparison is then between undefined values and fails. */
  predicate MeetsRequirementAsWritten(req: Requirement, stats: PlayerStats)
  {
    false
  }

  /** checkTaskRequirements as written: every requirement holds. */
  function CheckTaskRequirementsAsWritten(task: Task, stats: PlayerStats): (ok: bool)
  {
    forall r :: r in task.requirements ==> MeetsRequirementAsWritten(r, stats)
  }

  /** As written, a task passes exactly when it has no requirements at all, so a level-99 player
      fails a skill task that asks for attack level 20. */
  lemma CheckTaskRequirementsAsWrittenRejects(task: Task, stats: PlayerStats)
    ensures CheckTaskRequirementsAsWritten(task, stats) <==> task.requirements == []
    ensures CheckTaskRequirementsAsWritten(
      task.(requirements := [SkillReq("attack", 10, 20)]), map["attack" := 99]) == false
  {
    if task.requirements != [] {
      assert task.requirements[0] in task.requirements;
    }
    assert SkillReq("attack", 10, 20) in [SkillReq("attack", 10, 20)];
  }

  /** The intended per-requirement check: a skill requirement holds when the player's level in the
      named skill reaches the required level; the other kinds are not about stats and hold. */
  predicate MeetsRequirement(req: Requirement, stats: PlayerStats)
  {
    match req
    case SkillReq(skill, _, level) => skill in stats && stats[skill] >= level
    case _ => true
  }

  /** The intended checkTaskRequirements: every skill requirement of the task is met. */
  function CheckTaskRequirements(task: Task, stats: PlayerStats): (ok: bool)
    ensures ok <==> forall r :: r in task.requirements && r.SkillReq? ==>
      r.skill in stats && stats[r.skill] >= r.requiredLevel
  {
    forall r :: r in task.requirements ==> MeetsRequirement(r, stats)
  }

  /** Raising levels never makes a task's requirements fail. */
  lemma CheckTaskRequirementsMonotone(task: Task, lo: PlayerStats, hi: PlayerStats)
    requires forall s :: s in lo ==> s in hi && lo[s] <= hi[s]
    requires CheckTaskRequirements(task, lo)
    ensures CheckTaskRequirements(task, hi)
  {
  }
}
