/** The saved hiscore snapshots: one storage slot holding a list of (lower-cased name, stats,
    timestamp) entries. Saving replaces a player's entry and moves it to the end, lookup finds the
    first entry for the lower-cased name, deletion drops every entry for it, and clearing empties
    the slot. The clock reading is a parameter. */
module PlayerStatsStorage {
  import opened Strings
  import opened GameTypes

  datatype SavedPlayerData = SavedPlayerData(playerName: string, stats: PlayerStats, timestamp: int)

  /** The entries stored under one name, in list order. */
  function EntriesOf(list: seq<SavedPlayerData>, key: string): (r: seq<SavedPlayerData>)
    ensures forall p :: p in r <==> p in list && p.playerName == key
    ensures |r| <= |list|
  {
    if list == [] then []
    else (if list[0].playerName == key then [list[0]] else []) + EntriesOf(list[1..], key)
  }

  /** `existingData.filter(p => p.playerName !== key)`. */
  function WithoutPlayer(list: seq<SavedPlayerData>, key: string): (r: seq<SavedPlayerData>)
    ensures forall p :: p in r <==> p in list && p.playerName != key
  {
    if list == [] then []
    else (if list[0].playerName != key then [list[0]] else []) + WithoutPlayer(list[1..], key)
  }

  lemma {:induction false} EntriesOfAppend(a: seq<SavedPlayerData>, b: seq<SavedPlayerData>, key: string)
    ensures EntriesOf(a + b, key) == EntriesOf(a, key) + EntriesOf(b, key)
  {
    if a == [] {
      assert a + b == b;
    } else {
      assert (a + b)[1..] == a[1..] + b;
      EntriesOfAppend(a[1..], b, key);
    }
  }

  /** Removing one name keeps every other name's entries, in their order, and none of its own. */
  lemma {:induction false} WithoutPlayerEntries(list: seq<SavedPlayerData>, key: string, other: string)
    ensures EntriesOf(WithoutPlayer(list, key), other) == if other == key then [] else EntriesOf(list, other)
  {
    if list != [] {
      WithoutPlayerEntries(list[1..], key, other);
      var head := if list[0].playerName != key then [list[0]] else [];
      EntriesOfAppend(head, WithoutPlayer(list[1..], key), other);
    }
  }

  /** The slot as the list `getSavedPlayers` returns: an empty slot reads as the empty list. */
  function SavedPlayers(slot: Option<seq<SavedPlayerData>>): seq<SavedPlayerData>
  {
    if slot.None? then [] else slot.value
  }

  /** savePlayerStats on the stored list. */
  function Upsert(list: seq<SavedPlayerData>, playerName: string, stats: PlayerStats, now: int): (r: seq<SavedPlayerData>)
    ensures |r| >= 1 && r[|r| - 1] == SavedPlayerData(ToLower(playerName), stats, now)
  {
    var key := ToLower(playerName);
    WithoutPlayer(list, key) + [SavedPlayerData(key, stats, now)]
  }

  /** After a save the player has exactly one entry, the new one, and every other name keeps
      its entries in their original order. */
  lemma UpsertEntries(list: seq<SavedPlayerData>, playerName: string, stats: PlayerStats, now: int, other: string)
    ensures EntriesOf(Upsert(list, playerName, stats, now), ToLower(playerName))
      == [SavedPlayerData(ToLower(playerName), stats, now)]
    ensures other != ToLower(playerName) ==>
      EntriesOf(Upsert(list, playerName, stats, now), other) == EntriesOf(list, other)
  {
    var key := ToLower(playerName);
    var e := SavedPlayerData(key, stats, now);
    EntriesOfAppend(WithoutPlayer(list, key), [e], key);
    EntriesOfAppend(WithoutPlayer(list, key), [e], other);
    WithoutPlayerEntries(list, key, key);
    WithoutPlayerEntries(list, key, other);
    assert [e][1..] == [];
  }

  /** `find(p => p.playerName === key)`, then its stats. */
  function FindStats(list: seq<SavedPlayerData>, key: string): (r: Option<PlayerStats>)
    ensures r.None? <==> forall p :: p in list ==> p.playerName != key
    ensures r.Some? ==> r.value == EntriesOf(list, key)[0].stats
  {
    if list == [] then None
    else if list[0].playerName == key then Some(list[0].stats)
    else FindStats(list[1..], key)
  }

  /** getPlayerStats. */
  function GetPlayerStats(list: seq<SavedPlayerData>, playerName: string): (r: Option<PlayerStats>)
    ensures r.Some? <==> exists p :: p in list && p.playerName == ToLower(playerName)
  {
    FindStats(list, ToLower(playerName))
  }

  /** Saving then looking up, under any spelling with the same lower case, gives the saved stats. */
  lemma SaveThenGet(list: seq<SavedPlayerData>, playerName: string, lookupName: string, stats: PlayerStats, now: int)
    requires ToLower(lookupName) == ToLower(playerName)
    ensures GetPlayerStats(Upsert(list, playerName, stats, now), lookupName) == Some(stats)
  {
    UpsertEntries(list, playerName, stats, now, ToLower(playerName));
    var r := Upsert(list, playerName, stats, now);
    assert r[|r| - 1] in r;
  }

  /** Saving one player does not change another player's lookup. */
  lemma SaveKeepsOthers(list: seq<SavedPlayerData>, playerName: string, lookupName: string, stats: PlayerStats, now: int)
    requires ToLower(lookupName) != ToLower(playerName)
    ensures GetPlayerStats(Upsert(list, playerName, stats, now), lookupName) == GetPlayerStats(list, lookupName)
  {
    var key := ToLower(lookupName);
    UpsertEntries(list, playerName, stats, now, key);
    var r := Upsert(list, playerName, stats, now);
    assert forall p :: p in r && p.playerName == key <==> p in EntriesOf(r, key);
    assert forall p :: p in list && p.playerName == key <==> p in EntriesOf(list, key);
  }

  /** deletePlayerStats on the stored list. */
  function Delete(list: seq<SavedPlayerData>, playerName: string): (r: seq<SavedPlayerData>)
    ensures GetPlayerStats(r, playerName) == None
    ensures forall p :: p in r <==> p in list && p.playerName != ToLower(playerName)
  {
    WithoutPlayer(list, ToLower(playerName))
  }

  /** Deleting one player keeps every other player's entries, in order. */
  lemma DeleteKeepsOthers(list: seq<SavedPlayerData>, playerName: string, other: string)
    requires other != ToLower(playerName)
    ensures EntriesOf(Delete(list, playerName), other) == EntriesOf(list, other)
  {
    WithoutPlayerEntries(list, ToLower(playerName), other);
  }

  /** The `runeTile_playerStats` slot. */
  class StatsStore {
    var slot: Option<seq<SavedPlayerData>>

    constructor ()
      ensures slot == None
    {
      slot := None;
    }

    /** getSavedPlayers. */
    method GetSavedPlayers() returns (list: seq<SavedPlayerData>)
      ensures list == SavedPlayers(slot)
    {
      list := if slot.None? then [] else slot.value;
    }

    /** savePlayerStats: read, replace the player's entry, write back. */
    method SavePlayerStats(playerName: string, stats: PlayerStats, now: int)
      modifies this
      ensures slot == Some(Upsert(SavedPlayers(old(slot)), playerName, stats, now))
    {
      var existing := GetSavedPlayers();
      var key := ToLower(playerName);
      var filtered := WithoutPlayer(existing, key);
      slot := Some(filtered + [SavedPlayerData(key, stats, now)]);
    }

    /** getPlayerStats. */
    method GetPlayerStatsOf(playerName: string) returns (stats: Option<PlayerStats>)
      ensures stats == GetPlayerStats(SavedPlayers(slot), playerName)
    {
      var saved := GetSavedPlayers();
      stats := FindStats(saved, ToLower(playerName));
    }

    /** deletePlayerStats: read, drop the player's entries, write back. */
    method DeletePlayerStats(playerName: string)
      modifies this
      ensures slot == Some(Delete(SavedPlayers(old(slot)), playerName))
    {
      var existing := GetSavedPlayers();
      slot := Some(WithoutPlayer(existing, ToLower(playerName)));
    }

    /** clearAllPlayerStats: the slot is removed. */
    method ClearAllPlayerStats()
      modifies this
      ensures slot == None && SavedPlayers(slot) == []
    {
      slot := None;
    }
  }

  /** A store that was cleared after any saves reads as empty and finds nobody. */
  method ClearForgetsEveryone(playerName: string, stats: PlayerStats, now: int) returns (afterSave: Option<PlayerStats>, afterClear: seq<SavedPlayerData>, lookup: Option<PlayerStats>)
    ensures afterSave == Some(stats) && afterClear == [] && lookup == None
  {
    var store := new StatsStore();
    store.SavePlayerStats(playerName, stats, now);
    SaveThenGet([], playerName, playerName, stats, now);
    afterSave := store.GetPlayerStatsOf(playerName);
    store.ClearAllPlayerStats();
    afterClear := store.GetSavedPlayers();
    lookup := store.GetPlayerStatsOf(playerName);
  }
}
