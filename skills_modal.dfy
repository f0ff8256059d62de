/** The two computations of the skills window: how long ago the stats were fetched, as text, and
    the total level shown under the skill grid. The clock reading is a parameter. */
module SkillsModal {
  import opened Strings
  import opened GameTypes

  const MINUTE_MS: int := 1000 * 60
  const HOUR_MS: int := 60 * MINUTE_MS

  /** getTimeAgo: "unknown" for a missing or zero timestamp; otherwise whole minutes (rounded
      down) below an hour and whole hours from an hour on, with "1" in the singular. */
  function GetTimeAgo(timestamp: Option<int>, now: int): (r: string)
    ensures timestamp.None? || timestamp.value == 0 ==> r == "unknown"
    ensures timestamp.Some? && timestamp.value != 0 ==> (
      var diff := now - timestamp.value;
      && (diff < MINUTE_MS ==> r == "just now")
      && (MINUTE_MS <= diff < 2 * MINUTE_MS ==> r == "1 minute ago")
      && (2 * MINUTE_MS <= diff < HOUR_MS ==> r == IntToString(diff / MINUTE_MS) + " minutes ago")
      && (HOUR_MS <= diff < 2 * HOUR_MS ==> r == "1 hour ago")
      && (2 * HOUR_MS <= diff ==> r == IntToString(diff / HOUR_MS) + " hours ago"))
  {
    if timestamp.None? || timestamp.value == 0 then "unknown"
    else
      var diff := now - timestamp.value;
      var minutes := diff / MINUTE_MS;
      if minutes < 1 then "just now"
      else if minutes == 1 then "1 minute ago"
      else if minutes < 60 then IntToString(minutes) + " minutes ago"
      else
        var hours := minutes / 60;
        assert hours == diff / HOUR_MS by {
          FloorDivTwice(diff);
        }
        if hours == 1 then "1 hour ago"
        else IntToString(hours) + " hours ago"
  }

  /** Whole minutes rounded down to whole hours are the whole hours of the difference. */
  lemma FloorDivTwice(n: int)
    ensures (n / MINUTE_MS) / 60 == n / HOUR_MS
  {
    var q := n / MINUTE_MS;
    var q2 := q / 60;
    assert n == MINUTE_MS * q + n % MINUTE_MS;
    assert q == 60 * q2 + q % 60;
    assert n == HOUR_MS * q2 + (MINUTE_MS * (q % 60) + n % MINUTE_MS);
    var rest := MINUTE_MS * (q % 60) + n % MINUTE_MS;
    assert 0 <= rest < HOUR_MS;
  }

  /** The sum of the levels stored under the names. */
  function SumOver(names: seq<string>, stats: PlayerStats): int
    requires forall n :: n in names ==> n in stats
  {
    if names == [] then 0 else stats[names[0]] + SumOver(names[1..], stats)
  }

  /** totalLevel: the sum of every stat of the record, overall included, minus overall. */
  function TotalLevel(stats: PlayerStats): int
    requires HasAllStats(stats)
  {
    SumOver(STAT_NAMES, stats) - stats["overall"]
  }

  /** The total level is the sum of the 23 skill levels. */
  lemma TotalLevelIsSkillSum(stats: PlayerStats)
    requires HasAllStats(stats)
    ensures TotalLevel(stats) == SumOver(SKILLS, stats)
  {
    assert STAT_NAMES[0] == "overall" && STAT_NAMES[1..] == SKILLS;
  }

  /** With every level at least one, a sum over the names is at least their number. */
  lemma {:induction false} SumOverAtLeastCount(names: seq<string>, stats: PlayerStats)
    requires forall n :: n in names ==> n in stats && stats[n] >= 1
    ensures SumOver(names, stats) >= |names|
  {
    if names != [] {
      SumOverAtLeastCount(names[1..], stats);
    }
  }

  /** A player with every skill at level one or more has a total level of at least 23. */
  lemma TotalLevelAtLeastSkillCount(stats: PlayerStats)
    requires HasAllStats(stats)
    requires forall n :: n in SKILLS ==> stats[n] >= 1
    ensures TotalLevel(stats) >= |SKILLS| == 23
  {
    TotalLevelIsSkillSum(stats);
    SumOverAtLeastCount(SKILLS, stats);
  }
}
