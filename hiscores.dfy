/** The hiscores proxy's text parser: the upstream "index_lite" reply is split into lines, and
    line i, for i below the number of stat names, gives the level of the i-th stat name — the
    second comma-separated field, read with parseInt. The fetch and the HTTP responses around it
    are not modelled. */
module Hiscores {
  import opened Strings
  import opened GameTypes

  /** The stat names are pairwise different, so no line's level overwrites another's. */
  lemma StatNamesDistinct()
    ensures forall i, j :: 0 <= i < j < |STAT_NAMES| ==> STAT_NAMES[i] != STAT_NAMES[j]
  {
  }

  /** The level field of one line: `const [rank, level] = line.split(',')` and
      `parseInt(level ?? '1')`. */
  function LineLevel(line: string): (r: Parsed)
    ensures |Split(line, ',')| < 2 ==> r == Num(1)
    ensures |Split(line, ',')| >= 2 ==> r == ParseInt(Split(line, ',')[1])
  {
    var parts := Split(line, ',');
    var level := if |parts| >= 2 then parts[1] else "1";
    assert ParseInt("1") == Num(1) by {
      ParseIntOfDigits("1");
    }
    ParseInt(level)
  }

  /** A line with no comma, the empty trailing line included, reads as level 1. */
  lemma NoCommaIsLevelOne(line: string)
    requires forall k :: 0 <= k < |line| ==> line[k] != ','
    ensures LineLevel(line) == Num(1)
  {
    SplitNoSeparator(line, ',');
  }

  /** A standard `rank,level,xp` line gives the level's digits as a number; the rank and the
      experience are ignored. */
  lemma RankLevelXpLine(rank: string, level: string, xp: string)
    requires forall k :: 0 <= k < |rank| ==> rank[k] != ','
    requires level != [] && AllDigits(level)
    ensures LineLevel(rank + "," + level + "," + xp) == Num(DigitsValue(level))
  {
    var line := rank + "," + level + "," + xp;
    assert line == rank + [','] + (level + "," + xp);
    SplitAtFirst(rank, ',', level + "," + xp);
    assert forall k :: 0 <= k < |level| ==> level[k] != ',' by {
      forall k | 0 <= k < |level| ensures level[k] != ',' {
        assert IsDigit(level[k]);
      }
    }
    assert level + "," + xp == level + [','] + xp;
    SplitAtFirst(level, ',', xp);
    ParseIntOfDigits(level);
  }

  function Min(a: int, b: int): int { if a < b then a else b }

  /** `result` holds exactly the first `n` names, each with the level of its line. */
  ghost predicate Filled(result: map<string, Parsed>, names: seq<string>, lines: seq<string>, n: nat)
    requires n <= |names| && n <= |lines|
  {
    && result.Keys == (set k | 0 <= k < n :: names[k])
    && forall k :: 0 <= k < n ==> names[k] in result && result[names[k]] == LineLevel(lines[k])
  }

  /** Storing the level of line `n` under the `n`-th of distinct names fills one more name. */
  lemma FillOne(result: map<string, Parsed>, names: seq<string>, lines: seq<string>, n: nat)
    requires forall i, j :: 0 <= i < j < |names| ==> names[i] != names[j]
    requires n < |names| && n < |lines| && Filled(result, names, lines, n)
    ensures Filled(result[names[n] := LineLevel(lines[n])], names, lines, n + 1)
  {
    var r := result[names[n] := LineLevel(lines[n])];
    assert (set k | 0 <= k < n + 1 :: names[k]) == (set k | 0 <= k < n :: names[k]) + {names[n]};
    forall k | 0 <= k < n + 1
      ensures names[k] in r && r[names[k]] == LineLevel(lines[k])
    {
      if k < n {
        assert names[k] != names[n];
      }
    }
  }

  /** The proxy's loop over the lines of the reply: the result maps the i-th stat name to the
      level of line i, for every line that has a stat name, and holds nothing else. */
  method ParseHiscores(text: string) returns (result: map<string, Parsed>)
    ensures result.Keys == set i | 0 <= i < Min(|STAT_NAMES|, |Split(text, '\n')|) :: STAT_NAMES[i]
    ensures forall i :: 0 <= i < Min(|STAT_NAMES|, |Split(text, '\n')|) ==>
      STAT_NAMES[i] in result && result[STAT_NAMES[i]] == LineLevel(Split(text, '\n')[i])
  {
    var lines := Split(text, '\n');
    StatNamesDistinct();
    result := map[];
    var i := 0;
    while i < |lines|
      invariant 0 <= i <= |lines|
      invariant Filled(result, STAT_NAMES, lines, Min(|STAT_NAMES|, i))
    {
      var parts := Split(lines[i], ',');
      if i < |STAT_NAMES| {
        var level := if |parts| >= 2 then parts[1] else "1";
        FillOne(result, STAT_NAMES, lines, i);
        result := result[STAT_NAMES[i] := ParseInt(level)];
      }
      i := i + 1;
    }
  }
}
