/** The boss-kill task generator: a random boss from the catalog, a kill count drawn from its
    category's range, and gold paid per kill. The catalog (`bosses.json`) is a parameter. */
module BossTaskGenerator {
  import opened Strings
  import opened GameTypes
  import opened Rewards

  /** A catalog entry (BossData). */
  datatype BossData = BossData(id: string, name: string, combatLevel: int, category: BossCategory, isWilderness: bool)

  /** `Math.floor(Math.random() * (max - min + 1)) + min` for the draw `d`: always inside
      [min, max]. */
  function KillCount(cfg: BossConfig, d: nat): (k: int)
    requires cfg.killMin <= cfg.killMax
    ensures cfg.killMin <= k <= cfg.killMax
  {
    cfg.killMin + d % (cfg.killMax - cfg.killMin + 1)
  }

  /** Every count in the range is drawn by some draw. */
  lemma KillCountReachable(cfg: BossConfig, k: int)
    requires cfg.killMin <= k <= cfg.killMax
    ensures KillCount(cfg, (k - cfg.killMin) as nat) == k
  {
  }

  /** The gold reward, described with the en-US grouping of `toLocaleString`. */
  function BossGoldReward(gold: nat): (r: Reward)
    ensures r.kind == Gold && r.amount == gold
  {
    Reward(Gold, gold, LocaleString(gold) + " Gold")
  }

  /** "Kill NAME[ (Wilderness)] K time[s]". */
  function BossDescription(boss: BossData, k: int): string
  {
    "Kill " + boss.name + (if boss.isWilderness then " (Wilderness)" else "") + " " + IntToString(k)
    + " time" + (if k > 1 then "s" else "")
  }

  /** The task for killing `boss` `k` times. */
  function BossTaskFor(tileId: string, boss: BossData, k: nat): (t: Task)
    ensures t.id == "boss_" + tileId && t.title == "Boss: " + boss.name
    ensures t.category == Boss && t.skillName == None
    ensures t.difficulty == BossRewards(boss.category).difficulty
    ensures t.requirements == [BossReq(boss.name, k)]
    ensures |t.rewards| == 2
    ensures t.rewards[0] == BossGoldReward(k * BossRewards(boss.category).goldPerKill)
    ensures t.rewards[1] == KeysReward(BossRewards(boss.category).keysPerTask)
  {
    var cfg := BossRewards(boss.category);
    Task(
      "boss_" + tileId, "Boss: " + boss.name, BossDescription(boss, k), Boss, cfg.difficulty, None,
      [BossReq(boss.name, k)],
      [BossGoldReward(k * cfg.goldPerKill), KeysReward(cfg.keysPerTask)])
  }

  /** `t` asks for a number of kills of `b` inside its category's range, at its category's
      difficulty, and pays the category's gold per kill and keys. */
  predicate KillsBoss(t: Task, b: BossData)
  {
    var cfg := BossRewards(b.category);
    t.title == "Boss: " + b.name && t.difficulty == cfg.difficulty
    && |t.requirements| == 1 && t.requirements[0].BossReq? && t.requirements[0].boss == b.name
    && cfg.killMin <= t.requirements[0].killCount <= cfg.killMax
    && t.rewards == [BossGoldReward(t.requirements[0].killCount * cfg.goldPerKill), KeysReward(cfg.keysPerTask)]
  }

  /** generateBossTask: the boss named by `bossDraw`, killed the number of times named by
      `killDraw`. The source retries forever on an empty catalog; the catalog is a fixed data file,
      so a non-empty one is required here. */
  function GenerateBossTask(tileId: string, bosses: seq<BossData>, bossDraw: nat, killDraw: nat): (t: Task)
    requires |bosses| > 0
    ensures exists b :: b in bosses && KillsBoss(t, b)
    ensures t.id == "boss_" + tileId && t.category == Boss
  {
    var boss := bosses[bossDraw % |bosses|];
    var t := BossTaskFor(tileId, boss, KillCount(BossRewards(boss.category), killDraw));
    assert KillsBoss(t, boss);
    t
  }

  /** Every boss of the catalog, with every kill count of its range, is produced by some draws. */
  lemma EveryBossTaskReachable(tileId: string, bosses: seq<BossData>, i: nat, k: int)
    requires i < |bosses|
    requires BossRewards(bosses[i].category).killMin <= k <= BossRewards(bosses[i].category).killMax
    ensures GenerateBossTask(tileId, bosses, i, (k - BossRewards(bosses[i].category).killMin) as nat)
      == BossTaskFor(tileId, bosses[i], k)
  {
    var cfg := BossRewards(bosses[i].category);
    assert i % |bosses| == i;
    KillCountReachable(cfg, k);
    assert KillCount(cfg, (k - cfg.killMin) as nat) == k;
  }

  /** The gold a boss task pays is at most 1,200 (three elite kills at 400) and at least 150 (ten
      low-level kills at 15); a key is paid only for elite bosses. */
  lemma BossTaskPayout(tileId: string, bosses: seq<BossData>, bossDraw: nat, killDraw: nat)
    requires |bosses| > 0
    ensures var t := GenerateBossTask(tileId, bosses, bossDraw, killDraw);
      150 <= t.rewards[0].amount <= 1200 && 0 <= t.rewards[1].amount <= 1
      && (t.rewards[1].amount == 1 <==> t.difficulty == Elite)
  {
    var t := GenerateBossTask(tileId, bosses, bossDraw, killDraw);
    var b :| b in bosses && KillsBoss(t, b);
    var k := t.requirements[0].killCount;
    match b.category
    case LowLevel => assert 150 <= k * 15 <= 375;
    case MidLevel => assert 200 <= k * 40 <= 600;
    case HighLevel => assert 300 <= k * 100 <= 800;
    case EliteLevel => assert 400 <= k * 400 <= 1200;
  }

  /** The description starts with "Kill " and the boss name; what follows opens with
      " (Wilderness)" exactly when the boss is in the Wilderness, and the text ends in "times"
      exactly when the count is above one. */
  lemma BossDescriptionShape(boss: BossData, k: int)
    ensures var d := BossDescription(boss, k);
      var head := "Kill " + boss.name;
      IsPrefix(head, d)
      && (IsPrefix(" (Wilderness)", d[|head|..]) <==> boss.isWilderness)
      && (IsSuffix("times", d) <==> k > 1)
  {
    var n := IntToString(k);
    var plural := if k > 1 then "s" else "";
    var head := "Kill " + boss.name;
    var x1 := head + (if boss.isWilderness then " (Wilderness)" else "");
    var x2 := x1 + " ";
    var x3 := x2 + n;
    var x4 := x3 + " time";
    var d := x4 + plural;
    assert d == BossDescription(boss, k);
    PrefixExtend(x3, x3, " time");
    PrefixExtend(x3, x4, plural);
    PrefixExtend(x1, x1, " ");
    PrefixExtend(x1, x2, n);
    PrefixTrans(x1, x3, d);
    PrefixExtend(head, head, x1[|head|..]);
    assert head + x1[|head|..] == x1;
    PrefixTrans(head, x1, d);
    if boss.isWilderness {
      assert d[|head|..][..13] == x1[|head|..];
    } else {
      assert d[|head|..][1] == x3[|head| + 1] == n[0];
      assert n[0] == '-' || IsDigit(n[0]);
    }
    PluralMarker(x3, k);
  }

  lemma PluralMarker(a: string, k: int)
    ensures IsSuffix("times", a + " time" + (if k > 1 then "s" else "")) <==> k > 1
  {
    var d := a + " time" + (if k > 1 then "s" else "");
    if k > 1 {
      assert d[|d| - 5..] == "times";
    } else {
      assert d[|d| - 1] == 'e';
    }
  }
}
