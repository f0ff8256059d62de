/** The daily task generator: one task per difficulty per calendar day, chosen by a string hash
    of the date and the difficulty, so that every client derives the same four tasks on the same
    day. The boss catalog (`bosses.json`) is a parameter; the clock is the `today` string. */
module DailyTaskGenerator {
  import opened Strings
  import opened GameTypes
  import opened Rewards
  import BossTaskGenerator

  const TWO_31: int := 0x8000_0000
  const TWO_32: int := 0x1_0000_0000
  /** The divisor seededRandom scales the absolute hash by. */
  const SEED_DIVISOR: int := 2147483647

  /** JavaScript's ToInt32: the 32-bit two's-complement value congruent to `n`. */
  function ToInt32(n: int): (r: int)
    ensures -TWO_31 <= r < TWO_31
    ensures (r - n) % TWO_32 == 0
    ensures -TWO_31 <= n < TWO_31 ==> r == n
  {
    (n + TWO_31) % TWO_32 - TWO_31
  }

  lemma ModAddMultiple(x: int, k: int)
    ensures (x + TWO_32 * k) % TWO_32 == x % TWO_32
  {
    var y := x + TWO_32 * k;
    var z := y / TWO_32 - x / TWO_32 - k;
    assert TWO_32 * z == x % TWO_32 - y % TWO_32;
  }

  /** Congruent numbers have the same 32-bit value. */
  lemma ToInt32Congruent(a: int, b: int)
    requires (a - b) % TWO_32 == 0
    ensures ToInt32(a) == ToInt32(b)
  {
    var k := (a - b) / TWO_32;
    assert a - b == TWO_32 * k;
    ModAddMultiple(b + TWO_31, k);
    assert a + TWO_31 == (b + TWO_31) + TWO_32 * k;
  }

  lemma MultipleTimes(a: int, m: int)
    requires a % TWO_32 == 0
    ensures (m * a) % TWO_32 == 0
  {
    var k := a / TWO_32;
    assert a == TWO_32 * k;
    assert m * a == TWO_32 * (m * k);
    ModAddMultiple(0, m * k);
  }

  /** One step of seededRandom's loop: `hash = ((hash << 5) - hash) + char`, then
      `hash = hash & hash`, both bitwise operators working on the 32-bit value. */
  function HashStep(h: int, c: int): int
  {
    ToInt32(ToInt32(32 * h) - h + c)
  }

  /** The shift-and-subtract step multiplies by 31 modulo 2^32. */
  lemma HashStepMultipliesBy31(h: int, c: int)
    ensures HashStep(h, c) == ToInt32(31 * h + c)
  {
    assert (ToInt32(32 * h) - h + c) - (31 * h + c) == ToInt32(32 * h) - 32 * h;
    ToInt32Congruent(ToInt32(32 * h) - h + c, 31 * h + c);
  }

  /** The hash of `s`: the loop of seededRandom, one step per character. */
  function SeedHash(s: string): (h: int)
    ensures -TWO_31 <= h < TWO_31
  {
    if s == [] then 0 else HashStep(SeedHash(s[..|s| - 1]), s[|s| - 1] as int)
  }

  /** The same hash as the polynomial `s[0]·31^(n-1) + … + s[n-1]` over the integers. */
  function Polynomial31(s: string): int
  {
    if s == [] then 0 else 31 * Polynomial31(s[..|s| - 1]) + s[|s| - 1] as int
  }

  /** The loop computes the 31-polynomial of the characters reduced to 32 bits (the hashCode of
      Java strings): the hash depends only on that integer. */
  lemma {:induction false} SeedHashIsPolynomial(s: string)
    ensures SeedHash(s) == ToInt32(Polynomial31(s))
  {
    if s != [] {
      var p := s[..|s| - 1];
      var c := s[|s| - 1] as int;
      SeedHashIsPolynomial(p);
      HashStepMultipliesBy31(SeedHash(p), c);
      MultipleTimes(ToInt32(Polynomial31(p)) - Polynomial31(p), 31);
      assert (31 * SeedHash(p) + c) - (31 * Polynomial31(p) + c)
        == 31 * (ToInt32(Polynomial31(p)) - Polynomial31(p));
      ToInt32Congruent(31 * SeedHash(p) + c, 31 * Polynomial31(p) + c);
    }
  }

  /** The hashing loop of seededRandom. */
  method SeededHash(seed: string) returns (hash: int)
    ensures hash == SeedHash(seed)
    ensures -TWO_31 <= hash < TWO_31
  {
    hash := 0;
    for i := 0 to |seed|
      invariant hash == SeedHash(seed[..i])
    {
      var c := seed[i] as int;
      assert seed[..i + 1][..i] == seed[..i];
      hash := ToInt32(ToInt32(32 * hash) - hash + c);
    }
    assert seed[..|seed|] == seed;
  }

  function Abs(h: int): nat
  {
    if h < 0 then -h else h
  }

  /** `Math.floor(Math.abs(hash) / 2147483647 * n)`, computed exactly. */
  function SeededIndex(h: int, n: nat): nat
  {
    (Abs(h) * n) / SEED_DIVISOR
  }

  lemma MulLe(x: int, y: int, n: nat)
    requires x <= y
    ensures x * n <= y * n
    decreases n
  {
    if n > 0 {
      MulLe(x, y, n - 1);
      assert x * n == x * (n - 1) + x && y * n == y * (n - 1) + y;
    }
  }

  /** The seeded index is inside [0, n) exactly when the hash is not ±2147483647 or -2^31; for
      those three hashes the "random" value is 1 or above and the index is n itself. */
  lemma SeededIndexRange(h: int, n: nat)
    requires -TWO_31 <= h < TWO_31 && 0 < n < SEED_DIVISOR
    ensures SeededIndex(h, n) < n <==> Abs(h) < SEED_DIVISOR
    ensures Abs(h) >= SEED_DIVISOR ==> SeededIndex(h, n) == n
  {
    var a := Abs(h);
    var p := a * n;
    var q := p / SEED_DIVISOR;
    assert SEED_DIVISOR * q <= p < SEED_DIVISOR * q + SEED_DIVISOR;
    if a < SEED_DIVISOR {
      MulLe(a, SEED_DIVISOR - 1, n);
      assert (SEED_DIVISOR - 1) * n == SEED_DIVISOR * n - n;
    } else if a == SEED_DIVISOR {
      assert p == SEED_DIVISOR * n;
    } else {
      assert a == SEED_DIVISOR + 1;
      assert p == SEED_DIVISOR * n + n;
    }
  }

  /** getSeededRandomElement: the element at the seeded index, or None where the source reads
      `undefined` (an empty array, or an index equal to the length). */
  function GetSeededRandomElement<T>(arr: seq<T>, seed: string): (r: Option<T>)
    ensures r.Some? ==> r.value in arr && SeededIndex(SeedHash(seed), |arr|) < |arr|
    ensures r.Some? ==> r.value == arr[SeededIndex(SeedHash(seed), |arr|)]
    ensures 0 < |arr| < SEED_DIVISOR ==> (r.Some? <==> Abs(SeedHash(seed)) < SEED_DIVISOR)
    ensures arr == [] ==> r.None?
  {
    var i := SeededIndex(SeedHash(seed), |arr|);
    var r := if i < |arr| then Some(arr[i]) else None;
    if 0 < |arr| < SEED_DIVISOR then SeededIndexRange(SeedHash(seed), |arr|); r else r
  }

  /** `min + Math.floor(seededRandom(seed) * (max - min + 1))`: inside [min, max] except for the
      three out-of-range hashes, which give max + 1. */
  function SeededRange(min: int, max: int, seed: string): (r: int)
    requires min <= max && max - min + 1 < SEED_DIVISOR
    ensures min <= r <= max + 1
    ensures r <= max <==> Abs(SeedHash(seed)) < SEED_DIVISOR
  {
    SeededIndexRange(SeedHash(seed), max - min + 1);
    min + SeededIndex(SeedHash(seed), max - min + 1)
  }

  /** Every value of the range is produced by some hash: the one that scales to it. */
  lemma SeededRangeReachable(min: int, max: int, v: int, seed: string)
    requires min <= max && max - min + 1 < SEED_DIVISOR && min <= v <= max
    requires Abs(SeedHash(seed)) * (max - min + 1) / SEED_DIVISOR == v - min
    ensures SeededRange(min, max, seed) == v
  {
  }

  /** What the metadata of a daily task records. */
  datatype DailyMetadata =
    | BossMeta(bossName: string, killCount: int)
    | SkillMeta(skillName: string, levelsRequired: int)
    | GeMeta(itemCategory: Option<string>, amount: int)

  /** A daily task: it has no title, and its difficulty is a free string. */
  datatype DailyTask = DailyTask(
    id: string, category: Category, difficulty: string, description: string, icon: string,
    rewards: seq<Reward>, metadata: DailyMetadata, isDaily: bool)

  /** The keys reward, followed by the gold bonus when it is positive. */
  function DailyRewardsList(cfg: FlatReward): (r: seq<Reward>)
    ensures 1 <= |r| <= 2 && r[0] == KeysReward(cfg.keysPerTask)
    ensures |r| == 2 <==> cfg.goldBonus > 0
    ensures |r| == 2 ==> r[1] == GoldReward(cfg.goldBonus)
  {
    [KeysReward(cfg.keysPerTask)] + (if cfg.goldBonus > 0 then [GoldReward(cfg.goldBonus)] else [])
  }

  /** `daily-${difficulty}-${getTodayDateString()}`, read when the task object is built. */
  function DailyId(d: DailyDifficulty, today: string): string
  {
    "daily-" + DifficultyName(d) + "-" + today
  }

  /** `difficulty.toUpperCase()`, cast to the difficulty type. */
  function DailyDifficultyLabel(d: DailyDifficulty): (s: string)
    ensures s == ToUpper(DifficultyName(d))
  {
    ToUpper(DifficultyName(d))
  }

  /** The label a daily task carries is none of the lower-case difficulty names the rest of the
      game matches on, so code that switches on a task's difficulty takes its default branch. */
  lemma DailyLabelIsNoDifficultyName(d: DailyDifficulty, x: Difficulty)
    ensures DailyDifficultyLabel(d) != DifficultyName(x)
  {
    var s := DailyDifficultyLabel(d);
    assert 'A' <= s[0] <= 'Z';
    assert 'a' <= DifficultyName(x)[0] <= 'z';
  }

  /** The seed of a difficulty on a date: `${date}-${difficulty}`. */
  function DailySeed(d: DailyDifficulty, date: string): string
  {
    date + "-" + DifficultyName(d)
  }

  const TYPE_BOSS: string := "boss"
  const TYPE_SKILL: string := "skill"
  const TYPE_GE: string := "grandexchange"
  const TASK_TYPES: seq<string> := [TYPE_BOSS, TYPE_SKILL, TYPE_GE]

  const BOSSES_ICON: string := "/src/assets/tasks/Bosses_icon.png"
  const GE_ICON: string := "/src/assets/tasks/GrandExchange_icon.png"
  const UNDEFINED_NAME: string := "Cannot read properties of undefined (reading 'name')"

  /** The boss category of each difficulty: easy low, medium mid, hard high, elite elite. */
  function DailyBossCategory(d: DailyDifficulty): BossCategory
  {
    match d
    case Easy => LowLevel
    case Medium => MidLevel
    case Hard => HighLevel
    case Elite => EliteLevel
  }

  /** The catalog entries of one category, in catalog order. */
  function BossesOf(bosses: seq<BossTaskGenerator.BossData>, cat: BossCategory): (r: seq<BossTaskGenerator.BossData>)
    ensures forall b :: b in r <==> b in bosses && b.category == cat
    ensures |r| <= |bosses|
  {
    if bosses == [] then []
    else (if bosses[0].category == cat then [bosses[0]] else []) + BossesOf(bosses[1..], cat)
  }

  /** The kill-count range [min, max] of each difficulty. */
  function DailyKillRange(d: DailyDifficulty): (r: (int, int))
    ensures 1 <= r.0 < r.1 <= 15
  {
    match d
    case Easy => (1, 3)
    case Medium => (3, 5)
    case Hard => (5, 10)
    case Elite => (10, 15)
  }

  /** generateDailyBossTask: a boss of the difficulty's category picked by the seed, and a kill
      count from the difficulty's range picked by `seed-count`. No boss is picked (the source
      reads `.name` of undefined and throws) when the category has no boss or the hash is out of
      range. */
  function DailyBossTask(d: DailyDifficulty, seed: string, today: string, bosses: seq<BossTaskGenerator.BossData>): (r: Result<DailyTask>)
    ensures r.Err? <==> GetSeededRandomElement(BossesOf(bosses, DailyBossCategory(d)), seed).None?
    ensures r.Ok? ==> (r.value.category == Boss && r.value.id == DailyId(d, today)
      && r.value.icon == BOSSES_ICON && r.value.rewards == DailyRewardsList(DailyRewards(d)))
  {
    var boss := GetSeededRandomElement(BossesOf(bosses, DailyBossCategory(d)), seed);
    var (min, max) := DailyKillRange(d);
    var killCount := SeededRange(min, max, seed + "-count");
    match boss
    case None => Err(UNDEFINED_NAME)
    case Some(b) =>
      Ok(DailyTask(
        DailyId(d, today), Boss, DailyDifficultyLabel(d),
        "Kill " + IntToString(killCount) + "x " + b.name, BOSSES_ICON,
        DailyRewardsList(DailyRewards(d)), BossMeta(b.name, killCount), true))
  }

  /** A daily boss task names a boss of the difficulty's category and asks for a count inside the
      difficulty's range, unless the count's hash is one of the out-of-range three. */
  lemma DailyBossTaskFromCatalog(d: DailyDifficulty, seed: string, today: string, bosses: seq<BossTaskGenerator.BossData>)
    requires DailyBossTask(d, seed, today, bosses).Ok?
    ensures var t := DailyBossTask(d, seed, today, bosses).value;
      t.metadata.BossMeta?
      && (exists b :: b in bosses && b.category == DailyBossCategory(d) && b.name == t.metadata.bossName)
      && (DailyKillRange(d).0 <= t.metadata.killCount <= DailyKillRange(d).1
          <==> Abs(SeedHash(seed + "-count")) < SEED_DIVISOR)
  {
    var b := GetSeededRandomElement(BossesOf(bosses, DailyBossCategory(d)), seed).value;
    assert b in BossesOf(bosses, DailyBossCategory(d));
  }

  /** The 23 skills in the order the daily generator lists them, capitalised. */
  const DAILY_SKILLS: seq<string> := [
    "Attack", "Strength", "Defence", "Ranged", "Magic", "Hitpoints", "Prayer", "Slayer",
    "Mining", "Fishing", "Woodcutting", "Cooking", "Firemaking", "Crafting", "Smithing",
    "Fletching", "Herblore", "Thieving", "Agility", "Runecraft", "Construction", "Hunter",
    "Farming"]

  /** Each skill entry's icon is the skill's icon file. */
  function DailySkillIcon(name: string): string
  {
    "/src/assets/skills/" + name + "_icon.png"
  }

  /** The level-gain range [min, max] of each difficulty. */
  function DailyLevelRange(d: DailyDifficulty): (r: (int, int))
    ensures 1 <= r.0 < r.1 <= 7
  {
    match d
    case Easy => (1, 2)
    case Medium => (2, 3)
    case Hard => (3, 5)
    case Elite => (5, 7)
  }

  /** generateDailySkillTask: a skill picked by the seed and a gain picked by `seed-levels`; the
      out-of-range hash picks no skill and the source throws. */
  function DailySkillTask(d: DailyDifficulty, seed: string, today: string): (r: Result<DailyTask>)
    ensures r.Err? <==> Abs(SeedHash(seed)) >= SEED_DIVISOR
    ensures r.Ok? ==> (r.value.category == Skill && r.value.id == DailyId(d, today)
      && r.value.metadata.SkillMeta? && r.value.metadata.skillName in DAILY_SKILLS
      && r.value.icon == DailySkillIcon(r.value.metadata.skillName)
      && r.value.rewards == DailyRewardsList(DailyRewards(d)))
  {
    var skill := GetSeededRandomElement(DAILY_SKILLS, seed);
    var (min, max) := DailyLevelRange(d);
    var levels := SeededRange(min, max, seed + "-levels");
    match skill
    case None => Err(UNDEFINED_NAME)
    case Some(name) =>
      Ok(DailyTask(
        DailyId(d, today), Skill, DailyDifficultyLabel(d),
        "Gain " + IntToString(levels) + " " + name + " level" + (if levels > 1 then "s" else ""),
        DailySkillIcon(name), DailyRewardsList(DailyRewards(d)), SkillMeta(name, levels), true))
  }

  /** The item categories a difficulty chooses from. */
  function DailyItemCategories(d: DailyDifficulty): (r: seq<string>)
    ensures |r| == 3
  {
    match d
    case Easy => ["Logs", "Fish", "Ores"]
    case Medium => ["Bars", "Herbs", "Seeds"]
    case Hard => ["Potions", "Runes", "Equipment"]
    case Elite => ["Dragon items", "Barrows items", "God Wars items"]
  }

  /** The amount range [min, max] of each difficulty. */
  function DailyAmountRange(d: DailyDifficulty): (r: (int, int))
    ensures 5 <= r.0 < r.1 <= 100
  {
    match d
    case Easy => (50, 100)
    case Medium => (20, 50)
    case Hard => (10, 30)
    case Elite => (5, 15)
  }

  /** generateDailyGrandExchangeTask: a category picked by `seed-cat` and an amount picked by
      `seed-amount`. A missing category is not an error: the template prints "undefined". */
  function DailyGeTask(d: DailyDifficulty, seed: string, today: string): (r: DailyTask)
    ensures r.category == GrandExchange && r.id == DailyId(d, today) && r.icon == GE_ICON
    ensures r.rewards == DailyRewardsList(DailyRewards(d))
    ensures r.metadata.GeMeta?
    ensures r.metadata.itemCategory.Some? ==> r.metadata.itemCategory.value in DailyItemCategories(d)
    ensures r.metadata.itemCategory.Some? <==> Abs(SeedHash(seed + "-cat")) < SEED_DIVISOR
    ensures DailyAmountRange(d).0 <= r.metadata.amount <= DailyAmountRange(d).1
      <==> Abs(SeedHash(seed + "-amount")) < SEED_DIVISOR
  {
    var category := GetSeededRandomElement(DailyItemCategories(d), seed + "-cat");
    var (min, max) := DailyAmountRange(d);
    var amount := SeededRange(min, max, seed + "-amount");
    var shown := if category.Some? then category.value else "undefined";
    DailyTask(
      DailyId(d, today), GrandExchange, DailyDifficultyLabel(d),
      "Buy " + IntToString(amount) + "x " + shown + " from Grand Exchange", GE_ICON,
      DailyRewardsList(DailyRewards(d)), GeMeta(category, amount), true)
  }

  /** generateDailyTask: the task type picked by `seed-type`; anything but "boss" and "skill",
      including the undefined of an out-of-range hash, is a Grand Exchange task. */
  function GenerateDailyTask(d: DailyDifficulty, date: string, today: string, bosses: seq<BossTaskGenerator.BossData>): (r: Result<DailyTask>)
    ensures r.Ok? ==> (r.value.id == DailyId(d, today) && r.value.isDaily
      && r.value.difficulty == DailyDifficultyLabel(d)
      && r.value.category in {Boss, Skill, GrandExchange}
      && r.value.rewards == DailyRewardsList(DailyRewards(d)))
    ensures Abs(SeedHash(DailySeed(d, date) + "-type")) >= SEED_DIVISOR ==>
      r == Ok(DailyGeTask(d, DailySeed(d, date), today))
  {
    var seed := DailySeed(d, date);
    var taskType := GetSeededRandomElement(TASK_TYPES, seed + "-type");
    if taskType == Some(TYPE_BOSS) then DailyBossTask(d, seed, today, bosses)
    else if taskType == Some(TYPE_SKILL) then DailySkillTask(d, seed, today)
    else Ok(DailyGeTask(d, seed, today))
  }

  /** The task of a difficulty depends on the date it is generated for and not on the clock,
      except for its id: two clients on the same date derive the same task. */
  lemma DailyTaskIgnoresClock(d: DailyDifficulty, date: string, t1: string, t2: string, bosses: seq<BossTaskGenerator.BossData>)
    ensures var a := GenerateDailyTask(d, date, t1, bosses);
      var b := GenerateDailyTask(d, date, t2, bosses);
      a.Ok? == b.Ok? && (a.Ok? ==> a.value.(id := "") == b.value.(id := ""))
  {
    var seed := DailySeed(d, date);
    var taskType := GetSeededRandomElement(TASK_TYPES, seed + "-type");
    if taskType == Some(TYPE_BOSS) {
      BossTaskIgnoresClock(d, seed, t1, t2, bosses);
    } else if taskType == Some(TYPE_SKILL) {
      SkillTaskIgnoresClock(d, seed, t1, t2);
    } else {
      GeTaskIgnoresClock(d, seed, t1, t2);
    }
  }

  /** Two results that agree on success and, when successful, on everything but the id. */
  predicate SameUpToId(a: Result<DailyTask>, b: Result<DailyTask>)
  {
    a.Ok? == b.Ok? && (a.Ok? ==> a.value.(id := "") == b.value.(id := ""))
  }

  lemma BossTaskIgnoresClock(d: DailyDifficulty, seed: string, t1: string, t2: string, bosses: seq<BossTaskGenerator.BossData>)
    ensures SameUpToId(DailyBossTask(d, seed, t1, bosses), DailyBossTask(d, seed, t2, bosses))
  {
  }

  lemma SkillTaskIgnoresClock(d: DailyDifficulty, seed: string, t1: string, t2: string)
    ensures SameUpToId(DailySkillTask(d, seed, t1), DailySkillTask(d, seed, t2))
  {
  }

  lemma GeTaskIgnoresClock(d: DailyDifficulty, seed: string, t1: string, t2: string)
    ensures SameUpToId(Ok(DailyGeTask(d, seed, t1)), Ok(DailyGeTask(d, seed, t2)))
  {
  }

  /** Every daily task pays the difficulty's keys and its gold bonus: two rewards, both positive. */
  lemma DailyTaskPaysKeysAndGold(d: DailyDifficulty, date: string, today: string, bosses: seq<BossTaskGenerator.BossData>)
    requires GenerateDailyTask(d, date, today, bosses).Ok?
    ensures var rs := GenerateDailyTask(d, date, today, bosses).value.rewards;
      |rs| == 2 && rs[0].kind == Keys && rs[0].amount == DailyRewards(d).keysPerTask >= 1
      && rs[1].kind == Gold && rs[1].amount == DailyRewards(d).goldBonus > 0
  {
  }

  /** The four daily tasks of a day. */
  datatype DailyTasks = DailyTasks(easy: Result<DailyTask>, medium: Result<DailyTask>, hard: Result<DailyTask>, elite: Result<DailyTask>)

  /** generateAllDailyTasks: all four generated for the same date string; the same clock reading
      goes into the ids, since both are today's date. */
  function GenerateAllDailyTasks(today: string, bosses: seq<BossTaskGenerator.BossData>): (r: DailyTasks)
    ensures r.easy.Ok? ==> r.easy.value.id == DailyId(Easy, today)
    ensures r.medium.Ok? ==> r.medium.value.id == DailyId(Medium, today)
    ensures r.hard.Ok? ==> r.hard.value.id == DailyId(Hard, today)
    ensures r.elite.Ok? ==> r.elite.value.id == DailyId(Elite, today)
  {
    DailyTasks(
      GenerateDailyTask(Easy, today, today, bosses), GenerateDailyTask(Medium, today, today, bosses),
      GenerateDailyTask(Hard, today, today, bosses), GenerateDailyTask(Elite, today, today, bosses))
  }

  /** The four tasks of a day have four different ids, and a task's id differs between days. */
  lemma DailyIdsDistinct(d1: DailyDifficulty, d2: DailyDifficulty, t1: string, t2: string)
    requires d1 != d2 || t1 != t2
    ensures DailyId(d1, t1) != DailyId(d2, t2)
  {
    var n1 := DifficultyName(d1);
    var n2 := DifficultyName(d2);
    if d1 != d2 {
      assert DailyId(d1, t1)[6] == n1[0] && DailyId(d1, t1)[7] == n1[1];
      assert DailyId(d2, t2)[6] == n2[0] && DailyId(d2, t2)[7] == n2[1];
      assert n1[0] != n2[0] || n1[1] != n2[1];
    } else {
      assert DailyId(d1, t1)[7 + |n1|..] == t1;
      assert DailyId(d2, t2)[7 + |n2|..] == t2;
    }
  }

  /** getTodayDateString for a clock reading: `YYYY-MM-DD`, the month one-based, month and day
      padded to two digits. */
  function GetTodayDateString(year: int, month0: int, day: int): string
  {
    IntToString(year) + "-" + PadStart2(IntToString(month0 + 1)) + "-" + PadStart2(IntToString(day))
  }

  lemma PaddedValue(n: nat)
    requires n < 100
    ensures |PadStart2(IntToString(n))| == 2 && AllDigits(PadStart2(IntToString(n)))
    ensures ParseInt(PadStart2(IntToString(n))) == Num(n)
  {
    var s := IntToString(n);
    assert s == NatToString(n);
    NatToStringValue(n);
    if n < 10 {
      assert |s| == 1;
      assert PadStart2(s) == "0" + s;
      DigitsFromAppend(0, "0", s);
    } else {
      assert |s| == 2 by {
        assert NatToString(n) == NatToString(n / 10) + [DigitChar(n % 10)];
      }
    }
    ParseIntOfDigits(PadStart2(s));
  }

  lemma YearLength(year: int)
    requires 1000 <= year <= 9999
    ensures |IntToString(year)| == 4
  {
    assert IntToString(year) == NatToString(year);
    assert NatToString(year) == NatToString(year / 10) + [DigitChar(year % 10)];
    assert NatToString(year / 10) == NatToString(year / 100) + [DigitChar(year / 10 % 10)];
    assert NatToString(year / 100) == NatToString(year / 1000) + [DigitChar(year / 100 % 10)];
  }

  lemma DashedFields(y: string, m: string, d: string)
    requires |y| == 4 && |m| == 2 && |d| == 2
    ensures var s := y + "-" + m + "-" + d;
      |s| == 10 && s[4] == '-' && s[7] == '-' && s[..4] == y && s[5..7] == m && s[8..] == d
  {
  }

  /** For a four-digit year, a month index 0-11 and a day 1-31 the string is ten characters with
      dashes at 4 and 7, and its three fields read back as the year, the one-based month and the
      day. */
  lemma DateStringRoundTrip(year: int, month0: int, day: int)
    requires 1000 <= year <= 9999 && 0 <= month0 < 12 && 1 <= day <= 31
    ensures var s := GetTodayDateString(year, month0, day);
      |s| == 10 && s[4] == '-' && s[7] == '-'
      && ParseInt(s[..4]) == Num(year) && ParseInt(s[5..7]) == Num(month0 + 1)
      && ParseInt(s[8..]) == Num(day)
  {
    YearLength(year);
    PaddedValue(month0 + 1);
    PaddedValue(day);
    IntToStringRoundTrip(year);
    DashedFields(IntToString(year), PadStart2(IntToString(month0 + 1)), PadStart2(IntToString(day)));
  }
}
