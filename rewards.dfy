/** The economy tables: every number a generator or milestone pays out. */
module Rewards {
  import opened GameTypes

  /** The difficulty category attached to each boss in the boss catalog. */
  datatype BossCategory = LowLevel | MidLevel | HighLevel | EliteLevel

  function BossCategoryRank(c: BossCategory): nat
  {
    match c
    case LowLevel => 0
    case MidLevel => 1
    case HighLevel => 2
    case EliteLevel => 3
  }

  datatype BossConfig = BossConfig(
    difficulty: Difficulty, killMin: int, killMax: int, goldPerKill: int, keysPerTask: int)

  /** BOSS_REWARDS: kill-count range, gold per kill and keys, per boss category. Only the elite
      category grants a key. */
  function BossRewards(c: BossCategory): (cfg: BossConfig)
    ensures 1 <= cfg.killMin <= cfg.killMax
    ensures cfg.goldPerKill > 0
    ensures cfg.keysPerTask == (if c == EliteLevel then 1 else 0)
    ensures DifficultyRank(cfg.difficulty) == BossCategoryRank(c)
  {
    match c
    case LowLevel => BossConfig(Easy, 10, 25, 15, 0)
    case MidLevel => BossConfig(Medium, 5, 15, 40, 0)
    case HighLevel => BossConfig(Hard, 3, 8, 100, 0)
    case EliteLevel => BossConfig(Elite, 1, 3, 400, 1)
  }

  /** Gold per kill strictly increases with the boss category. */
  lemma BossGoldIncreases(a: BossCategory, b: BossCategory)
    requires BossCategoryRank(a) < BossCategoryRank(b)
    ensures BossRewards(a).goldPerKill < BossRewards(b).goldPerKill
  {
  }

  /** The price tiers of Grand Exchange items. */
  datatype GeTier = CheapItems | MediumItems | ExpensiveItems | LuxuryItems

  function GeTierRank(t: GeTier): nat
  {
    match t
    case CheapItems => 0
    case MediumItems => 1
    case ExpensiveItems => 2
    case LuxuryItems => 3
  }

  datatype GeConfig = GeConfig(
    difficulty: Difficulty, amountMin: int, amountMax: int, goldBonus: int, keysPerTask: int)

  /** GE_REWARDS: item-amount range, gold bonus and keys, per tier. Only the luxury tier grants a key. */
  function GeRewards(t: GeTier): (cfg: GeConfig)
    ensures 1 <= cfg.amountMin <= cfg.amountMax
    ensures cfg.goldBonus > 0
    ensures cfg.keysPerTask == (if t == LuxuryItems then 1 else 0)
    ensures DifficultyRank(cfg.difficulty) == GeTierRank(t)
  {
    match t
    case CheapItems => GeConfig(Easy, 50, 100, 50, 0)
    case MediumItems => GeConfig(Medium, 20, 50, 150, 0)
    case ExpensiveItems => GeConfig(Hard, 5, 20, 350, 0)
    case LuxuryItems => GeConfig(Elite, 1, 5, 600, 1)
  }

  /** The gold bonus strictly increases with the tier. */
  lemma GeGoldIncreases(a: GeTier, b: GeTier)
    requires GeTierRank(a) < GeTierRank(b)
    ensures GeRewards(a).goldBonus < GeRewards(b).goldBonus
  {
  }

  /** A flat key-and-gold reward (QUEST_REWARDS, SKILL_REWARDS, START_TASK_REWARDS). */
  datatype FlatReward = FlatReward(keysPerTask: int, goldBonus: int)

  const QUEST_REWARDS: FlatReward := FlatReward(1, 100)
  const SKILL_REWARDS: FlatReward := FlatReward(1, 0)
  const START_TASK_REWARDS: FlatReward := FlatReward(2, 50)

  /** Upper bounds of the easy, medium, hard and elite bands. */
  datatype Thresholds = Thresholds(easy: int, medium: int, hard: int, elite: int)

  /** Thresholds that strictly increase from easy to elite. */
  predicate StrictlyIncreasing(t: Thresholds)
  {
    t.easy < t.medium < t.hard < t.elite
  }

  /** Quest points to difficulty. */
  const QUEST_DIFFICULTY_THRESHOLDS: Thresholds := Thresholds(0, 2, 3, 4)
  /** Level increase to difficulty. */
  const SKILL_DIFFICULTY_THRESHOLDS: Thresholds := Thresholds(2, 5, 8, 9)

  lemma ThresholdsIncrease()
    ensures StrictlyIncreasing(QUEST_DIFFICULTY_THRESHOLDS)
    ensures StrictlyIncreasing(SKILL_DIFFICULTY_THRESHOLDS)
  {
  }

  /** SLAYER_REWARDS: tasks required per master, and the milestone reward. */
  const SLAYER_TASKS_REQUIRED: map<string, int> := map[
    "turael" := 10, "aya" := 10, "spria" := 10, "mazchna" := 8, "achtryn" := 8,
    "vannaka" := 7, "chaeldar" := 6, "konar" := 5, "nieve" := 4, "steve" := 4,
    "duradel" := 3, "kuradal" := 3, "krystilia" := 3]
  const SLAYER_KEYS_PER_MILESTONE: int := 1
  const SLAYER_GOLD_BONUS: int := 200

  /** One quest-gated master substitution (SLAYER_MASTER_REPLACEMENTS). */
  datatype Replacement = Replacement(oldName: string, newName: string, oldImage: string, newImage: string)

  const WHILE_GUTHIX_SLEEPS_REPLACEMENTS: seq<Replacement> := [
    Replacement("Turael", "Aya", "/src/assets/slayer_masters/Turael_head.png", "/src/assets/slayer_masters/Aya_head.png"),
    Replacement("Mazchna", "Achtryn", "/src/assets/slayer_masters/Mazchna_head.png", "/src/assets/slayer_masters/Achtryn_head.png"),
    Replacement("Duradel", "Kuradal", "/src/assets/slayer_masters/Duradel_head.png", "/src/assets/slayer_masters/Kuradal_head.png")]
  const MONKEY_MADNESS_2_REPLACEMENTS: seq<Replacement> := [
    Replacement("Nieve", "Steve", "/src/assets/slayer_masters/Nieve_head.png", "/src/assets/slayer_masters/Steve_head.png")]

  /** Every master needs at least one task, and the harder masters need fewer. */
  lemma SlayerRequirementsPositive()
    ensures forall m :: m in SLAYER_TASKS_REQUIRED ==> SLAYER_TASKS_REQUIRED[m] >= 1
    ensures SLAYER_TASKS_REQUIRED["duradel"] < SLAYER_TASKS_REQUIRED["turael"]
  {
  }

  /** STARTING_RESOURCES. */
  const STARTING_KEYS: int := 1
  const STARTING_GOLD: int := 50

  /** The four daily difficulties ('easy', 'medium', 'hard', 'elite'). */
  type DailyDifficulty = d: Difficulty | d != Master witness Easy

  /** DAILY_REWARDS: keys and gold bonus per daily difficulty. */
  function DailyRewards(d: DailyDifficulty): (r: FlatReward)
    ensures r.keysPerTask >= 1 && r.goldBonus > 0
  {
    match d
    case Easy => FlatReward(1, 50)
    case Medium => FlatReward(2, 150)
    case Hard => FlatReward(3, 350)
    case Elite => FlatReward(5, 750)
  }

  /** Daily keys and gold strictly increase from easy to elite. */
  lemma DailyRewardsIncrease(a: DailyDifficulty, b: DailyDifficulty)
    requires DifficultyRank(a) < DifficultyRank(b)
    ensures DailyRewards(a).keysPerTask < DailyRewards(b).keysPerTask
    ensures DailyRewards(a).goldBonus < DailyRewards(b).goldBonus
  {
  }

  /** The start task is worth 2 keys and 50 gold; a new player starts with 1 key and 50 gold. */
  lemma StartRewards()
    ensures START_TASK_REWARDS == FlatReward(2, 50)
    ensures STARTING_KEYS == 1 && STARTING_GOLD == 50
  {
  }
}
