/** The entities of the tile game: categories, difficulties, rewards, requirements,
    generated tasks, key sources, the persisted game state, and grid positions with their
    canonical "x,y" keys. */
module GameTypes {
  import opened Strings

  datatype Option<T> = None | Some(value: T)

  /** A generator's outcome: a value, or the error it throws. */
  datatype Result<T> = Ok(value: T) | Err(error: string)

  /** The task categories the generators use (TaskCategory). */
  datatype Category = Start | Skill | Quest | Boss | Drop | GrandExchange | Slayer | Daily

  /** `Object.values(TaskCategory)`, in declaration order. */
  const ALL_CATEGORIES: seq<Category> := [Start, Skill, Quest, Boss, Drop, GrandExchange, Slayer, Daily]

  lemma AllCategoriesListed(c: Category)
    ensures c in ALL_CATEGORIES
  {
  }

  datatype Difficulty = Easy | Medium | Hard | Elite | Master

  /** The lower-case string value of each difficulty ('easy' ... 'master'). */
  function DifficultyName(d: Difficulty): string
  {
    match d
    case Easy => "easy"
    case Medium => "medium"
    case Hard => "hard"
    case Elite => "elite"
    case Master => "master"
  }

  /** Position of a difficulty on the easy..master scale. */
  function DifficultyRank(d: Difficulty): nat
  {
    match d
    case Easy => 0
    case Medium => 1
    case Hard => 2
    case Elite => 3
    case Master => 4
  }

  datatype RewardType = Keys | Experience | Gold

  datatype Reward = Reward(kind: RewardType, amount: int, description: string)

  /** `{ type: 'keys', amount: n, description: `${n} Key${n > 1 ? 's' : ''}` }`. */
  function KeysReward(n: int): (r: Reward)
    ensures r.kind == Keys && r.amount == n
  {
    Reward(Keys, n, IntToString(n) + " Key" + (if n > 1 then "s" else ""))
  }

  /** `{ type: 'gold', amount: n, description: `${n} Gold` }`. */
  function GoldReward(n: int): (r: Reward)
    ensures r.kind == Gold && r.amount == n
  {
    Reward(Gold, n, IntToString(n) + " Gold")
  }

  /** What a task asks for, one shape per generator. */
  datatype Requirement =
    | SkillReq(skill: string, currentLevel: int, requiredLevel: int)
    | BossReq(boss: string, killCount: int)
    | ItemReq(item: string, amount: int)
    | QuestReq(quest: string)

  /** A generated task (GeneratedTask); `skillName` is set by the skill generator only. */
  datatype Task = Task(
    id: string,
    title: string,
    description: string,
    category: Category,
    difficulty: Difficulty,
    skillName: Option<string>,
    requirements: seq<Requirement>,
    rewards: seq<Reward>)

  datatype KeySource = KeySource(
    id: string,
    name: string,
    description: string,
    category: Category,
    keysRewarded: int,
    completed: bool,
    currentCount: int,
    requiredCount: int,
    icon: string)

  /** Skill name to level, as delivered by the hiscores endpoint. */
  type PlayerStats = map<string, int>

  /** The persisted progression state. Tile lists hold "x,y" keys. */
  datatype GameState = GameState(
    playerName: string,
    playerStats: PlayerStats,
    keys: int,
    gold: int,
    unlockedTiles: seq<string>,
    completedTiles: seq<string>,
    visibleTiles: seq<string>,
    keySources: seq<KeySource>,
    tileTasks: map<string, Task>,
    lastUpdated: int,
    statsLastFetched: int)

  /** The 23 trainable skills, in hiscores order. */
  const SKILLS: seq<string> := [
    "attack", "defence", "strength", "hitpoints", "ranged", "prayer", "magic",
    "cooking", "woodcutting", "fletching", "fishing", "firemaking", "crafting",
    "smithing", "mining", "herblore", "agility", "thieving", "slayer", "farming",
    "runecraft", "hunter", "construction"]

  /** Every field of a PlayerStats record: the overall level and then the 23 skills. */
  const STAT_NAMES: seq<string> := ["overall"] + SKILLS

  /** The PlayerStats shape: every stat name has a level. */
  predicate HasAllStats(stats: PlayerStats)
  {
    forall n :: n in STAT_NAMES ==> n in stats
  }

  datatype Position = Pos(x: int, y: int)

  /** The canonical key `${x},${y}` of a position. */
  function TileKey(p: Position): string
  {
    IntToString(p.x) + "," + IntToString(p.y)
  }

  /** Two positions share a key only when they are equal. */
  lemma TileKeyInjective(p: Position, q: Position)
    requires TileKey(p) == TileKey(q)
    ensures p == q
  {
    SplitAtFirst(IntToString(p.x), ',', IntToString(p.y));
    SplitAtFirst(IntToString(q.x), ',', IntToString(q.y));
    SplitNoSeparator(IntToString(p.y), ',');
    SplitNoSeparator(IntToString(q.y), ',');
    assert Split(TileKey(p), ',') == [IntToString(p.x), IntToString(p.y)];
    assert Split(TileKey(q), ',') == [IntToString(q.x), IntToString(q.y)];
    IntToStringInjective(p.x, q.x);
    IntToStringInjective(p.y, q.y);
  }

  /** A draw below the length picks its own index: `i % n == i`. */
  lemma SmallRemainder(i: nat, n: nat)
    requires i < n
    ensures i % n == i
  {
  }
}
