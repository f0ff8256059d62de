/** The skill-training task generator: a random skill below level 99, a level gain that depends
    on the current level band, and a difficulty read off the gain. `Math.random()` is replaced by
    explicit draws: one per attempt to pick a skill, and one for the level gain. */
module SkillTaskGenerator {
  import opened Strings
  import opened GameTypes
  import Rewards

  const MAX_LEVEL: int := 99
  const ATTACK_ICON: string := "/src/assets/skills/Attack_icon.png"

  /** The difficulty of a training task from its level gain: up to 2 easy, up to 5 medium, up to
      8 hard, elite above that. */
  function DifficultyFromLevelIncrease(inc: int): (d: Difficulty)
    ensures d == Easy <==> inc <= 2
    ensures d == Medium <==> 2 < inc <= 5
    ensures d == Hard <==> 5 < inc <= 8
    ensures d == Elite <==> 8 < inc
  {
    var t := Rewards.SKILL_DIFFICULTY_THRESHOLDS;
    if inc <= t.easy then Easy
    else if inc <= t.medium then Medium
    else if inc <= t.hard then Hard
    else Elite
  }

  /** A larger gain never gives an easier task. */
  lemma DifficultyMonotone(a: int, b: int)
    requires a <= b
    ensures DifficultyRank(DifficultyFromLevelIncrease(a)) <= DifficultyRank(DifficultyFromLevelIncrease(b))
  {
  }

  /** The level gain for a current level, from the draw `d`: 1..10 for levels 1-40, 1..5 for
      41-75, and 1 otherwise. */
  function LevelIncrease(level: int, d: nat): (inc: int)
    ensures 1 <= level <= 40 ==> 1 <= inc <= 10
    ensures 41 <= level <= 75 ==> 1 <= inc <= 5
    ensures !(1 <= level <= 75) ==> inc == 1
  {
    if 1 <= level <= 40 then d % 10 + 1
    else if 41 <= level <= 75 then d % 5 + 1
    else if 76 <= level <= 98 then 1
    else 1
  }

  /** Every gain allowed in a band is produced by some draw. */
  lemma LevelIncreaseReachable(level: int, inc: int)
    requires (1 <= level <= 40 && 1 <= inc <= 10) || (41 <= level <= 75 && 1 <= inc <= 5)
      || (!(1 <= level <= 75) && inc == 1)
    ensures LevelIncrease(level, (inc - 1) as nat) == inc
  {
  }

  /** The only elite or hard training tasks are for levels 1-40: higher bands gain at most 5. */
  lemma HighLevelsAreAtMostMedium(level: int, d: nat)
    requires level > 40
    ensures DifficultyRank(DifficultyFromLevelIncrease(LevelIncrease(level, d))) <= 1
  {
  }

  /** `Math.min(level + inc, 99)`. */
  function TargetLevel(level: int, inc: int): (target: int)
    ensures target <= MAX_LEVEL
    ensures target == level + inc || target == MAX_LEVEL
    ensures level < MAX_LEVEL && inc >= 1 ==> level < target
  {
    if level + inc < MAX_LEVEL then level + inc else MAX_LEVEL
  }

  /** The task object for training `skill` from `level` by `inc` levels. */
  function SkillTaskFor(tileId: string, skill: string, level: int, inc: int): (t: Task)
    ensures t.id == "skill_" + tileId
    ensures t.title == Capitalize(skill) + " Training"
    ensures t.category == Skill && t.skillName == Some(skill)
    ensures t.difficulty == DifficultyFromLevelIncrease(inc)
    ensures t.requirements == [SkillReq(skill, level, TargetLevel(level, inc))]
    ensures t.rewards == [KeysReward(1), GoldReward(0)]
  {
    var target := TargetLevel(level, inc);
    var r := Rewards.SKILL_REWARDS;
    Task(
      "skill_" + tileId,
      Capitalize(skill) + " Training",
      "Train " + skill + " from level " + IntToString(level) + " to level " + IntToString(target),
      Skill, DifficultyFromLevelIncrease(inc), Some(skill),
      [SkillReq(skill, level, target)],
      [KeysReward(r.keysPerTask), GoldReward(r.goldBonus)])
  }

  /** The skill a draw names: `SKILLS[Math.floor(Math.random() * 23)]`, which is never undefined. */
  function DrawSkill(d: nat): (s: string)
    ensures s in SKILLS
  {
    SKILLS[d % |SKILLS|]
  }

  /** Every skill is named by some draw. */
  lemma DrawSkillReachable(i: nat)
    requires i < |SKILLS|
    ensures DrawSkill(i) == SKILLS[i]
  {
    SmallRemainder(i, |SKILLS|);
  }

  /** The stats name a level for every skill, as the PlayerStats shape promises. */
  predicate HasSkillLevels(stats: PlayerStats)
  {
    forall s :: s in SKILLS ==> s in stats
  }

  /** The skill a draw names can still be trained. */
  predicate Trainable(stats: PlayerStats, d: nat)
    requires HasSkillLevels(stats)
  {
    stats[DrawSkill(d)] < MAX_LEVEL
  }

  /** The task for the skill draw `d` with the gain drawn by `incDraw`. */
  function TrainingFor(tileId: string, stats: PlayerStats, d: nat, incDraw: nat): Task
    requires HasSkillLevels(stats)
  {
    var s := DrawSkill(d);
    SkillTaskFor(tileId, s, stats[s], LevelIncrease(stats[s], incDraw))
  }

  /** Draw `i` is the first one naming a trainable skill. */
  predicate FirstTrainable(stats: PlayerStats, skillDraws: seq<nat>, i: nat)
    requires HasSkillLevels(stats)
  {
    i < |skillDraws| && Trainable(stats, skillDraws[i])
    && forall j :: 0 <= j < i ==> !Trainable(stats, skillDraws[j])
  }

  /** generateSkillTask: draws a skill, draws again while it is at level 99 or above, then builds
      the task with the gain drawn by `incDraw`. The source retries without bound; here each retry
      consumes one element of `skillDraws`, and running out of draws is the error that the
      unbounded recursion ends in (the call stack overflows). The result is a task exactly when
      some draw names a trainable skill, and then it trains the first such skill. */
  function GenerateSkillTask(tileId: string, stats: PlayerStats, skillDraws: seq<nat>, incDraw: nat): (r: Result<Task>)
    requires HasSkillLevels(stats)
    ensures r.Ok? <==> exists i :: 0 <= i < |skillDraws| && Trainable(stats, skillDraws[i])
    ensures r.Ok? ==>
      exists i: nat :: FirstTrainable(stats, skillDraws, i) && r.value == TrainingFor(tileId, stats, skillDraws[i], incDraw)
    decreases |skillDraws|
  {
    if skillDraws == [] then Err("Maximum call stack size exceeded")
    else
      var skill := DrawSkill(skillDraws[0]);
      var level := stats[skill];
      if level >= MAX_LEVEL then
        var rest := GenerateSkillTask(tileId, stats, skillDraws[1..], incDraw);
        assert forall i :: 1 <= i < |skillDraws| ==> skillDraws[i] == skillDraws[1..][i - 1];
        if rest.Ok? then
          var i: nat :| FirstTrainable(stats, skillDraws[1..], i)
            && rest.value == TrainingFor(tileId, stats, skillDraws[1..][i], incDraw);
          assert FirstTrainable(stats, skillDraws, i + 1);
          rest
        else rest
      else
        assert Trainable(stats, skillDraws[0]);
        Ok(SkillTaskFor(tileId, skill, level, LevelIncrease(level, incDraw)))
  }

  /** A generated skill task trains one of the 23 skills, from a level below 99 to a strictly
      higher target of at most 99, and pays exactly one key and no gold. */
  lemma SkillTaskTrainsUnmaxedSkill(tileId: string, stats: PlayerStats, skillDraws: seq<nat>, incDraw: nat)
    requires HasSkillLevels(stats)
    requires GenerateSkillTask(tileId, stats, skillDraws, incDraw).Ok?
    ensures var t := GenerateSkillTask(tileId, stats, skillDraws, incDraw).value;
      t.skillName.Some? && t.skillName.value in SKILLS
      && |t.requirements| == 1 && t.requirements[0].SkillReq?
      && t.requirements[0].skill == t.skillName.value
      && t.requirements[0].currentLevel == stats[t.skillName.value] < MAX_LEVEL
      && t.requirements[0].currentLevel < t.requirements[0].requiredLevel <= MAX_LEVEL
      && t.rewards[0].amount == 1 && t.rewards[1].amount == 0
  {
    var i: nat :| FirstTrainable(stats, skillDraws, i)
      && GenerateSkillTask(tileId, stats, skillDraws, incDraw).value == TrainingFor(tileId, stats, skillDraws[i], incDraw);
    var s := DrawSkill(skillDraws[i]);
    assert LevelIncrease(stats[s], incDraw) >= 1;
  }

  /** When every skill is at 99 or above, no sequence of draws ever yields a task (the source
      recurses forever). */
  lemma AllMaxedNeverYields(tileId: string, stats: PlayerStats, skillDraws: seq<nat>, incDraw: nat)
    requires HasSkillLevels(stats)
    requires forall s :: s in SKILLS ==> stats[s] >= MAX_LEVEL
    ensures GenerateSkillTask(tileId, stats, skillDraws, incDraw).Err?
  {
  }

  /** When some skill can be trained, a single draw naming it yields a task for that skill. */
  lemma TrainableSkillIsReachable(tileId: string, stats: PlayerStats, i: nat, incDraw: nat)
    requires HasSkillLevels(stats)
    requires i < |SKILLS| && stats[SKILLS[i]] < MAX_LEVEL
    ensures GenerateSkillTask(tileId, stats, [i], incDraw).Ok?
    ensures GenerateSkillTask(tileId, stats, [i], incDraw).value.skillName == Some(SKILLS[i])
  {
    DrawSkillReachable(i);
    assert Trainable(stats, [i][0]);
  }

  /** getSkillIcon: the Attack icon for a missing or empty name, otherwise the icon file named after
      the skill with its first letter upper-cased. */
  function GetSkillIcon(skillName: Option<string>): (icon: string)
    ensures skillName.None? || skillName.value == "" ==> icon == ATTACK_ICON
    ensures skillName.Some? && skillName.value != "" ==>
      icon == "/src/assets/skills/" + Capitalize(skillName.value) + "_icon.png"
  {
    if skillName.None? || skillName.value == "" then ATTACK_ICON
    else "/src/assets/skills/" + Capitalize(skillName.value) + "_icon.png"
  }

  /** A lower-case name is recovered from its icon path by lower-casing the part between the
      directory and the suffix. */
  lemma SkillIconNamesSkill(name: string)
    requires name != [] && forall k :: 0 <= k < |name| ==> 'a' <= name[k] <= 'z'
    ensures var icon := GetSkillIcon(Some(name));
      var dir := "/src/assets/skills/";
      icon[..|dir|] == dir && ToLower(icon[|dir|..|dir| + |name|]) == name
  {
    var dir := "/src/assets/skills/";
    var c := Capitalize(name);
    var icon := GetSkillIcon(Some(name));
    assert icon == dir + c + "_icon.png";
    assert icon[..|dir|] == dir;
    assert icon[|dir|..|dir| + |name|] == c;
    LowerOfCapitalized(name);
  }

  /** Lower-casing a capitalised lower-case name gives the name back. */
  lemma LowerOfCapitalized(name: string)
    requires name != [] && forall k :: 0 <= k < |name| ==> 'a' <= name[k] <= 'z'
    ensures ToLower(Capitalize(name)) == name
  {
    var c := Capitalize(name);
    forall k | 0 <= k < |name|
      ensures ToLowerChar(c[k]) == name[k]
    {
      if k > 0 {
        assert c[k] == c[1..][k - 1] == name[1..][k - 1];
      }
    }
  }
}
