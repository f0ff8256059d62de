/** The task dispatcher (generateTaskForTile): the fixed start task on the origin, otherwise a
    random category outside the excluded ones, its generator, and a boss task whenever that
    generator fails. Every random choice is an explicit draw. */
module TaskGenerator {
  import opened GameTypes
  import OtherTaskGenerator
  import SkillTaskGenerator
  import BossTaskGenerator
  import GeTaskGenerator
  import QuestTaskGenerator
  import Rewards

  /** The fixed data files the generators read: the boss catalog, which is never empty, and the
      Grand Exchange item lists. */
  datatype CatalogData = CatalogData(bosses: seq<BossTaskGenerator.BossData>, geItems: GeTaskGenerator.GeItems)
  type Catalog = c: CatalogData | |c.bosses| > 0
    witness CatalogData([BossTaskGenerator.BossData("", "", 0, Rewards.LowLevel, false)], GeTaskGenerator.GeItems([], [], [], []))

  /** Player stats with a level for every one of the 23 skills. */
  type SkillStats = s: PlayerStats | SkillTaskGenerator.HasSkillLevels(s) witness map s | s in SKILLS :: 1

  /** The random draws of one call: the category, each generator's own draws, and the draws of the
      boss task that replaces a failed generator. */
  datatype Draws = Draws(
    category: nat,
    skillDraws: seq<nat>, levelDraw: nat,
    questDraw: nat,
    bossDraw: nat, killDraw: nat,
    geAttempts: seq<GeTaskGenerator.GeAttempt>, amountDraw: nat,
    fallbackBossDraw: nat, fallbackKillDraw: nat)

  /** `Object.values(TaskCategory)` without the excluded categories, or every category when that
      leaves none. */
  function AvailableCategories(excluded: seq<Category>): (r: seq<Category>)
    ensures |r| > 0
    ensures (forall c :: c in ALL_CATEGORIES ==> c in excluded) ==> r == ALL_CATEGORIES
    ensures (exists c :: c in ALL_CATEGORIES && c !in excluded) ==> (forall c :: (c in r) <==> (c !in excluded))
  {
    var kept := Remaining(ALL_CATEGORIES, excluded);
    RemainingOfAll(excluded);
    if kept == [] then ALL_CATEGORIES
    else
      assert kept[0] in kept;
      AllCategoriesListed(kept[0]);
      kept
  }

  /** The elements of `cs` that are not excluded, in order. */
  function Remaining(cs: seq<Category>, excluded: seq<Category>): (r: seq<Category>)
    ensures forall c :: c in r <==> c in cs && c !in excluded
  {
    if cs == [] then [] else (if cs[0] in excluded then [] else [cs[0]]) + Remaining(cs[1..], excluded)
  }

  lemma RemainingOfAll(excluded: seq<Category>)
    ensures forall c :: c in Remaining(ALL_CATEGORIES, excluded) <==> c !in excluded
  {
    forall c: Category
      ensures c in Remaining(ALL_CATEGORIES, excluded) <==> c !in excluded
    {
      AllCategoriesListed(c);
    }
  }

  /** The category the draw picks among the available ones. */
  function ChosenCategory(excluded: seq<Category>, d: nat): (c: Category)
    ensures c in AvailableCategories(excluded)
  {
    var available := AvailableCategories(excluded);
    available[d % |available|]
  }

  /** The picked category is never an excluded one, unless every category is excluded. */
  lemma ChosenIsNotExcluded(excluded: seq<Category>, d: nat)
    requires exists c :: c in ALL_CATEGORIES && c !in excluded
    ensures ChosenCategory(excluded, d) !in excluded
  {
  }

  /** The category's generator: skill, quest and Grand Exchange have their own; boss and drop use the
      boss generator; every other category falls to the skill generator. The result is the task, or
      the error the generator throws. */
  function RunCategory(category: Category, tileId: string, stats: SkillStats,
    quests: QuestTaskGenerator.QuestResponse, catalog: Catalog, draws: Draws): (r: Result<Task>)
    ensures category == Boss || category == Drop ==>
      r == Ok(BossTaskGenerator.GenerateBossTask(tileId, catalog.bosses, draws.bossDraw, draws.killDraw))
    ensures category == Quest ==> r == QuestTaskGenerator.GenerateQuestTask(
      tileId, quests, false, draws.questDraw, catalog.bosses, draws.bossDraw, draws.killDraw).task
    ensures category == GrandExchange ==>
      r == GeTaskGenerator.GenerateGrandExchangeTask(tileId, catalog.geItems, draws.geAttempts, draws.amountDraw)
    ensures category in {Skill, Start, Slayer, Daily} ==>
      r == SkillTaskGenerator.GenerateSkillTask(tileId, stats, draws.skillDraws, draws.levelDraw)
  {
    match category
    case Skill => SkillTaskGenerator.GenerateSkillTask(tileId, stats, draws.skillDraws, draws.levelDraw)
    case Quest =>
      QuestTaskGenerator.GenerateQuestTask(tileId, quests, false, draws.questDraw, catalog.bosses, draws.bossDraw, draws.killDraw).task
    case Boss => Ok(BossTaskGenerator.GenerateBossTask(tileId, catalog.bosses, draws.bossDraw, draws.killDraw))
    case Drop => Ok(BossTaskGenerator.GenerateBossTask(tileId, catalog.bosses, draws.bossDraw, draws.killDraw))
    case GrandExchange =>
      GeTaskGenerator.GenerateGrandExchangeTask(tileId, catalog.geItems, draws.geAttempts, draws.amountDraw)
    case _ => SkillTaskGenerator.GenerateSkillTask(tileId, stats, draws.skillDraws, draws.levelDraw)
  }

  /** generateTaskForTile: the start task on "0,0", whatever the stats and exclusions; elsewhere the
      task of the picked category, or a fresh boss task when that category's generator fails. */
  function GenerateTaskForTile(tileId: string, stats: SkillStats, quests: QuestTaskGenerator.QuestResponse,
    catalog: Catalog, excluded: seq<Category>, draws: Draws): (t: Task)
    ensures tileId == "0,0" ==> t == OtherTaskGenerator.GenerateStartTask(tileId)
    ensures tileId != "0,0" ==>
      var r := RunCategory(ChosenCategory(excluded, draws.category), tileId, stats, quests, catalog, draws);
      t == if r.Ok? then r.value
           else BossTaskGenerator.GenerateBossTask(tileId, catalog.bosses, draws.fallbackBossDraw, draws.fallbackKillDraw)
  {
    if tileId == "0,0" then OtherTaskGenerator.GenerateStartTask(tileId)
    else
      var category := ChosenCategory(excluded, draws.category);
      match RunCategory(category, tileId, stats, quests, catalog, draws)
      case Ok(t) => t
      case Err(_) => BossTaskGenerator.GenerateBossTask(tileId, catalog.bosses, draws.fallbackBossDraw, draws.fallbackKillDraw)
  }

  /** Away from the origin the task is a skill, quest, boss or Grand Exchange task, for that tile,
      whose category matches the picked one: a quest or Grand Exchange task only from its own
      category, a skill task only from the skill category or one without a generator, and a boss
      task from boss, drop, a quest list with nothing available, or a failure. */
  lemma {:induction false} DispatchedCategory(tileId: string, stats: SkillStats, quests: QuestTaskGenerator.QuestResponse,
    catalog: Catalog, excluded: seq<Category>, draws: Draws)
    requires tileId != "0,0"
    ensures var t := GenerateTaskForTile(tileId, stats, quests, catalog, excluded, draws);
      var c := ChosenCategory(excluded, draws.category);
      t.category in {Skill, Quest, Boss, GrandExchange}
      && (t.category == Quest ==> c == Quest)
      && (t.category == GrandExchange ==> c == GrandExchange)
      && (t.category == Skill ==> c in {Skill, Start, Slayer, Daily})
  {
    var c := ChosenCategory(excluded, draws.category);
    var r := RunCategory(c, tileId, stats, quests, catalog, draws);
    if r.Ok? {
      match c
      case Skill => SkillOk(tileId, stats, draws);
      case Start => SkillOk(tileId, stats, draws);
      case Slayer => SkillOk(tileId, stats, draws);
      case Daily => SkillOk(tileId, stats, draws);
      case Quest =>
        var q := QuestTaskGenerator.GenerateQuestTask(tileId, quests, false, draws.questDraw, catalog.bosses, draws.bossDraw, draws.killDraw);
        if quests.Quests? && QuestTaskGenerator.AvailableQuests(quests.quests) != [] {
          var quest :| quest in quests.quests && QuestTaskGenerator.Available(quest)
            && q.task == Ok(QuestTaskGenerator.QuestTaskFor(tileId, quest));
        }
      case Boss =>
      case Drop =>
      case GrandExchange =>
        GeTaskGenerator.GeTaskBuysListedItem(tileId, catalog.geItems, draws.geAttempts, draws.amountDraw);
    }
  }

  lemma SkillOk(tileId: string, stats: SkillStats, draws: Draws)
    ensures var r := SkillTaskGenerator.GenerateSkillTask(tileId, stats, draws.skillDraws, draws.levelDraw);
      r.Ok? ==> r.value.category == Skill
  {
    var r := SkillTaskGenerator.GenerateSkillTask(tileId, stats, draws.skillDraws, draws.levelDraw);
    if r.Ok? {
      var i: nat :| SkillTaskGenerator.FirstTrainable(stats, draws.skillDraws, i)
        && r.value == SkillTaskGenerator.TrainingFor(tileId, stats, draws.skillDraws[i], draws.levelDraw);
    }
  }

  /** Excluding the boss category does not rule out boss tasks: while drop is not excluded, some
      category draw picks drop, which yields a boss task. */
  lemma BossExclusionLeaks(tileId: string, stats: SkillStats, quests: QuestTaskGenerator.QuestResponse,
    catalog: Catalog, excluded: seq<Category>, draws: Draws)
    requires tileId != "0,0"
    requires Drop !in excluded
    ensures exists d: nat ::
      ChosenCategory(excluded, d) == Drop && GenerateTaskForTile(tileId, stats, quests, catalog, excluded, draws.(category := d)).category == Boss
  {
    var available := AvailableCategories(excluded);
    AllCategoriesListed(Drop);
    assert Drop in available;
    var i :| 0 <= i < |available| && available[i] == Drop;
    SmallRemainder(i, |available|);
    var t := GenerateTaskForTile(tileId, stats, quests, catalog, excluded, draws.(category := i));
    assert t == BossTaskGenerator.GenerateBossTask(tileId, catalog.bosses, draws.bossDraw, draws.killDraw);
  }

  /** A skill pick while every skill is at 99 ends in the fallback boss task, never an error. */
  lemma MaxedSkillsFallBackToBoss(tileId: string, stats: SkillStats, quests: QuestTaskGenerator.QuestResponse,
    catalog: Catalog, excluded: seq<Category>, draws: Draws)
    requires tileId != "0,0"
    requires ChosenCategory(excluded, draws.category) == Skill
    requires forall s :: s in SKILLS ==> stats[s] >= SkillTaskGenerator.MAX_LEVEL
    ensures GenerateTaskForTile(tileId, stats, quests, catalog, excluded, draws)
      == BossTaskGenerator.GenerateBossTask(tileId, catalog.bosses, draws.fallbackBossDraw, draws.fallbackKillDraw)
  {
    SkillTaskGenerator.AllMaxedNeverYields(tileId, stats, draws.skillDraws, draws.levelDraw);
  }

  /** The dispatcher as the batch fill sees it: the n-th call makes the draws `draws(n)`. */
  function DispatcherSource(stats: SkillStats, quests: QuestTaskGenerator.QuestResponse, catalog: Catalog,
    draws: nat -> Draws): (string, seq<Category>, nat) -> Task
  {
    (tileId: string, excluded: seq<Category>, n: nat) => GenerateTaskForTile(tileId, stats, quests, catalog, excluded, draws(n))
  }

  const QUEST_ICON: string := "/src/assets/tasks/Quest_icon.png"
  const BOSS_ICON: string := "/src/assets/tasks/Bosses_icon.png"
  const DROP_ICON: string := "/src/assets/tasks/Drop_icon.png"
  const GE_ICON: string := "/src/assets/tasks/GrandExchange_icon.png"

  /** getTaskIcon: the skill's icon for skill tasks, a fixed icon for quest, boss, drop and Grand
      Exchange, and the Attack icon for every other category. */
  function GetTaskIcon(category: Category, skillName: Option<string>): (icon: string)
    ensures category == Skill ==> icon == SkillTaskGenerator.GetSkillIcon(skillName)
    ensures category == Quest ==> icon == QUEST_ICON
    ensures category == Boss ==> icon == BOSS_ICON
    ensures category == Drop ==> icon == DROP_ICON
    ensures category == GrandExchange ==> icon == GE_ICON
    ensures category in {Start, Slayer, Daily} ==> icon == SkillTaskGenerator.ATTACK_ICON
  {
    match category
    case Skill => SkillTaskGenerator.GetSkillIcon(skillName)
    case Quest => QUEST_ICON
    case Boss => BOSS_ICON
    case Drop => DROP_ICON
    case GrandExchange => GE_ICON
    case _ => SkillTaskGenerator.ATTACK_ICON
  }

  /** The icon of a non-skill category ignores the skill name. */
  lemma TaskIconIgnoresSkillName(category: Category, a: Option<string>, b: Option<string>)
    requires category != Skill
    ensures GetTaskIcon(category, a) == GetTaskIcon(category, b)
  {
  }
}
