/** The quest task generator: a random quest the player may start and has not completed, with a
    difficulty read off its quest points. The quest list the endpoint returns is an input; the
    fetch itself is not modelled. */
module QuestTaskGenerator {
  import opened Strings
  import opened GameTypes
  import Rewards
  import BossTaskGenerator

  /** One quest of the player's quest list, as the endpoint reports it. */
  datatype QuestData = QuestData(title: string, status: string, userEligible: bool, questPoints: int)

  /** What the quest endpoint answered: a failed response, or the player's quest list. */
  datatype QuestResponse = NotOk | Quests(quests: seq<QuestData>)

  const COMPLETED: string := "COMPLETED"
  const WHILE_GUTHIX_SLEEPS: string := "While Guthix Sleeps"
  const MONKEY_MADNESS_2: string := "Monkey Madness II"
  const FETCH_FAILED: string := "Failed to fetch quests"

  /** `quests.some(q => q.title === title && q.status === 'COMPLETED')`. */
  function HasCompleted(quests: seq<QuestData>, title: string): (b: bool)
    ensures b <==> exists q :: q in quests && q.title == title && q.status == COMPLETED
  {
    if quests == [] then false
    else (quests[0].title == title && quests[0].status == COMPLETED) || HasCompleted(quests[1..], title)
  }

  /** The flags passed to the slayer-master callback. */
  datatype SwapFlags = SwapFlags(whileGuthixSleeps: bool, monkeyMadness2: bool)

  function SwapFlagsOf(quests: seq<QuestData>): (f: SwapFlags)
    ensures f.whileGuthixSleeps <==> exists q :: q in quests && q.title == WHILE_GUTHIX_SLEEPS && q.status == COMPLETED
    ensures f.monkeyMadness2 <==> exists q :: q in quests && q.title == MONKEY_MADNESS_2 && q.status == COMPLETED
  {
    SwapFlags(HasCompleted(quests, WHILE_GUTHIX_SLEEPS), HasCompleted(quests, MONKEY_MADNESS_2))
  }

  /** A quest the player can start and has not completed. */
  predicate Available(q: QuestData)
  {
    q.userEligible && q.status != COMPLETED
  }

  /** `quests.filter(q => q.userEligible && q.status !== 'COMPLETED')`. */
  function AvailableQuests(quests: seq<QuestData>): (r: seq<QuestData>)
    ensures forall q :: q in r <==> q in quests && Available(q)
    ensures |r| <= |quests|
  {
    if quests == [] then []
    else (if Available(quests[0]) then [quests[0]] else []) + AvailableQuests(quests[1..])
  }

  /** The filter keeps the order of the quests it keeps: filtering twice is filtering once. */
  lemma {:induction false} AvailableQuestsIdempotent(quests: seq<QuestData>)
    ensures AvailableQuests(AvailableQuests(quests)) == AvailableQuests(quests)
  {
    if quests != [] {
      AvailableQuestsIdempotent(quests[1..]);
      AvailableQuestsAppend(if Available(quests[0]) then [quests[0]] else [], AvailableQuests(quests[1..]));
    }
  }

  lemma {:induction false} AvailableQuestsAppend(a: seq<QuestData>, b: seq<QuestData>)
    ensures AvailableQuests(a + b) == AvailableQuests(a) + AvailableQuests(b)
  {
    if a != [] {
      assert (a + b)[1..] == a[1..] + b;
      AvailableQuestsAppend(a[1..], b);
    } else {
      assert a + b == b;
    }
  }

  /** The difficulty of a quest from its quest points: up to 0 easy, up to 2 medium, up to 3 hard,
      elite above that. */
  function DifficultyFromQuestPoints(qp: int): (d: Difficulty)
    ensures d == Easy <==> qp <= 0
    ensures d == Medium <==> 0 < qp <= 2
    ensures d == Hard <==> qp == 3
    ensures d == Elite <==> qp > 3
  {
    var t := Rewards.QUEST_DIFFICULTY_THRESHOLDS;
    if qp <= t.easy then Easy
    else if qp <= t.medium then Medium
    else if qp <= t.hard then Hard
    else Elite
  }

  /** More quest points never give an easier task; one quest point is already medium. */
  lemma QuestDifficultyMonotone(a: int, b: int)
    requires a <= b
    ensures DifficultyRank(DifficultyFromQuestPoints(a)) <= DifficultyRank(DifficultyFromQuestPoints(b))
    ensures DifficultyFromQuestPoints(1) == Medium
  {
  }

  /** The task for completing `quest`. */
  function QuestTaskFor(tileId: string, quest: QuestData): (t: Task)
    ensures t.id == "quest_" + tileId && t.title == "Quest: " + quest.title
    ensures t.category == Quest && t.skillName == None
    ensures t.difficulty == DifficultyFromQuestPoints(quest.questPoints)
    ensures t.requirements == [QuestReq(quest.title)]
    ensures t.rewards == [KeysReward(1), GoldReward(100)]
  {
    var r := Rewards.QUEST_REWARDS;
    Task(
      "quest_" + tileId, "Quest: " + quest.title, "Complete the quest: " + quest.title,
      Quest, DifficultyFromQuestPoints(quest.questPoints), None,
      [QuestReq(quest.title)],
      [KeysReward(r.keysPerTask), GoldReward(r.goldBonus)])
  }

  /** What generateQuestTask produces: the task or the error it throws, and the flags handed to the
      callback when one was supplied and the quest list arrived. */
  datatype QuestOutcome = QuestOutcome(task: Result<Task>, notified: Option<SwapFlags>)

  /** generateQuestTask: a failed response is an error, which is rethrown. Otherwise the callback,
      when supplied, receives the swap flags; with no available quest the result is a boss task,
      and otherwise it is the task for the available quest named by `questDraw`. */
  function GenerateQuestTask(
    tileId: string, response: QuestResponse, hasCallback: bool, questDraw: nat,
    bosses: seq<BossTaskGenerator.BossData>, bossDraw: nat, killDraw: nat): (r: QuestOutcome)
    requires |bosses| > 0
    ensures response.NotOk? <==> r.task.Err?
    ensures response.NotOk? ==> r.task.error == FETCH_FAILED && r.notified == None
    ensures response.Quests? ==> r.notified == (if hasCallback then Some(SwapFlagsOf(response.quests)) else None)
    ensures response.Quests? && AvailableQuests(response.quests) == [] ==>
      r.task == Ok(BossTaskGenerator.GenerateBossTask(tileId, bosses, bossDraw, killDraw))
    ensures response.Quests? && AvailableQuests(response.quests) != [] ==>
      exists q :: q in response.quests && Available(q) && r.task == Ok(QuestTaskFor(tileId, q))
  {
    match response
    case NotOk => QuestOutcome(Err(FETCH_FAILED), None)
    case Quests(quests) =>
      var flags := if hasCallback then Some(SwapFlagsOf(quests)) else None;
      var available := AvailableQuests(quests);
      if available == [] then
        QuestOutcome(Ok(BossTaskGenerator.GenerateBossTask(tileId, bosses, bossDraw, killDraw)), flags)
      else
        var quest := available[questDraw % |available|];
        QuestOutcome(Ok(QuestTaskFor(tileId, quest)), flags)
  }

  /** Every available quest is picked by some draw. */
  lemma {:induction false} EveryAvailableQuestReachable(
    tileId: string, quests: seq<QuestData>, hasCallback: bool, i: nat,
    bosses: seq<BossTaskGenerator.BossData>, bossDraw: nat, killDraw: nat)
    requires |bosses| > 0 && i < |AvailableQuests(quests)|
    ensures GenerateQuestTask(tileId, Quests(quests), hasCallback, i, bosses, bossDraw, killDraw).task
      == Ok(QuestTaskFor(tileId, AvailableQuests(quests)[i]))
  {
    var available := AvailableQuests(quests);
    assert available != [];
    assert i % |available| == i;
    var r := GenerateQuestTask(tileId, Quests(quests), hasCallback, i, bosses, bossDraw, killDraw);
    assert r.task == Ok(QuestTaskFor(tileId, available[i % |available|]));
  }
}
