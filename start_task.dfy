/** The fixed start task placed on the origin tile (otherTaskGenerator). */
module OtherTaskGenerator {
  import opened GameTypes
  import Rewards

  const START_TITLE: string := "Start Your Adventure"
  const START_DESCRIPTION: string := "Use your first key to start adventure"

  /** The start task: easy, asks for one key, pays START_TASK_REWARDS (2 keys, 50 gold). It uses no
      randomness: the tile id only names it. */
  function GenerateStartTask(tileId: string): (t: Task)
    ensures t.id == "start_" + tileId
    ensures t.category == Start && t.difficulty == Easy
    ensures t.title == START_TITLE && t.description == START_DESCRIPTION
    ensures t.requirements == [ItemReq("key", 1)]
    ensures t.rewards == [KeysReward(Rewards.START_TASK_REWARDS.keysPerTask), GoldReward(Rewards.START_TASK_REWARDS.goldBonus)]
    ensures t.rewards[0].amount == 2 && t.rewards[1].amount == 50
    ensures t.skillName == None
  {
    Task(
      "start_" + tileId, START_TITLE, START_DESCRIPTION, Start, Easy, None,
      [ItemReq("key", 1)],
      [KeysReward(Rewards.START_TASK_REWARDS.keysPerTask), GoldReward(Rewards.START_TASK_REWARDS.goldBonus)])
  }

  /** Start tasks for two tiles differ only in their id. */
  lemma StartTaskDependsOnlyOnId(a: string, b: string)
    ensures GenerateStartTask(a).(id := "") == GenerateStartTask(b).(id := "")
  {
  }
}
