# RuneTile in Dafny

RuneTile is a tile-unlock game built on an Old School RuneScape account. The board is an
unbounded grid of tiles keyed `"x,y"`. Unlocking a tile costs one key and reveals its four
orthogonal neighbours. Every tile carries a generated task: train a skill, kill a boss, finish a
quest, or buy items on the Grand Exchange. Completing a task pays gold, and keys come from the
start task, slayer masters, key sources and the shop.

This project models the game's logic and proves properties of it:

- **The grid engine.** Covers visibility, the unlock guard and transition, the initial state, the
  batch task fill with its duplicate check and retry loop, and the requirement check.
- **The task generators.** Covers the dispatcher, the skill, boss, Grand Exchange, quest and start
  generators, and the seeded daily generator with its 32-bit string hash.
- **The reward tables.**
- **Small reducers from the UI files.** Covers tile completion, the slayer counter, tile state and
  the offered action, the shop's quantity and purchase, "time ago" and total level.
- **The stored slots.** Covers the game state, the slayer list, the saved hiscore snapshots and
  the feedback history.
- **The feedback rate limiter** and the GitHub issue formatter.
- **The hiscores text parser** of the proxy server.

Randomness, the clock and storage are explicit:

- A call to `Math.random()` becomes a draw. A draw is a natural number `d` that picks index
  `d % n`, or an integer roll `r % 100` for the Grand Exchange tier.
- The clock reading `now` is a parameter.
- A storage slot is a field holding an optional value.

Where the source works by updating state step by step, the model does too:

- generateVisibleTiles, the batch task fill, isDuplicateTask, the seeded hash, the hiscores loop
  and the issue body are methods with loops or successive appends.
- The storage modules, the feedback store and the shop are classes whose methods change their
  fields.

These methods are proved against functions of their inputs, and the properties are lemmas about
those functions.

Modules: `Strings` (JavaScript string and number helpers), `GameTypes`, `Rewards`,
`GameLogic`, `TaskGenerator`, `SkillTaskGenerator`, `BossTaskGenerator`, `GeTaskGenerator`,
`QuestTaskGenerator`, `OtherTaskGenerator`, `DailyTaskGenerator`, `GameBoard`, `ShopModal`,
`SkillsModal`, `GameStorage`, `PlayerStatsStorage`, `FeedbackLimiter`, `IssueFormatter`,
`Hiscores`.

Where the code and the in-game help disagree (src/components/WelcomeModal.tsx:66 says tasks earn keys and gold, and src/components/WelcomeModal.tsx:78 says the player starts with 1 key and 50 gold), the model follows the code:

- **Completing a tile ignores the task's rewards.** It pays gold by the task's difficulty and never
  changes keys.
- **The inlined origin task pays nothing.** generateInitialGameState gives its origin task a single
  0-gold reward, and it starts the player with 0 gold. generateStartTask pays 2 keys and 50 gold,
  and STARTING_RESOURCES says 50 gold. Both are modelled as written.
- **Daily tasks have upper-cased difficulties.** A daily task's difficulty is the upper-cased
  name ("EASY"). That matches none of the difficulty names the rest of the game uses.
- **The seeded index can miss the list.** The daily generator's index
  `floor(|h| / 2147483647 · n)` falls outside the list whenever `|h| >= 2147483647`. That happens
  for `h = -2^31`, and also for `h = 2147483647` and `h = -2147483647`. The model returns no
  element (an error) in all three cases.

## Model

| member | source | states |
|---|---|---|
| GameTypes.TileKeyInjective | src/utils/gameLogic.ts:34 | two positions with the same `"x,y"` key are the same position |
| Strings.ParseIntOfDigits | src/utils/gameLogic.ts:18-19 | parseInt of a nonempty digit string is its decimal value |
| Strings.IntToStringRoundTrip | src/components/ShopModal.tsx:117 | parseInt of the decimal form of any integer gives that integer back |
| Strings.SplitJoin | src/index.tsx:42 | joining the parts of a split with the separator gives back the text, and no part contains the separator |
| Strings.ToLowerIdempotent | src/utils/playerStatsStorage.ts:40 | lower-casing an already lower-cased name changes nothing |
| Strings.LocaleStringValue | src/utils/generators/bossTaskGenerator.ts:33 | the grouped form of a number, with its commas removed, is all digits and reads back as the number; below 1000 there is no grouping |
| Rewards.BossRewards | src/config/rewards.ts:11-36 | every boss tier has 1 ≤ min kills ≤ max kills and positive gold per kill; only the elite tier pays a key; the difficulty rises with the tier |
| Rewards.BossGoldIncreases | src/config/rewards.ts:11-36 | gold per kill strictly increases with the boss tier |
| Rewards.GeRewards | src/config/rewards.ts:73-99 | every item tier has 1 ≤ min amount ≤ max amount and a positive gold bonus; only the luxury tier pays a key; the difficulty rises with the tier |
| Rewards.GeGoldIncreases | src/config/rewards.ts:73-99 | the gold bonus strictly increases with the item tier |
| Rewards.ThresholdsIncrease | src/config/rewards.ts:47-68 | the quest-point thresholds and the skill-increase thresholds strictly increase |
| Rewards.SlayerRequirementsPositive | src/config/rewards.ts:104-124 | every master needs at least one task, and a hard master (Duradel) needs fewer than an easy one (Turael) |
| Rewards.DailyRewards | src/config/rewards.ts:159-176 | every daily difficulty pays at least one key and a positive gold bonus |
| Rewards.DailyRewardsIncrease | src/config/rewards.ts:159-176 | daily keys and gold strictly increase from easy to elite |
| Rewards.StartRewards | src/config/rewards.ts:142-153 | the start task pays 2 keys and 50 gold; a new player starts with 1 key and 50 gold |
| OtherTaskGenerator.GenerateStartTask | src/utils/generators/otherTaskGenerator.ts:9-34 | id `start_`+tile, category start, easy, the fixed title and text, one requirement (one key), rewards exactly [2 keys, 50 gold], no skill |
| OtherTaskGenerator.StartTaskDependsOnlyOnId | src/utils/generators/otherTaskGenerator.ts:9-34 | two start tasks differ at most in their id |
| SkillTaskGenerator.DifficultyFromLevelIncrease | src/utils/generators/skillTaskGenerator.ts:69-74 | easy iff increase ≤ 2, medium iff 3..5, hard iff 6..8, elite iff above 8 |
| SkillTaskGenerator.DifficultyMonotone | src/utils/generators/skillTaskGenerator.ts:69-74 | a larger increase never gives an easier difficulty |
| SkillTaskGenerator.LevelIncrease | src/utils/generators/skillTaskGenerator.ts:28-36 | the increase is 1..10 for levels 1–40, 1..5 for 41–75, and exactly 1 otherwise |
| SkillTaskGenerator.LevelIncreaseReachable | src/utils/generators/skillTaskGenerator.ts:28-36 | every increase allowed for the level is produced by some draw |
| SkillTaskGenerator.HighLevelsAreAtMostMedium | src/utils/generators/skillTaskGenerator.ts:28-36 | above level 40 a skill task is at most medium |
| SkillTaskGenerator.TargetLevel | src/utils/generators/skillTaskGenerator.ts:38 | the target is level+increase capped at 99, so it is at most 99 and, below 99, above the current level |
| SkillTaskGenerator.SkillTaskFor | src/utils/generators/skillTaskGenerator.ts:41-66 | id `skill_`+tile, title the capitalised skill plus " Training", the skill's requirement from the current to the target level, rewards exactly [1 key, 0 gold] |
| SkillTaskGenerator.DrawSkill | src/utils/generators/skillTaskGenerator.ts:13-16 | every draw picks one of the 23 listed skills |
| SkillTaskGenerator.DrawSkillReachable | src/utils/generators/skillTaskGenerator.ts:13-16 | every listed skill is picked by some draw |
| SkillTaskGenerator.GenerateSkillTask | src/utils/generators/skillTaskGenerator.ts:12-67 | a task comes out iff some drawn skill is below 99, and it is the task for the first such draw |
| SkillTaskGenerator.SkillTaskTrainsUnmaxedSkill | src/utils/generators/skillTaskGenerator.ts:12-67 | the task trains a listed skill whose level is below 99, from that level to a higher target ≤ 99, for 1 key and 0 gold |
| SkillTaskGenerator.AllMaxedNeverYields | src/utils/generators/skillTaskGenerator.ts:20-23 | with every skill at 99 no skill task is produced (the source recurses without end) |
| SkillTaskGenerator.TrainableSkillIsReachable | src/utils/generators/skillTaskGenerator.ts:13-23 | every skill below 99 is trained by some draw |
| SkillTaskGenerator.GetSkillIcon | src/utils/generators/skillTaskGenerator.ts:76-83 | no or empty name gives the Attack icon; otherwise the path holds the name with its first letter upper-cased |
| SkillTaskGenerator.SkillIconNamesSkill | src/utils/generators/skillTaskGenerator.ts:76-83 | for a lower-case name the icon sits in the skills directory and its file name lower-cases back to the name |
| BossTaskGenerator.KillCount | src/utils/generators/bossTaskGenerator.ts:22-25 | the kill count lies in the tier's [min, max] |
| BossTaskGenerator.KillCountReachable | src/utils/generators/bossTaskGenerator.ts:22-25 | every count in the range is drawn by some draw |
| BossTaskGenerator.BossTaskFor | src/utils/generators/bossTaskGenerator.ts:41-53 | id `boss_`+tile, title `Boss: `+name, the tier's difficulty, requirement (boss, kills), rewards exactly [kills × gold per kill, the tier's keys] |
| BossTaskGenerator.GenerateBossTask | src/utils/generators/bossTaskGenerator.ts:14-54 | the task asks for some catalogue boss, with a kill count in its tier's range, and pays that tier's rates |
| BossTaskGenerator.EveryBossTaskReachable | src/utils/generators/bossTaskGenerator.ts:16-25 | every boss and every kill count in its range is produced by some pair of draws |
| BossTaskGenerator.BossTaskPayout | src/utils/generators/bossTaskGenerator.ts:27-39 | the gold lies in 150..1200, the keys in 0..1, and a key is paid iff the task is elite |
| BossTaskGenerator.BossGoldReward | src/utils/generators/bossTaskGenerator.ts:27-34 | a gold reward of exactly the given amount |
| BossTaskGenerator.BossDescription | src/utils/generators/bossTaskGenerator.ts:44 | the definition itself: "Kill", the name, the Wilderness mark, the count and "time[s]"; BossDescriptionShape is its partner |
| BossTaskGenerator.BossDescriptionShape | src/utils/generators/bossTaskGenerator.ts:44 | the description starts with "Kill "+name, marks the Wilderness iff the boss is there, and ends in "times" iff the count exceeds 1 |
| GeTaskGenerator.TierOfRoll | src/utils/generators/geTaskGenerator.ts:18-29 | cheap iff roll < 40, medium iff 40..69, expensive iff 70..89, luxury iff ≥ 90 |
| GeTaskGenerator.TierWeights | src/utils/generators/geTaskGenerator.ts:18-29 | of the 100 rolls, 40 give cheap, 30 medium, 20 expensive and 10 luxury |
| GeTaskGenerator.PickItem | src/utils/generators/geTaskGenerator.ts:31-36 | a picked item is a nonempty name from the rolled tier's list; nothing is picked iff that list is empty or the drawn entry is empty |
| GeTaskGenerator.ItemAmount | src/utils/generators/geTaskGenerator.ts:38-42 | the amount lies in the tier's [min, max] |
| GeTaskGenerator.ItemAmountReachable | src/utils/generators/geTaskGenerator.ts:38-42 | every amount in the range is drawn by some draw |
| GeTaskGenerator.GeTaskFor | src/utils/generators/geTaskGenerator.ts:44-67 | id `grandexchange_`+tile, title `Grand Exchange: `+item, the tier's difficulty, requirement (item, amount), rewards exactly [the tier's keys, the tier's gold] |
| GeTaskGenerator.GenerateGrandExchangeTask | src/utils/generators/geTaskGenerator.ts:17-68 | a task comes out iff some attempt picks an item, and it is the task of the first such attempt |
| GeTaskGenerator.GeTaskBuysListedItem | src/utils/generators/geTaskGenerator.ts:17-68 | the task buys a listed item of some tier, in that tier's amount range, and pays that tier's rewards |
| GeTaskGenerator.EmptyCatalogNeverYields | src/utils/generators/geTaskGenerator.ts:31-36 | with every tier empty no task is produced (the source recurses without end) |
| QuestTaskGenerator.HasCompleted | src/utils/generators/questTaskGenerator.ts:22-32 | true iff some quest with exactly that title has status COMPLETED |
| QuestTaskGenerator.SwapFlagsOf | src/utils/generators/questTaskGenerator.ts:22-32 | each slayer-swap flag is set iff its quest is completed |
| QuestTaskGenerator.Available | src/utils/generators/questTaskGenerator.ts:35-37 | the definition itself: eligible and not completed; AvailableQuests filters by it |
| QuestTaskGenerator.AvailableQuests | src/utils/generators/questTaskGenerator.ts:35-37 | a quest is kept iff the player is eligible and it is not completed |
| QuestTaskGenerator.AvailableQuestsIdempotent | src/utils/generators/questTaskGenerator.ts:35-37 | filtering twice is filtering once |
| QuestTaskGenerator.AvailableQuestsAppend | src/utils/generators/questTaskGenerator.ts:35-37 | the filter works list piece by list piece, keeping the order |
| QuestTaskGenerator.DifficultyFromQuestPoints | src/utils/generators/questTaskGenerator.ts:78-83 | easy iff ≤ 0 points, medium iff 1..2, hard iff 3, elite iff above 3 |
| QuestTaskGenerator.QuestDifficultyMonotone | src/utils/generators/questTaskGenerator.ts:78-83 | more quest points never give an easier difficulty, and 1 point is medium |
| QuestTaskGenerator.QuestTaskFor | src/utils/generators/questTaskGenerator.ts:49-71 | id `quest_`+tile, title `Quest: `+title, difficulty from the points, requirement (quest, title), rewards exactly [1 key, 100 gold] |
| QuestTaskGenerator.GenerateQuestTask | src/utils/generators/questTaskGenerator.ts:6-76 | a failed fetch is an error and nothing is notified; otherwise the flags go to the callback iff there is one, no available quest gives a boss task, and otherwise the task is for an available quest |
| QuestTaskGenerator.EveryAvailableQuestReachable | src/utils/generators/questTaskGenerator.ts:35-47 | every available quest is picked by some draw |
| TaskGenerator.AvailableCategories | src/utils/taskGenerator.ts:39-46 | the eligible categories are exactly the ones not excluded, or all of them when everything is excluded |
| TaskGenerator.ChosenCategory | src/utils/taskGenerator.ts:48 | the drawn category is eligible |
| TaskGenerator.ChosenIsNotExcluded | src/utils/taskGenerator.ts:39-48 | unless every category is excluded, the drawn one is not excluded |
| TaskGenerator.RunCategory | src/utils/taskGenerator.ts:50-65 | boss and drop go to the boss generator, quest to the quest generator without a callback, Grand Exchange to its generator, and every other category to the skill generator |
| TaskGenerator.GenerateTaskForTile | src/utils/taskGenerator.ts:26-71 | tile `0,0` always gets the start task; otherwise the drawn category's task, or a boss task when its generator fails |
| TaskGenerator.DispatchedCategory | src/utils/taskGenerator.ts:50-70 | a non-origin task is a skill, quest, boss or Grand Exchange task; a quest or Grand Exchange task means that category was drawn |
| TaskGenerator.BossExclusionLeaks | src/utils/taskGenerator.ts:56-60 | excluding boss does not stop boss tasks: drawing drop still yields one |
| TaskGenerator.MaxedSkillsFallBackToBoss | src/utils/taskGenerator.ts:66-70 | with every skill at 99 a drawn skill category falls back to the boss task |
| TaskGenerator.GetTaskIcon | src/utils/taskGenerator.ts:9-24 | skill uses the skill icon; quest, boss, drop and Grand Exchange their fixed icons; every other category the Attack icon |
| TaskGenerator.TaskIconIgnoresSkillName | src/utils/taskGenerator.ts:9-24 | outside the skill category the icon does not depend on the skill name |
| DailyTaskGenerator.ToInt32 | src/utils/generators/dailyTaskGenerator.ts:19-20 | the result is the 32-bit two's-complement value congruent to the input modulo 2^32, as in section 7.1.6 of ECMA-262 |
| DailyTaskGenerator.HashStep | src/utils/generators/dailyTaskGenerator.ts:15-21 | the definition itself: `(h << 5) - h + c` and `& h` on 32-bit values; HashStepMultipliesBy31 is its partner |
| DailyTaskGenerator.SeedHash | src/utils/generators/dailyTaskGenerator.ts:15-21 | the hash stays a signed 32-bit value; SeedHashIsPolynomial gives its closed form |
| DailyTaskGenerator.HashStepMultipliesBy31 | src/utils/generators/dailyTaskGenerator.ts:19-20 | one step `(h << 5) - h + c`, then `& h`, is ToInt32(31·h + c) |
| DailyTaskGenerator.SeedHashIsPolynomial | src/utils/generators/dailyTaskGenerator.ts:15-23 | the hash of a string is ToInt32 of its base-31 polynomial in the character codes |
| DailyTaskGenerator.SeededHash | src/utils/generators/dailyTaskGenerator.ts:15-23 | the loop computes the string's hash, a 32-bit signed value |
| DailyTaskGenerator.SeededIndexRange | src/utils/generators/dailyTaskGenerator.ts:22-29 | the index is inside the list iff the hash's magnitude is below 2147483647; otherwise it equals the length |
| DailyTaskGenerator.GetSeededRandomElement | src/utils/generators/dailyTaskGenerator.ts:26-29 | an element is the list entry at the seeded index, and one exists iff the hash's magnitude is below 2147483647; the empty list has none |
| DailyTaskGenerator.SeededRange | src/utils/generators/dailyTaskGenerator.ts:72-73 | the value is in [min, max+1], and at most max iff the hash's magnitude is below 2147483647 |
| DailyTaskGenerator.SeededRangeReachable | src/utils/generators/dailyTaskGenerator.ts:72-73 | a seed whose scaled hash is v − min gives exactly v |
| DailyTaskGenerator.DailyRewardsList | src/utils/generators/dailyTaskGenerator.ts:75-89 | the list starts with the keys reward and has a gold reward after it iff the bonus is positive |
| DailyTaskGenerator.DailyDifficultyLabel | src/utils/generators/dailyTaskGenerator.ts:94 | the difficulty is the upper-cased name |
| DailyTaskGenerator.DailyLabelIsNoDifficultyName | src/utils/generators/dailyTaskGenerator.ts:94 | the upper-cased label equals none of the game's difficulty names |
| DailyTaskGenerator.BossesOf | src/utils/generators/dailyTaskGenerator.ts:54-62 | exactly the catalogue bosses of the mapped tier |
| DailyTaskGenerator.DailyKillRange | src/utils/generators/dailyTaskGenerator.ts:65-72 | every kill range has 1 ≤ min < max ≤ 15 |
| DailyTaskGenerator.DailyBossTask | src/utils/generators/dailyTaskGenerator.ts:49-104 | fails iff no boss is picked from the tier; otherwise a boss task with the daily id, the boss icon and the daily rewards |
| DailyTaskGenerator.DailyBossTaskFromCatalog | src/utils/generators/dailyTaskGenerator.ts:54-73 | the boss is a catalogue boss of the mapped tier; the count is in range iff its seed's hash is below 2147483647 in magnitude |
| DailyTaskGenerator.DailyLevelRange | src/utils/generators/dailyTaskGenerator.ts:139-147 | every level range has 1 ≤ min < max ≤ 7 |
| DailyTaskGenerator.DailySkillTask | src/utils/generators/dailyTaskGenerator.ts:106-178 | fails iff the seed's hash is out of range; otherwise a skill task for a listed skill, with its icon and the daily rewards |
| DailyTaskGenerator.DailyItemCategories | src/utils/generators/dailyTaskGenerator.ts:229-236 | each difficulty has three item categories |
| DailyTaskGenerator.DailyAmountRange | src/utils/generators/dailyTaskGenerator.ts:238-246 | every amount range has 5 ≤ min < max ≤ 100 |
| DailyTaskGenerator.DailyGeTask | src/utils/generators/dailyTaskGenerator.ts:224-277 | a Grand Exchange task with the daily id and rewards; the category is one of the difficulty's iff its hash is in range, and so is the amount |
| DailyTaskGenerator.GenerateDailyTask | src/utils/generators/dailyTaskGenerator.ts:32-47 | a produced task has the daily id, the daily flag, the upper-cased difficulty, a boss, skill or Grand Exchange category and the daily rewards; an out-of-range type hash gives the Grand Exchange task |
| DailyTaskGenerator.DailyTaskIgnoresClock | src/utils/generators/dailyTaskGenerator.ts:32-47 | for a fixed date and difficulty only the id depends on the clock's day |
| DailyTaskGenerator.DailyTaskPaysKeysAndGold | src/utils/generators/dailyTaskGenerator.ts:75-89 | every daily task pays exactly [the difficulty's keys ≥ 1, its gold > 0] |
| DailyTaskGenerator.GenerateAllDailyTasks | src/utils/generators/dailyTaskGenerator.ts:279-293 | one task per difficulty, each with that difficulty's id for the same day |
| DailyTaskGenerator.DailyIdsDistinct | src/utils/generators/dailyTaskGenerator.ts:92 | different difficulties or days give different daily ids |
| DailyTaskGenerator.GetTodayDateString | src/utils/generators/dailyTaskGenerator.ts:7-10 | the definition itself: year, dash, month+1 and day padded to two digits; DateStringRoundTrip is its partner |
| DailyTaskGenerator.DateStringRoundTrip | src/utils/generators/dailyTaskGenerator.ts:7-10 | the date is ten characters YYYY-MM-DD whose fields read back as the year, month+1 and day |
| GameLogic.ParseTileId | src/utils/gameLogic.ts:17-20 | the definition itself, shared by both parsing sites (also 63-68): split on ',', an empty or missing part reads as '0', NaN in either part rejects; ParseTileKey and EmptyIdIsOrigin are its partners |
| GameLogic.ParseTileKey | src/utils/gameLogic.ts:63-68 | parsing a position's key gives the position back |
| GameLogic.EmptyIdIsOrigin | src/utils/gameLogic.ts:63-65 | the empty id parses as (0,0), since missing parts read as '0' |
| GameLogic.GetNeighborPositions | src/utils/gameLogic.ts:93-100 | exactly the four orthogonal neighbours, each once |
| GameLogic.ListUnlockedPositions | src/utils/gameLogic.ts:16-23 | the first loop lists the parseable unlocked positions in order and marks their ids processed |
| GameLogic.AddUnseenNeighbors | src/utils/gameLogic.ts:31-39 | appends exactly the neighbours whose keys were not processed, each once, and marks them processed |
| GameLogic.AppendNeighbors | src/utils/gameLogic.ts:26-40 | the second loop appends distinct unseen neighbours so that every neighbour of an unlocked position is listed |
| GameLogic.GenerateVisibleTiles | src/utils/gameLogic.ts:6-43 | nothing unlocked gives [(0,0)]; otherwise exactly the parseable unlocked positions and their neighbours, the unlocked ones first, each added neighbour once and never an unlocked id |
| GameLogic.CanUnlockTile | src/utils/gameLogic.ts:51-55 | the definition itself: not unlocked yet and at least one key; UnlockTile rejects exactly when it is false, and UnlockOnce uses it |
| GameLogic.UnlockTile | src/utils/gameLogic.ts:57-91 | rejected iff already unlocked or no key, then rejected on an unparseable id; otherwise keys − 1, the id appended, visible tiles = old ∪ the four neighbours without duplicates, nothing else changed |
| GameLogic.UnlockOnce | src/utils/gameLogic.ts:51-91 | a tile just unlocked cannot be unlocked again |
| GameLogic.AddAllUnique | src/utils/gameLogic.ts:70-89 | adding to a set-like list keeps it duplicate-free and holds exactly the old and new ids |
| GameLogic.AddAllUniqueKeepsPrefix | src/utils/gameLogic.ts:70-89 | the old list stays in place as a prefix: new ids only go at the end |
| GameLogic.AddAllUniqueAppend | src/utils/gameLogic.ts:141-155 | adding two lists is adding the first, then the second, as successive `set.add` calls do |
| GameLogic.Dedup | src/utils/gameLogic.ts:70 | duplicate-free, the same members, and unchanged when already duplicate-free |
| GameLogic.GenerateInitialGameState | src/utils/gameLogic.ts:102-135 | 1 key, 0 gold, no unlocked or completed tiles, visible ['0,0'], a task only for '0,0' and of category start, times `now` |
| GameLogic.InitialStartTaskPaysNothing | src/utils/gameLogic.ts:104-120 | the inlined origin task is the start task with a single 0-gold reward, so it differs from generateStartTask |
| GameLogic.IsDuplicateTask | src/utils/gameLogic.ts:190-207 | true iff some existing task is a skill task with the same skill, or has the same category and title |
| GameLogic.GenerateUniqueTask | src/utils/gameLogic.ts:164-178 | at most 10 retries; below 10 the task clashes with nothing; a retry happens only after a clash; exclusions start at the 5th attempt, grow by at most one per attempt and hold no repeats |
| GameLogic.AddVisibleKeys | src/utils/gameLogic.ts:144-147 | the visible keys added to an empty Set, in order |
| GameLogic.CollectTilesToGenerate | src/utils/gameLogic.ts:141-155 | the Set in its insertion order: the visible keys, then each visible tile's four neighbour keys, first occurrences only; CollectedKeysExact proves it holds exactly the visible tiles and their neighbours, each once |
| GameLogic.CollectedKeysExact | src/utils/gameLogic.ts:141-155 | the collected list is duplicate-free and holds a key iff it is a visible tile or a neighbour of one |
| GameLogic.AddNeighborKeys | src/utils/gameLogic.ts:150-154 | the four neighbour keys `set.add`ed in order to the list: it grows by the unseen ones, at the end |
| GameLogic.FillTasks | src/utils/gameLogic.ts:157-182 | existing tasks stay; every parseable collected tile gets a task; every new task is generated for a collected tile on at most 10 retries, with distinct exclusions and none before the 5th, and clashes with no task present before the fill unless all 10 retries were used |
| GameLogic.GenerateTasksForVisibleTiles | src/utils/gameLogic.ts:137-188 | only the task map changes; no existing task is overwritten; every visible tile and neighbour of one has a task; every new task is generated for such a tile under the retry policy of FillTasks |
| GameLogic.CheckTaskRequirementsAsWrittenRejects | src/utils/gameLogic.ts:45-49 | as written, a task passes iff it has no requirements: a level-99 player fails an attack-20 task |
| GameLogic.CheckTaskRequirements | src/utils/gameLogic.ts:45-49 | corrected: true iff the player's level reaches every skill requirement's required level |
| GameLogic.CheckTaskRequirementsMonotone | src/utils/gameLogic.ts:45-49 | a player with levels at least as high passes every task a weaker one passes |
| GameBoard.GoldForCompletion | src/components/GameBoard.tsx:146-166 | easy 50, medium 150, hard 300, elite 500, master 1000, no task 100 |
| GameBoard.CompleteTile | src/components/GameBoard.tsx:168-172 | appends the id to the completed tiles and adds the difficulty's gold; nothing else changes |
| GameBoard.CompletionIgnoresRewards | src/components/GameBoard.tsx:142-172 | the task's rewards do not change the gold, keys are untouched, and a completion pays 50..1000 |
| GameBoard.CompleteTwicePaysTwice | src/components/GameBoard.tsx:142-172 | the handler does not re-check: completing twice pays twice and lists the id twice |
| GameBoard.InitialSlayerMasters | src/components/GameBoard.tsx:29-39 | nine masters, each with its head image and 0 of 5 tasks |
| GameBoard.SlayerMasterNamesDistinct | src/components/GameBoard.tsx:29-39 | the nine names are distinct |
| GameBoard.SlayerStep | src/components/GameBoard.tsx:215-235 | a key is earned iff count+1 reaches the requirement; the counter then resets to 0, otherwise it becomes count+1 |
| GameBoard.SlayerMastersAfter | src/components/GameBoard.tsx:212-238 | only the master with the name steps; every other master is unchanged |
| GameBoard.SlayerKeysAfter | src/components/GameBoard.tsx:218-224 | keys rise by exactly 1 iff a key is earned; nothing else changes |
| GameBoard.SlayerCounterStaysBelowRequired | src/components/GameBoard.tsx:212-238 | counters stay in 0..required−1, names and requirements are kept |
| GameBoard.FifthTaskEarnsKey | src/components/GameBoard.tsx:212-238 | from the initial list, the first four tasks for a master count up and only the fifth earns a key |
| GameBoard.DeriveTileState | src/components/GameBoard.tsx:473-486 | completed before unlocked before locked |
| GameBoard.OfferedAction | src/components/GameBoard.tsx:649-699 | Complete iff the tile is unlocked and not completed; Unlock iff locked and unlockable |
| GameBoard.NextClickedTile | src/components/GameBoard.tsx:109-123 | without a game or on a completed tile nothing changes; otherwise clicking toggles the selection |
| GameBoard.ClickTwiceRestores | src/components/GameBoard.tsx:109-123 | two clicks on the same tile restore the selection |
| GameBoard.AfterUnlock | src/components/GameBoard.tsx:126-140 | without a game nothing; a rejected unlock alerts its error; a successful one commits the new state |
| GameBoard.CommittedUnlockSpendsKey | src/components/GameBoard.tsx:126-140 | the alert happens iff the tile cannot be unlocked or its id does not parse; a commit spends one key on a newly unlocked tile |
| GameBoard.InitialBoard | src/components/GameBoard.tsx:25-39 | no game, the initial masters, nothing selected, nothing saved |
| GameBoard.TileClick | src/components/GameBoard.tsx:109-123 | only the selection changes |
| GameBoard.UnlockTileAction | src/components/GameBoard.tsx:126-140 | on success the new state is shown and saved and the popups close; on rejection only the alert changes |
| GameBoard.UnlockActionKeepsGameOnRejection | src/components/GameBoard.tsx:126-140 | a rejected unlock leaves the game state unchanged |
| GameBoard.CompleteTileAction | src/components/GameBoard.tsx:142-179 | the completed state is shown and saved and the popups close; nothing else changes |
| GameBoard.SlayerTaskCompleteAction | src/components/GameBoard.tsx:209-243 | the stepped masters are shown and saved; the keys rise and the game is saved iff a key is earned |
| GameBoard.SlayerActionKeepsCountersBelowRequired | src/components/GameBoard.tsx:209-243 | counters stay below their requirement and keys rise by 0 or 1 |
| ShopModal.TotalCost | src/components/ShopModal.tsx:18 | the definition itself: price times quantity |
| ShopModal.CanAfford | src/components/ShopModal.tsx:19 | the definition itself: the gold covers the total cost; AffordableUpToMax is its partner |
| ShopModal.MaxAffordable | src/components/ShopModal.tsx:20 | max·price ≤ gold < (max+1)·price |
| ShopModal.AffordableUpToMax | src/components/ShopModal.tsx:18-20 | a quantity is affordable iff it is at most the maximum affordable one |
| ShopModal.QuantityFromInput | src/components/ShopModal.tsx:117 | at least 1; a positive parsed number is taken, NaN or less than 1 gives 1 |
| ShopModal.TypedQuantityRoundTrip | src/components/ShopModal.tsx:117 | typing a positive number sets exactly that quantity |
| ShopModal.Shop.constructor | src/components/ShopModal.tsx:13 | the quantity starts at 1 |
| ShopModal.Shop.Decrement | src/components/ShopModal.tsx:99 | one less, never below 1 |
| ShopModal.Shop.Increment | src/components/ShopModal.tsx:126 | exactly one more |
| ShopModal.Shop.Input | src/components/ShopModal.tsx:117 | the quantity the typed text gives |
| ShopModal.Shop.BuyMax | src/components/ShopModal.tsx:29-33 | the maximum affordable quantity when it is positive, else unchanged |
| ShopModal.Shop.Purchase | src/components/ShopModal.tsx:22-27 | fires iff affordable, with ('key', quantity, quantity × price), and resets the quantity to 1; otherwise nothing changes |
| SkillsModal.GetTimeAgo | src/components/SkillsModal.tsx:41-55 | "unknown" for a missing or 0 time; then "just now", "1 minute ago", "N minutes ago", "1 hour ago" and "N hours ago" by the elapsed milliseconds |
| SkillsModal.FloorDivTwice | src/components/SkillsModal.tsx:46-52 | whole hours of whole minutes are whole hours of the milliseconds |
| SkillsModal.TotalLevel | src/components/SkillsModal.tsx:57 | the definition itself: the sum over the 24 stat keys minus overall; TotalLevelIsSkillSum and TotalLevelAtLeastSkillCount are its partners |
| SkillsModal.TotalLevelIsSkillSum | src/components/SkillsModal.tsx:57 | the sum of all stats minus overall is the sum of the 23 skills |
| SkillsModal.TotalLevelAtLeastSkillCount | src/components/SkillsModal.tsx:57 | with every skill at level 1 or more the total is at least 23 |
| Hiscores.StatNamesDistinct | src/index.tsx:43-68 | the 24 stat names are distinct |
| Hiscores.LineLevel | src/index.tsx:72-73 | a line without a second field gives 1; otherwise parseInt of the second field |
| Hiscores.NoCommaIsLevelOne | src/index.tsx:73 | a line with no comma, the empty trailing line included, gives level 1 |
| Hiscores.RankLevelXpLine | src/index.tsx:72-73 | a `rank,level,xp` line gives the level's value; rank and xp are ignored |
| Hiscores.ParseHiscores | src/index.tsx:70-74 | line i gives the i-th stat, for i below both 24 and the line count; later lines are ignored and missing stats are absent |
| GameStorage.FindSource | src/utils/gameStorage.ts:48 | the index of the first source with the id, or the length when none has it |
| GameStorage.MarkKeySource | src/utils/gameStorage.ts:45-55 | an existing, uncompleted source is marked and its keys added; otherwise nothing changes |
| GameStorage.MarkKeySourceOnce | src/utils/gameStorage.ts:45-55 | marking twice is marking once, and afterwards marking pays nothing |
| GameStorage.HasExistingGame | src/utils/gameStorage.ts:23-26 | the definition itself: a stored game whose name equals the lower-cased argument; CapitalisedNameNeverFound is its partner |
| GameStorage.CapitalisedNameNeverFound | src/utils/gameStorage.ts:23-26 | a game stored under a name with a capital letter is never found |
| GameStorage.Store.constructor | src/utils/gameStorage.ts:13-21 | both slots start empty |
| GameStorage.Store.SaveGameState | src/utils/gameStorage.ts:5-11 | the game slot holds the state; the slayer slot is kept |
| GameStorage.Store.LoadGameState | src/utils/gameStorage.ts:13-21 | the stored state, or none |
| GameStorage.Store.ResetGame | src/utils/gameStorage.ts:57-59 | the game slot is emptied; the slayer slot is kept |
| GameStorage.Store.HasExisting | src/utils/gameStorage.ts:23-26 | true iff a game is stored under the lower-cased name |
| GameStorage.Store.UpdatePlayerStats | src/utils/gameStorage.ts:28-35 | only the stats and the update time change; without a stored game nothing happens |
| GameStorage.Store.AddKeys | src/utils/gameStorage.ts:37-43 | exactly `amount` more keys; without a stored game nothing happens |
| GameStorage.Store.MarkKeySourceCompleted | src/utils/gameStorage.ts:45-55 | the stored game becomes the marked one; without a stored game nothing happens |
| GameStorage.Store.SaveSlayerMasters | src/utils/gameStorage.ts:77-83 | the slayer slot holds the list; the game slot is kept |
| GameStorage.Store.LoadSlayerMasters | src/utils/gameStorage.ts:85-93 | the stored list, or none |
| GameStorage.StoreRoundTrips | src/utils/gameStorage.ts:5-93 | save then load gives the state, reset then load gives none, and the slayer list round-trips |
| GameStorage.StoreAccumulates | src/utils/gameStorage.ts:37-55 | two key additions add their sum, and marking a source twice pays once |
| PlayerStatsStorage.EntriesOf | src/utils/playerStatsStorage.ts:71 | exactly the entries stored under the name |
| PlayerStatsStorage.WithoutPlayer | src/utils/playerStatsStorage.ts:46 | exactly the entries not stored under the name |
| PlayerStatsStorage.EntriesOfAppend | src/utils/playerStatsStorage.ts:46-49 | a name's entries in a joined list are its entries in each part, in order |
| PlayerStatsStorage.WithoutPlayerEntries | src/utils/playerStatsStorage.ts:46 | removing a name drops all its entries and keeps every other name's entries in order |
| PlayerStatsStorage.Upsert | src/utils/playerStatsStorage.ts:36-51 | the new entry, under the lower-cased name, is last |
| PlayerStatsStorage.UpsertEntries | src/utils/playerStatsStorage.ts:36-51 | after a save the name has exactly one entry, the new one, and other names keep their entries in order |
| PlayerStatsStorage.FindStats | src/utils/playerStatsStorage.ts:68-77 | none iff no entry has the key; otherwise the first entry's stats |
| PlayerStatsStorage.GetPlayerStats | src/utils/playerStatsStorage.ts:68-77 | found iff some entry has the lower-cased name |
| PlayerStatsStorage.SaveThenGet | src/utils/playerStatsStorage.ts:36-77 | save then get, under any spelling with the same lower case, gives the saved stats |
| PlayerStatsStorage.SaveKeepsOthers | src/utils/playerStatsStorage.ts:36-77 | a save does not change another name's lookup |
| PlayerStatsStorage.Delete | src/utils/playerStatsStorage.ts:79-88 | the name is no longer found, and exactly the other names' entries remain |
| PlayerStatsStorage.DeleteKeepsOthers | src/utils/playerStatsStorage.ts:79-88 | other names keep their entries in order |
| PlayerStatsStorage.StatsStore.constructor | src/utils/playerStatsStorage.ts:58-66 | the slot starts empty |
| PlayerStatsStorage.StatsStore.GetSavedPlayers | src/utils/playerStatsStorage.ts:58-66 | the stored list, empty when the slot is |
| PlayerStatsStorage.StatsStore.SavePlayerStats | src/utils/playerStatsStorage.ts:36-56 | the slot holds the upserted list |
| PlayerStatsStorage.StatsStore.GetPlayerStatsOf | src/utils/playerStatsStorage.ts:68-77 | the lookup in the stored list |
| PlayerStatsStorage.StatsStore.DeletePlayerStats | src/utils/playerStatsStorage.ts:79-88 | the slot holds the list without the name |
| PlayerStatsStorage.StatsStore.ClearAllPlayerStats | src/utils/playerStatsStorage.ts:90-97 | the slot is removed and reads as the empty list |
| PlayerStatsStorage.ClearForgetsEveryone | src/utils/playerStatsStorage.ts:36-97 | a saved player is found, and after clearing the list is empty and nobody is found |
| FeedbackLimiter.Cleanup | src/utils/feedbackLimiter.ts:33-36 | exactly the submissions newer than one hour before `now` |
| FeedbackLimiter.OwnSubmissions | src/utils/feedbackLimiter.ts:44 | exactly the player's submissions |
| FeedbackLimiter.CleanupAppend | src/utils/feedbackLimiter.ts:33-36 | cleanup works piece by piece, keeping the order |
| FeedbackLimiter.OwnSubmissionsAppend | src/utils/feedbackLimiter.ts:44 | the player filter works piece by piece, keeping the order |
| FeedbackLimiter.CleanupOwnCommute | src/utils/feedbackLimiter.ts:40-44 | pruning by age and picking the player's submissions commute |
| FeedbackLimiter.CeilDiv | src/utils/feedbackLimiter.ts:57 | `Math.ceil(a / b)`: (q−1)·b < a ≤ q·b |
| FeedbackLimiter.VerdictOf | src/utils/feedbackLimiter.ts:38-64 | the definition itself: refused with the rounded-up minutes iff the last own submission is under 30 minutes old; CanSubmitFeedback states it on the history |
| FeedbackLimiter.WaitOf | src/utils/feedbackLimiter.ts:78-92 | the definition itself: no wait iff no own submission under 30 minutes old, else the rounded-up minutes; TimeUntilNextSubmission ties it to the verdict |
| FeedbackLimiter.CanSubmitFeedback | src/utils/feedbackLimiter.ts:38-64 | refused iff the player's last retained submission is under 30 minutes old; then the wait is the remaining time in whole minutes rounded up, 1..30, with its message |
| FeedbackLimiter.TimeUntilNextSubmission | src/utils/feedbackLimiter.ts:78-92 | none iff the player may submit; otherwise the refusal's wait |
| FeedbackLimiter.Record | src/utils/feedbackLimiter.ts:66-76 | the pruned history with the new submission last |
| FeedbackLimiter.RecordThenRefused | src/utils/feedbackLimiter.ts:66-76 | right after a submission the player is refused for 30 minutes |
| FeedbackLimiter.OtherPlayersIrrelevant | src/utils/feedbackLimiter.ts:38-92 | histories that agree on the player's own submissions give the same verdict and wait |
| FeedbackLimiter.FeedbackStore.constructor | src/utils/feedbackLimiter.ts:15-23 | the history starts empty |
| FeedbackLimiter.FeedbackStore.CanSubmit | src/utils/feedbackLimiter.ts:38-64 | the verdict on the stored history |
| FeedbackLimiter.FeedbackStore.RecordSubmission | src/utils/feedbackLimiter.ts:66-76 | the stored history becomes the recorded one |
| FeedbackLimiter.FeedbackStore.TimeUntilNext | src/utils/feedbackLimiter.ts:78-92 | the wait on the stored history |
| IssueFormatter.Title | src/utils/githubIssueFormatter.ts:37-39 | the kind's prefix, then the description if it is at most 60 characters, or else its first 60 characters followed by "..." |
| IssueFormatter.Labels | src/utils/githubIssueFormatter.ts:41 | ["bug", "user-reported"] for a bug, ["enhancement", "user-reported"] for a feature |
| IssueFormatter.OrNA | src/utils/githubIssueFormatter.ts:64-67 | an empty value shows as N/A, any other as itself |
| IssueFormatter.FactLine | src/utils/githubIssueFormatter.ts:64-67 | a debug line starts with its caption and ends with a newline |
| IssueFormatter.DebugSection | src/utils/githubIssueFormatter.ts:61-91 | the definition itself: the header, the four fact lines and the dump in a collapsed json block; FormatDebugInformation is proved to build it |
| IssueFormatter.FormatDebugInformation | src/utils/githubIssueFormatter.ts:61-91 | the appended pieces make up the debug section |
| IssueFormatter.Lead | src/utils/githubIssueFormatter.ts:43-46 | the definition itself: header, submitter, timestamp and description; BodyStartsWithHeader and DescriptionInBody are its partners |
| IssueFormatter.IssueBody | src/utils/githubIssueFormatter.ts:43-53 | the lead, then the debug section exactly for a bug with debug data, then the footer |
| IssueFormatter.BodyStartsWithHeader | src/utils/githubIssueFormatter.ts:43 | the body opens with the kind's header |
| IssueFormatter.DescriptionInBody | src/utils/githubIssueFormatter.ts:43-46 | the description sits right after the submitter and timestamp lines |
| IssueFormatter.FormatFeedbackAsGitHubIssue | src/utils/githubIssueFormatter.ts:36-56 | the issue's title, labels and body are those above |

## Left out

- Rendering and layout: JSX, pan, zoom and centring, hover and popup timing, and the slayer progress bar. The board's popup and hover cells appear only where the handlers reset them.
- Network I/O: the hiscores fetch and retries, the quest fetch, the proxy's upstream call, routes and HTTP responses, and the feedback POST. The quest reply and the hiscores text are inputs, and `async` calls are plain calls.
- JSON and localStorage: a slot holds the value itself, so there is no `JSON.parse` or `stringify`. Export and import of the game (src/utils/gameStorage.ts:61-75) are not modelled. Storage exceptions, their try/catch and console output are not modelled either.
- The JSON dump of the stored game inside the issue's debug section is not modelled: its text is the `dump` parameter, and the stored-game fields of the debug data only feed that dump.
- The clock: `Date.now()` and `new Date()` are parameters (`now`, and year, month and day for the date string).
- `Math.random()`: every call is an explicit natural-number draw. A draw `d` picks index `d % n`, so every index is reachable and every draw is in range. The Grand Exchange tier roll is an integer 0..99 instead of a float below 1.
- Floating point: the seeded index is the exact integer `(|h| · n) / 2147483647`, which idealises IEEE rounding.
- Unbounded recursion: the skill and Grand Exchange generators retry by recursion when every skill is at 99 or the drawn entry is missing. The model retries over a finite list of draws. Running out of draws is an error, standing for the stack overflow that the dispatcher's try/catch turns into a boss task.
- BossTaskGenerator.GenerateBossTask: requires a nonempty boss catalogue. The source's retry on an empty catalogue never ends, and the boss catalogue is a fixed nonempty data file.
- External catalogues: the boss list, the Grand Exchange item lists and the shop price come from data files that are not part of this model. They are parameters, with a nonempty boss list and a positive price.
- The task category enumeration is not part of this model (the category type in src/types/game.ts is out of date). The model assumes the values start, skill, quest, boss, drop, grandexchange, slayer and daily. Start, slayer and daily fall to the skill generator's default branch.
- GameLogic.FillTasks: the no-clash guarantee is stated against the tasks present before the fill; that a new task also clashes with none added earlier in the same fill, which GenerateUniqueTask gives at each step, is not carried into the contract.
- SkillTaskGenerator.GenerateSkillTask: requires the stats to hold every listed skill, as the player-stats type guarantees.
- SkillsModal.TotalLevelIsSkillSum: requires the 24 stat keys to be present; TotalLevel sums only those 24, so an extra key, which Object.values would add, is ignored.
- The dispatcher calls the quest generator without a callback, so the swap flags of a dispatched quest task are never delivered. This is modelled, and the callback case is modelled in the quest generator alone.
- The quest generator's throw for a missing picked quest cannot happen once the list is nonempty, and is not modelled.
- Dead code: getRequiredKeysForTile (src/utils/gameLogic.ts:247-257) and the daily quest generator (src/utils/generators/dailyTaskGenerator.ts:180-222) are never called and are not modelled. generateKeySources is a constant list (`INITIAL_KEY_SOURCES`).
- Strings are sequences of characters, not UTF-16 code units. Case mapping is ASCII only. parseInt covers whitespace, a sign, the longest digit prefix and NaN, in base 10. toLocaleString is the en-US grouping by threes.
- The correspondence between the daily generator's skill list and the 23 skills of the skill generator is not proved.
- The board is a value with pure handlers rather than a mutable component. React's state batching and effect timing are not modelled.

## Findings

| source | as written | input that shows it | evidently intended | confidence | as-written member | corrected member |
|---|---|---|---|---|---|---|
| src/utils/gameLogic.ts:45-49 | each requirement is checked as `playerStats[req.skill] >= req.level`, but generated requirements carry `target`/`currentLevel`/`requiredLevel` and no `skill` or `level`, so every comparison is with `undefined` and fails | a skill task requiring attack 10→20, checked for a player with attack 99, is rejected; every task with a requirement is rejected | a task passes when the player's level in each required skill reaches the required level | not executed | GameLogic.CheckTaskRequirementsAsWrittenRejects | GameLogic.CheckTaskRequirements |
