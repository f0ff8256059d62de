/** The Grand Exchange task generator: a weighted price tier, an item from that tier's list and an
    amount from the tier's range. The item lists (`ge_items.json`) are a parameter; the float tier
    roll in [0, 1) is an integer roll whose value modulo 100 stands for the roll in hundredths. */
module GeTaskGenerator {
  import opened Strings
  import opened GameTypes
  import opened Rewards

  /** The item names of each tier (GEItemsData). */
  datatype GeItems = GeItems(cheap: seq<string>, medium: seq<string>, expensive: seq<string>, luxury: seq<string>)

  function TierItems(items: GeItems, tier: GeTier): seq<string>
  {
    match tier
    case CheapItems => items.cheap
    case MediumItems => items.medium
    case ExpensiveItems => items.expensive
    case LuxuryItems => items.luxury
  }

  /** The tier of a roll of `r` hundredths: below 40 cheap, below 70 medium, below 90 expensive,
      else luxury. */
  function TierOfRoll(r: int): (t: GeTier)
    ensures t == CheapItems <==> r < 40
    ensures t == MediumItems <==> 40 <= r < 70
    ensures t == ExpensiveItems <==> 70 <= r < 90
    ensures t == LuxuryItems <==> 90 <= r
  {
    if r < 40 then CheapItems
    else if r < 70 then MediumItems
    else if r < 90 then ExpensiveItems
    else LuxuryItems
  }

  /** The tier a roll draw gives: its value modulo 100, in hundredths. */
  function TierFromRoll(roll: nat): GeTier
  {
    TierOfRoll(roll % 100)
  }

  /** How many of the rolls 0..n-1 (in hundredths) give the tier `t`. */
  function CountTier(t: GeTier, n: nat): nat
  {
    if n == 0 then 0 else CountTier(t, n - 1) + (if TierOfRoll(n - 1) == t then 1 else 0)
  }

  /** The rolls of a tier's band: [BandLow, BandHigh) within 0..99. */
  function BandLow(t: GeTier): nat
  {
    match t
    case CheapItems => 0
    case MediumItems => 40
    case ExpensiveItems => 70
    case LuxuryItems => 90
  }

  function BandHigh(t: GeTier): nat
  {
    match t
    case CheapItems => 40
    case MediumItems => 70
    case ExpensiveItems => 90
    case LuxuryItems => 100
  }

  /** Among the first `n` rolls, those of a tier are the ones inside its band. */
  lemma {:induction false} CountTierBand(t: GeTier, n: nat)
    requires n <= 100
    ensures CountTier(t, n) == if n <= BandLow(t) then 0 else if n >= BandHigh(t) then BandHigh(t) - BandLow(t) else n - BandLow(t)
  {
    if n > 0 {
      CountTierBand(t, n - 1);
      assert TierOfRoll(n - 1) == t <==> BandLow(t) <= n - 1 < BandHigh(t);
    }
  }

  /** Of the hundred rolls, 40 give cheap, 30 medium, 20 expensive and 10 luxury: the 40/30/20/10
      weighting of the tiers. */
  lemma TierWeights(t: GeTier)
    ensures CountTier(t, 100) == match t
      case CheapItems => 40
      case MediumItems => 30
      case ExpensiveItems => 20
      case LuxuryItems => 10
  {
    CountTierBand(t, 100);
  }

  /** One try of the generator: a tier roll and an index draw into the tier's list. */
  datatype GeAttempt = GeAttempt(tierRoll: nat, itemDraw: nat)

  /** The tier and item a try picks, or None when it picks nothing usable: the list is empty (the
      element is undefined) or the item is the empty string (both falsy). */
  function PickItem(items: GeItems, a: GeAttempt): (r: Option<(GeTier, string)>)
    ensures r.Some? ==>
      r.value.0 == TierFromRoll(a.tierRoll) && r.value.1 in TierItems(items, r.value.0) && r.value.1 != ""
    ensures r.None? <==> var list := TierItems(items, TierFromRoll(a.tierRoll));
      list == [] || list[a.itemDraw % |list|] == ""
  {
    var tier := TierFromRoll(a.tierRoll);
    var list := TierItems(items, tier);
    if list == [] then None
    else
      var item := list[a.itemDraw % |list|];
      if item == "" then None else Some((tier, item))
  }

  /** `Math.floor(Math.random() * (max - min + 1)) + min` for the draw `d`. */
  function ItemAmount(cfg: GeConfig, d: nat): (n: int)
    requires cfg.amountMin <= cfg.amountMax
    ensures cfg.amountMin <= n <= cfg.amountMax
  {
    cfg.amountMin + d % (cfg.amountMax - cfg.amountMin + 1)
  }

  lemma ItemAmountReachable(cfg: GeConfig, n: int)
    requires cfg.amountMin <= n <= cfg.amountMax
    ensures ItemAmount(cfg, (n - cfg.amountMin) as nat) == n
  {
  }

  /** The task for buying `amount` of `item` from tier `tier`. */
  function GeTaskFor(tileId: string, tier: GeTier, item: string, amount: int): (t: Task)
    ensures t.id == "grandexchange_" + tileId && t.title == "Grand Exchange: " + item
    ensures t.category == GrandExchange && t.skillName == None
    ensures t.difficulty == GeRewards(tier).difficulty
    ensures t.requirements == [ItemReq(item, amount)]
    ensures t.rewards == [KeysReward(GeRewards(tier).keysPerTask), GoldReward(GeRewards(tier).goldBonus)]
  {
    var cfg := GeRewards(tier);
    Task(
      "grandexchange_" + tileId, "Grand Exchange: " + item,
      "Buy " + IntToString(amount) + "× " + item + " from the Grand Exchange",
      GrandExchange, cfg.difficulty, None,
      [ItemReq(item, amount)],
      [KeysReward(cfg.keysPerTask), GoldReward(cfg.goldBonus)])
  }

  /** The try at index `i` is the first that picks an item. */
  predicate FirstPick(items: GeItems, attempts: seq<GeAttempt>, i: nat)
  {
    i < |attempts| && PickItem(items, attempts[i]).Some?
    && forall j :: 0 <= j < i ==> PickItem(items, attempts[j]).None?
  }

  /** The task the try `a` builds, when it picks an item. */
  function TaskOfPick(tileId: string, items: GeItems, a: GeAttempt, amountDraw: nat): Task
    requires PickItem(items, a).Some?
  {
    var (tier, item) := PickItem(items, a).value;
    GeTaskFor(tileId, tier, item, ItemAmount(GeRewards(tier), amountDraw))
  }

  /** After a try that picks nothing, some later try picks an item exactly when some try does. */
  lemma AnyPickSkipsMiss(items: GeItems, attempts: seq<GeAttempt>)
    requires attempts != [] && PickItem(items, attempts[0]).None?
    ensures (exists i :: 0 <= i < |attempts| && PickItem(items, attempts[i]).Some?)
      <==> (exists i :: 0 <= i < |attempts[1..]| && PickItem(items, attempts[1..][i]).Some?)
  {
    if i :| 0 <= i < |attempts| && PickItem(items, attempts[i]).Some? {
      assert attempts[1..][i - 1] == attempts[i];
    }
  }

  /** After a try that picks nothing, the first pick of the later tries is the first pick. */
  lemma FirstPickSkipsMiss(items: GeItems, attempts: seq<GeAttempt>, i: nat)
    requires attempts != [] && PickItem(items, attempts[0]).None?
    requires FirstPick(items, attempts[1..], i)
    ensures FirstPick(items, attempts, i + 1) && attempts[1..][i] == attempts[i + 1]
  {
    forall j | 0 <= j < i + 1
      ensures PickItem(items, attempts[j]).None?
    {
      if j > 0 {
        assert attempts[j] == attempts[1..][j - 1];
      }
    }
  }

  /** generateGrandExchangeTask: tries until one picks an item, then draws the amount. The source
      retries without bound; each retry here consumes one element of `attempts`, and running out
      of them is the stack overflow the unbounded recursion ends in. */
  function GenerateGrandExchangeTask(tileId: string, items: GeItems, attempts: seq<GeAttempt>, amountDraw: nat): (r: Result<Task>)
    ensures r.Ok? <==> exists i :: 0 <= i < |attempts| && PickItem(items, attempts[i]).Some?
    ensures r.Ok? ==>
      exists i: nat :: FirstPick(items, attempts, i) && r.value == TaskOfPick(tileId, items, attempts[i], amountDraw)
    decreases |attempts|
  {
    if attempts == [] then Err("Maximum call stack size exceeded")
    else
      var pick := PickItem(items, attempts[0]);
      if pick.None? then
        var rest := GenerateGrandExchangeTask(tileId, items, attempts[1..], amountDraw);
        AnyPickSkipsMiss(items, attempts);
        if rest.Ok? then
          var i: nat :| FirstPick(items, attempts[1..], i)
            && rest.value == TaskOfPick(tileId, items, attempts[1..][i], amountDraw);
          FirstPickSkipsMiss(items, attempts, i);
          rest
        else rest
      else
        assert FirstPick(items, attempts, 0);
        Ok(TaskOfPick(tileId, items, attempts[0], amountDraw))
  }

  /** A generated task buys a non-empty item of its tier's list, in an amount inside the tier's
      range, and pays that tier's keys and gold at that tier's difficulty. */
  lemma GeTaskBuysListedItem(tileId: string, items: GeItems, attempts: seq<GeAttempt>, amountDraw: nat)
    requires GenerateGrandExchangeTask(tileId, items, attempts, amountDraw).Ok?
    ensures GenerateGrandExchangeTask(tileId, items, attempts, amountDraw).value.category == GrandExchange
    ensures var t := GenerateGrandExchangeTask(tileId, items, attempts, amountDraw).value;
      exists tier :: t.difficulty == GeRewards(tier).difficulty
        && |t.requirements| == 1 && t.requirements[0].ItemReq?
        && t.requirements[0].item in TierItems(items, tier) && t.requirements[0].item != ""
        && GeRewards(tier).amountMin <= t.requirements[0].amount <= GeRewards(tier).amountMax
        && t.rewards == [KeysReward(GeRewards(tier).keysPerTask), GoldReward(GeRewards(tier).goldBonus)]
  {
    var t := GenerateGrandExchangeTask(tileId, items, attempts, amountDraw).value;
    var i: nat :| FirstPick(items, attempts, i) && t == TaskOfPick(tileId, items, attempts[i], amountDraw);
    var (tier, item) := PickItem(items, attempts[i]).value;
    assert t == GeTaskFor(tileId, tier, item, ItemAmount(GeRewards(tier), amountDraw));
  }

  /** With four empty lists no sequence of tries ever yields a task (the source recurses forever). */
  lemma EmptyCatalogNeverYields(tileId: string, attempts: seq<GeAttempt>, amountDraw: nat)
    ensures GenerateGrandExchangeTask(tileId, GeItems([], [], [], []), attempts, amountDraw).Err?
  {
    forall i | 0 <= i < |attempts|
      ensures PickItem(GeItems([], [], [], []), attempts[i]).None?
    {
    }
  }
}
