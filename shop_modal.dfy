/** The key shop: a quantity the player adjusts, the cost and affordability arithmetic, and the
    purchase that hands (item, amount, cost) to the caller and resets the quantity. The key price
    comes from a shop configuration that is not part of this model; it is a positive parameter. */
module ShopModal {
  import opened Strings

  /** `keyPrice * quantity`. */
  function TotalCost(price: int, quantity: int): int
  {
    price * quantity
  }

  /** `currentGold >= totalCost`. */
  predicate CanAfford(gold: int, price: int, quantity: int)
  {
    gold >= TotalCost(price, quantity)
  }

  /** `Math.floor(currentGold / keyPrice)`: the largest quantity the gold pays for. Dafny's
      division by a positive divisor rounds down, as `Math.floor` does, also for negative gold. */
  function MaxAffordable(gold: int, price: int): (m: int)
    requires price > 0
    ensures m * price <= gold < (m + 1) * price
  {
    var m := gold / price;
    assert gold == price * m + gold % price;
    m
  }

  /** A quantity is affordable exactly when it is at most the maximum affordable one. */
  lemma AffordableUpToMax(gold: int, price: int, quantity: int)
    requires price > 0
    ensures CanAfford(gold, price, quantity) <==> quantity <= MaxAffordable(gold, price)
  {
    var m := MaxAffordable(gold, price);
    if quantity <= m {
      MulMonotone(quantity, m, price);
    } else {
      MulMonotone(m + 1, quantity, price);
    }
  }

  /** Multiplying by a positive price keeps the order. */
  lemma MulMonotone(a: int, b: int, p: int)
    requires p > 0 && a <= b
    ensures a * p <= b * p && p * a <= p * b
  {
    var d := b - a;
    assert d * p >= 0;
    assert b * p == a * p + d * p;
  }

  /** The quantity a typed value gives: `Math.max(1, parseInt(value) || 1)`; NaN and 0 are falsy
      and become 1. */
  function QuantityFromInput(text: string): (q: int)
    ensures q >= 1
    ensures ParseInt(text).Num? && ParseInt(text).value >= 1 ==> q == ParseInt(text).value
    ensures ParseInt(text).NaN? || ParseInt(text).value < 1 ==> q == 1
  {
    var parsed := ParseInt(text);
    var v := if parsed.NaN? || parsed.value == 0 then 1 else parsed.value;
    if v < 1 then 1 else v
  }

  /** Typing a number's decimal form sets exactly that quantity, when it is positive. */
  lemma TypedQuantityRoundTrip(n: int)
    requires n >= 1
    ensures QuantityFromInput(IntToString(n)) == n
  {
    IntToStringRoundTrip(n);
  }

  /** One call of the `onPurchase` callback. */
  datatype PurchaseRecord = PurchaseRecord(itemType: string, amount: int, cost: int)

  /** The shop's quantity cell and the purchases it has handed to its caller. */
  class Shop {
    var quantity: int
    var purchases: seq<PurchaseRecord>
    const keyPrice: int

    /** The quantity never drops below one and the price is positive. */
    predicate Valid()
      reads this
    {
      quantity >= 1 && keyPrice > 0
    }

    /** A shop opens with a quantity of one. */
    constructor (price: int)
      requires price > 0
      ensures Valid() && quantity == 1 && purchases == [] && keyPrice == price
    {
      quantity := 1;
      purchases := [];
      keyPrice := price;
    }

    /** The "-" button: `Math.max(1, quantity - 1)`. */
    method Decrement()
      requires Valid()
      modifies this
      ensures Valid()
      ensures quantity == if old(quantity) > 1 then old(quantity) - 1 else 1
      ensures purchases == old(purchases)
    {
      quantity := if quantity - 1 > 1 then quantity - 1 else 1;
    }

    /** The "+" button: one more. */
    method Increment()
      requires Valid()
      modifies this
      ensures Valid() && quantity == old(quantity) + 1 && purchases == old(purchases)
    {
      quantity := quantity + 1;
    }

    /** A value typed into the quantity field. */
    method Input(text: string)
      requires Valid()
      modifies this
      ensures Valid() && quantity == QuantityFromInput(text) && purchases == old(purchases)
    {
      quantity := QuantityFromInput(text);
    }

    /** "Buy Max": the maximum affordable quantity, when it is positive; otherwise no change. */
    method BuyMax(gold: int)
      requires Valid()
      modifies this
      ensures Valid() && purchases == old(purchases)
      ensures MaxAffordable(gold, keyPrice) > 0 ==> quantity == MaxAffordable(gold, keyPrice)
      ensures MaxAffordable(gold, keyPrice) <= 0 ==> quantity == old(quantity)
      ensures CanAfford(gold, keyPrice, quantity) || quantity == old(quantity)
    {
      var m := MaxAffordable(gold, keyPrice);
      if m > 0 {
        quantity := m;
        AffordableUpToMax(gold, keyPrice, m);
      }
    }

    /** The purchase button: when the quantity is affordable (and positive), the caller receives
      ('key', quantity, quantity × price) and the quantity goes back to one; otherwise nothing
      happens. */
    method Purchase(gold: int) returns (bought: bool)
      requires Valid()
      modifies this
      ensures Valid()
      ensures bought <==> CanAfford(gold, keyPrice, old(quantity))
      ensures bought ==> (purchases == old(purchases) + [PurchaseRecord("key", old(quantity), keyPrice * old(quantity))]
        && quantity == 1)
      ensures !bought ==> purchases == old(purchases) && quantity == old(quantity)
      ensures bought ==> keyPrice * old(quantity) <= gold && old(quantity) <= MaxAffordable(gold, keyPrice)
    {
      var totalCost := TotalCost(keyPrice, quantity);
      if CanAfford(gold, keyPrice, quantity) && quantity > 0 {
        AffordableUpToMax(gold, keyPrice, quantity);
        purchases := purchases + [PurchaseRecord("key", quantity, totalCost)];
        quantity := 1;
        bought := true;
      } else {
        bought := false;
      }
    }
  }
}
