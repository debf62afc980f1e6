/** The price table: the three fruit kinds the shop sells and their unit prices. */
module Fruits {
  import opened JavaInt

  /** One constructor per `Fruit` subclass of the source. */
  datatype Fruit = Apple | Strawberry | Mango

  /** Every fruit kind, each once; the cart's base price is a sum over this list. */
  const AllFruits: seq<Fruit> := [Apple, Strawberry, Mango]

  /** The cart contents: fruit kind to total weight, absent meaning none bought. */
  type Items = map<Fruit, Int32>

  /** The price per unit of weight fixed by each subclass's constructor. */
  function PricePerKg(f: Fruit): (r: real)
    ensures 8.0 <= r <= 20.0
  {
    match f
    case Apple => 8.0
    case Strawberry => 13.0
    case Mango => 20.0
  }

  /** Price of `weight` units of fruit `f`. */
  function CalculatePrice(f: Fruit, weight: Int32): (r: real)
    ensures r / PricePerKg(f) == weight as real
  {
    PricePerKg(f) * weight as real
  }

  /** The weight recorded for `f`, or 0 when the cart has no entry for it (the source's `getOrDefault(f, 0)`). */
  function WeightOf(items: Items, f: Fruit): (w: Int32)
    ensures f in items ==> w == items[f]
    ensures f !in items ==> w == 0
  {
    if f in items then items[f] else 0
  }

  /** The share of kind `f` in the cart's price: its entry's price, 0 when it has no entry. */
  function Slice(items: Items, f: Fruit): (r: real)
    ensures r == CalculatePrice(f, WeightOf(items, f))
  {
    if f in items then CalculatePrice(f, items[f]) else 0.0
  }

  lemma PriceTable()
    ensures PricePerKg(Apple) == 8.0
    ensures PricePerKg(Strawberry) == 13.0
    ensures PricePerKg(Mango) == 20.0
  {
  }

  /** AllFruits lists each kind exactly once. */
  lemma AllFruitsExactlyOnce()
    ensures forall f: Fruit :: f in AllFruits
    ensures forall i, j :: 0 <= i < j < |AllFruits| ==> AllFruits[i] != AllFruits[j]
  {
    forall f: Fruit
      ensures f in AllFruits
    {
      var i := match f case Apple => 0 case Strawberry => 1 case Mango => 2;
      assert AllFruits[i] == f;
    }
  }

  /** The price of a weight is additive over a split of the weight. */
  lemma CalculatePriceAdditive(f: Fruit, a: Int32, b: Int32)
    requires MinInt32 <= a + b <= MaxInt32
    ensures CalculatePrice(f, a + b) == CalculatePrice(f, a) + CalculatePrice(f, b)
  {
  }

  /** The price of a weight is 0 for no weight, never negative for a non-negative weight,
      and grows with the weight. */
  lemma CalculatePriceMonotone(f: Fruit, a: Int32, b: Int32)
    ensures CalculatePrice(f, 0) == 0.0
    ensures a >= 0 ==> CalculatePrice(f, a) >= 0.0
    ensures a <= b ==> CalculatePrice(f, a) <= CalculatePrice(f, b)
  {
  }
}
