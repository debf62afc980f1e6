/** The shopping cart: the weight bought of each fruit kind, the promotion strategy chosen,
    and the total price at checkout. */
module Cart {
  import opened Wrappers
  import opened JavaInt
  import opened Fruits
  import opened Promotions

  /** The cart contents after adding `weight` units of `f`: the old weight (0 if absent) plus
      `weight` under Java's `int` addition, every other entry as it was. */
  function WithItem(items: Items, f: Fruit, weight: Int32): (r: Items)
    ensures r.Keys == items.Keys + {f}
    ensures (r[f] - (WeightOf(items, f) + weight)) % Modulus32 == 0
    ensures MinInt32 <= WeightOf(items, f) + weight <= MaxInt32 ==> r[f] == WeightOf(items, f) + weight
    ensures forall g :: g != f && g in items ==> r[g] == items[g]
  {
    items[f := Wrap32(WeightOf(items, f) + weight)]
  }

  /** The sum of the slices of the kinds in `kinds`, a kind absent from the cart contributing nothing. */
  function SumOver(items: Items, kinds: seq<Fruit>): real
  {
    if kinds == [] then 0.0
    else Slice(items, kinds[0]) + SumOver(items, kinds[1..])
  }

  /** The price before promotion: the sum over the cart's entries of unit price times weight. */
  function BaseSum(items: Items): (r: real)
    ensures r == Slice(items, Apple) + Slice(items, Strawberry) + Slice(items, Mango)
  {
    assert AllFruits[1..] == [Strawberry, Mango];
    assert [Strawberry, Mango][1..] == [Mango];
    assert [Mango][1..] == [];
    assert SumOver(items, [Mango]) == Slice(items, Mango);
    assert SumOver(items, [Strawberry, Mango]) == Slice(items, Strawberry) + SumOver(items, [Mango]);
    SumOver(items, AllFruits)
  }

  /** Entering a new kind into the cart adds its slice to the sum over any list of distinct kinds that includes it. */
  lemma {:induction false} SumOverInsert(items: Items, kinds: seq<Fruit>, f: Fruit, w: Int32)
    requires f !in items
    requires forall i, j :: 0 <= i < j < |kinds| ==> kinds[i] != kinds[j]
    ensures SumOver(items[f := w], kinds)
            == SumOver(items, kinds) + (if f in kinds then CalculatePrice(f, w) else 0.0)
  {
    if kinds != [] {
      SumOverInsert(items, kinds[1..], f, w);
      if kinds[0] == f {
        assert f !in kinds[1..] by {
          forall j | 0 <= j < |kinds[1..]| ensures kinds[1..][j] != f {
            assert kinds[1..][j] == kinds[j + 1];
          }
        }
      } else {
        assert (f in kinds) == (f in kinds[1..]) by {
          assert kinds == [kinds[0]] + kinds[1..];
        }
      }
    }
  }

  /** The base price in closed form: 8 per unit of apple, 13 per unit of strawberry, 20 per unit of mango. */
  lemma BaseSumFormula(items: Items)
    ensures BaseSum(items)
            == 8.0 * WeightOf(items, Apple) as real
             + 13.0 * WeightOf(items, Strawberry) as real
             + 20.0 * WeightOf(items, Mango) as real
  {
  }

  lemma BaseSumEmpty()
    ensures BaseSum(map[]) == 0.0
  {
    BaseSumFormula(map[]);
  }

  /** One loop step of the total: entering a new kind adds exactly its slice. */
  lemma BaseSumInsert(items: Items, f: Fruit, w: Int32)
    requires f !in items
    ensures BaseSum(items[f := w]) == BaseSum(items) + CalculatePrice(f, w)
  {
    AllFruitsExactlyOnce();
    SumOverInsert(items, AllFruits, f, w);
  }

  /** Adding `w` units of `f` (without overflow) raises the base price by the price of `w` units of `f`. */
  lemma BaseSumAfterAdd(items: Items, f: Fruit, w: Int32)
    requires MinInt32 <= WeightOf(items, f) + w <= MaxInt32
    ensures BaseSum(WithItem(items, f, w)) == BaseSum(items) + CalculatePrice(f, w)
  {
    var r := WithItem(items, f, w);
    BaseSumFormula(items);
    BaseSumFormula(r);
    assert WeightOf(r, f) == WeightOf(items, f) + w;
    assert forall g :: g != f ==> WeightOf(r, g) == WeightOf(items, g);
  }

  /** A cart with no negative weight has a non-negative base price. */
  lemma BaseSumNonNegative(items: Items)
    requires forall f :: f in items ==> items[f] >= 0
    ensures BaseSum(items) >= 0.0
  {
    BaseSumFormula(items);
    assert WeightOf(items, Apple) >= 0 && WeightOf(items, Strawberry) >= 0 && WeightOf(items, Mango) >= 0;
  }

  /** The base price grows with every weight. */
  lemma BaseSumMonotone(m1: Items, m2: Items)
    requires forall f :: WeightOf(m1, f) <= WeightOf(m2, f)
    ensures BaseSum(m1) <= BaseSum(m2)
  {
    BaseSumFormula(m1);
    BaseSumFormula(m2);
    assert WeightOf(m1, Apple) <= WeightOf(m2, Apple);
    assert WeightOf(m1, Strawberry) <= WeightOf(m2, Strawberry);
    assert WeightOf(m1, Mango) <= WeightOf(m2, Mango);
  }

  /** Once the price any inner strategy gives a cart reaches 100, buying more of anything
      keeps the 10 deduction. */
  lemma ThresholdKeptWhenCartGrows(base: Promotion, m1: Items, m2: Items)
    requires forall f :: WeightOf(m1, f) <= WeightOf(m2, f)
    requires Apply(base, BaseSum(m1), m1) >= 100.0
    ensures Apply(Over100Discount10(base), BaseSum(m2), m2) == Apply(base, BaseSum(m2), m2) - 10.0
  {
    BaseSumFormula(m1);
    BaseSumFormula(m2);
    assert WeightOf(m1, Apple) <= WeightOf(m2, Apple);
    assert WeightOf(m1, Strawberry) <= WeightOf(m2, Strawberry);
    assert WeightOf(m1, Mango) <= WeightOf(m2, Mango);
    ThresholdReachedThroughLayers(base, BaseSum(m1), m1, 100.0);
    ThresholdReachedThroughLayers(base, BaseSum(m2), m2, 100.0);
    assert BaseSum(m1) - StrawberryCut(base, m1) <= BaseSum(m2) - StrawberryCut(base, m2);
  }

  class ShoppingCart {
    var items: Items
    var strategy: Option<Promotion>

    /** A new cart is empty and has no strategy. */
    constructor ()
      ensures items == map[] && strategy == None
    {
      items := map[];
      strategy := None;
    }

    method AddItem(f: Fruit, weight: Int32)
      modifies this
      ensures items == WithItem(old(items), f, weight)
      ensures strategy == old(strategy)
    {
      items := WithItem(items, f, weight);
    }

    method SetPromotionStrategy(p: Option<Promotion>)
      modifies this
      ensures strategy == p
      ensures items == old(items)
    {
      strategy := p;
    }

    /** Sums unit price times weight over the entries, in whatever order the key set yields
        them, then applies the strategy when one is set. */
    method CalculateTotal() returns (total: real)
      ensures strategy == None ==> total == BaseSum(items)
      ensures strategy.Some? ==> total == Apply(strategy.value, BaseSum(items), items)
    {
      total := 0.0;
      var remaining := items.Keys;
      BaseSumEmpty();
      assert items - remaining == map[];
      while remaining != {}
        invariant remaining <= items.Keys
        invariant total == BaseSum(items - remaining)
        decreases remaining
      {
        var f :| f in remaining;
        var done := items - remaining;
        BaseSumInsert(done, f, items[f]);
        assert done[f := items[f]] == items - (remaining - {f});
        total := total + CalculatePrice(f, items[f]);
        remaining := remaining - {f};
      }
      assert items - remaining == items;
      if strategy.Some? {
        total := Apply(strategy.value, total, items);
      }
    }
  }
}
