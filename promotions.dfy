/** The promotion strategies. A strategy maps the cart's original price and contents to an
    adjusted price; `Over100Discount10` decorates an inner strategy and applies it first. */
module Promotions {
  import opened JavaInt
  import opened Fruits

  datatype Promotion =
    | NoPromotion
    | StrawberryDiscount
    | Over100Discount10(base: Promotion)

  /** The strategy a chain of `Over100Discount10` decorators ends in. */
  function Innermost(p: Promotion): (leaf: Promotion)
    ensures !leaf.Over100Discount10?
  {
    match p
    case Over100Discount10(base) => Innermost(base)
    case _ => p
  }

  /** The number of `Over100Discount10` decorators around the innermost strategy. */
  function Layers(p: Promotion): nat
  {
    match p
    case Over100Discount10(base) => 1 + Layers(base)
    case _ => 0
  }

  /** What the innermost strategy takes off the original price: 2.6 per unit of strawberry
      when it is the strawberry discount, nothing when it is no promotion. */
  function StrawberryCut(p: Promotion, items: Items): real
  {
    if Innermost(p).StrawberryDiscount? then 2.6 * WeightOf(items, Strawberry) as real else 0.0
  }

  /** `applyPromotion` of each strategy. The innermost strategy fixes a price, and each
      decorator around it lowers that price by between 0 and 10. */
  function Apply(p: Promotion, original: real, items: Items): (r: real)
    ensures var leaf := original - StrawberryCut(p, items);
            leaf - 10.0 * Layers(p) as real <= r <= leaf
  {
    match p
    case NoPromotion => original
    case StrawberryDiscount =>
      var slice := Slice(items, Strawberry);
      original - slice + slice * 0.8
    case Over100Discount10(base) =>
      var q := Apply(base, original, items);
      if q >= 100.0 then q - 10.0 else q
  }

  lemma NoPromotionIsIdentity(original: real, items: Items)
    ensures Apply(NoPromotion, original, items) == original
  {
  }

  /** Without strawberries in the cart the strawberry discount changes nothing. */
  lemma StrawberryDiscountWithoutStrawberry(original: real, items: Items)
    requires Strawberry !in items
    ensures Apply(StrawberryDiscount, original, items) == original
  {
  }

  /** The strawberry discount replaces the strawberries' 13 per unit by 80% of it, so it takes
      2.6 per unit of strawberry off the original price and leaves everything else alone. */
  lemma StrawberryDiscountFormula(original: real, items: Items)
    ensures Apply(StrawberryDiscount, original, items)
            == original - 2.6 * WeightOf(items, Strawberry) as real
    ensures Apply(StrawberryDiscount, original, items)
            == original - Slice(items, Strawberry) + 0.8 * PricePerKg(Strawberry) * WeightOf(items, Strawberry) as real
  {
  }

  /** The decorator deducts 10 exactly when the inner strategy's price is at least 100
      (100 itself qualifies); it never raises the inner price and never takes more than 10. */
  lemma Over100Discount10Rule(base: Promotion, original: real, items: Items)
    ensures var q := Apply(base, original, items);
            var r := Apply(Over100Discount10(base), original, items);
            && (r == q - 10.0 <==> q >= 100.0)
            && (q < 100.0 ==> r == q)
            && q - 10.0 <= r <= q
  {
  }

  /** With the chain of the source's fourth customer the threshold is tested on the
      strawberry-discounted price, not on the original price. */
  lemma ThresholdAfterStrawberryDiscount(original: real, items: Items)
    ensures var d := original - 2.6 * WeightOf(items, Strawberry) as real;
            Apply(Over100Discount10(StrawberryDiscount), original, items)
            == if d >= 100.0 then d - 10.0 else d
  {
    StrawberryDiscountFormula(original, items);
  }

  /** Every strategy reads only the strawberry entry of the cart: two carts with the same
      strawberry weight get the same adjusted price from the same original price. */
  lemma {:induction false} ApplyReadsOnlyStrawberry(p: Promotion, original: real, m1: Items, m2: Items)
    requires WeightOf(m1, Strawberry) == WeightOf(m2, Strawberry)
    ensures Apply(p, original, m1) == Apply(p, original, m2)
  {
    match p
    case NoPromotion =>
    case StrawberryDiscount =>
      StrawberryDiscountFormula(original, m1);
      StrawberryDiscountFormula(original, m2);
    case Over100Discount10(base) =>
      ApplyReadsOnlyStrawberry(base, original, m1, m2);
  }

  /** For a level `c` of at least 100, a chain of decorators gives at least `c` exactly when
      the innermost strategy gives at least `c` plus 10 per decorator: every decorator on the
      way up must have deducted its 10. */
  lemma {:induction false} ThresholdReachedThroughLayers(p: Promotion, original: real, items: Items, c: real)
    requires c >= 100.0
    ensures Apply(p, original, items) >= c
            <==> original - StrawberryCut(p, items) >= c + 10.0 * Layers(p) as real
  {
    match p
    case NoPromotion =>
    case StrawberryDiscount =>
      StrawberryDiscountFormula(original, items);
    case Over100Discount10(base) =>
      ThresholdReachedThroughLayers(base, original, items, c + 10.0);
  }

  /** When the strawberry weight is not negative, no strategy raises the price. */
  lemma NeverRaisesPrice(p: Promotion, original: real, items: Items)
    requires WeightOf(items, Strawberry) >= 0
    ensures Apply(p, original, items) <= original
  {
  }

  /** A negative strawberry weight, which the cart accepts, makes the strawberry discount raise the price. */
  lemma NegativeStrawberryRaisesPrice(original: real)
    ensures Apply(StrawberryDiscount, original, map[Strawberry := -5]) == original + 13.0
  {
  }
}
