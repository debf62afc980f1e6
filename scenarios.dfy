/** The four customers of the source's demonstration, as clients of the cart, and the five
    concrete checks it makes on them. */
module Scenarios {
  import opened Wrappers
  import opened JavaInt
  import opened Fruits
  import opened Promotions
  import opened Cart

  /** Apples and strawberries, no promotion. */
  method CustomerA(apple: Int32, strawberry: Int32) returns (total: real)
    ensures total == 8.0 * apple as real + 13.0 * strawberry as real
  {
    var cart := new ShoppingCart();
    cart.AddItem(Apple, apple);
    cart.AddItem(Strawberry, strawberry);
    cart.SetPromotionStrategy(Some(NoPromotion));
    total := cart.CalculateTotal();
    BaseSumFormula(cart.items);
  }

  /** All three kinds, no promotion. */
  method CustomerB(apple: Int32, strawberry: Int32, mango: Int32) returns (total: real)
    ensures total == 8.0 * apple as real + 13.0 * strawberry as real + 20.0 * mango as real
  {
    var cart := new ShoppingCart();
    cart.AddItem(Apple, apple);
    cart.AddItem(Strawberry, strawberry);
    cart.AddItem(Mango, mango);
    cart.SetPromotionStrategy(Some(NoPromotion));
    total := cart.CalculateTotal();
    BaseSumFormula(cart.items);
  }

  /** All three kinds, strawberries at 80%. */
  method CustomerC(apple: Int32, strawberry: Int32, mango: Int32) returns (total: real)
    ensures total == 8.0 * apple as real + 10.4 * strawberry as real + 20.0 * mango as real
  {
    var cart := new ShoppingCart();
    cart.AddItem(Apple, apple);
    cart.AddItem(Strawberry, strawberry);
    cart.AddItem(Mango, mango);
    cart.SetPromotionStrategy(Some(StrawberryDiscount));
    total := cart.CalculateTotal();
    BaseSumFormula(cart.items);
    StrawberryDiscountFormula(BaseSum(cart.items), cart.items);
  }

  /** All three kinds, strawberries at 80% and then 10 off at 100 or more. */
  method CustomerD(apple: Int32, strawberry: Int32, mango: Int32) returns (total: real)
    ensures var d := 8.0 * apple as real + 10.4 * strawberry as real + 20.0 * mango as real;
            total == if d >= 100.0 then d - 10.0 else d
  {
    var cart := new ShoppingCart();
    cart.AddItem(Apple, apple);
    cart.AddItem(Strawberry, strawberry);
    cart.AddItem(Mango, mango);
    cart.SetPromotionStrategy(Some(Over100Discount10(StrawberryDiscount)));
    total := cart.CalculateTotal();
    BaseSumFormula(cart.items);
    ThresholdAfterStrawberryDiscount(BaseSum(cart.items), cart.items);
  }

  /** The contents of a new cart after adding each kind once, in the order the demonstration adds them. */
  function Added(apple: Int32, strawberry: Int32, mango: Int32): Items
  {
    WithItem(WithItem(WithItem(map[], Apple, apple), Strawberry, strawberry), Mango, mango)
  }

  /** The five expected results of the demonstration, exact rather than within 0.01, on carts
      built by adding from empty as its customers do. */
  lemma DemonstrationResults()
    ensures var a := WithItem(WithItem(map[], Apple, 5), Strawberry, 5);
            Apply(NoPromotion, BaseSum(a), a) == 105.0
    ensures var b := Added(5, 5, 5);
            && Apply(NoPromotion, BaseSum(b), b) == 205.0
            && Apply(StrawberryDiscount, BaseSum(b), b) == 192.0
            && Apply(Over100Discount10(StrawberryDiscount), BaseSum(b), b) == 182.0
    ensures var c := Added(1, 1, 1);
            && Apply(Over100Discount10(StrawberryDiscount), BaseSum(c), c) == 38.4
            && BaseSum(c) - 2.6 < 100.0
  {
    var a := WithItem(WithItem(map[], Apple, 5), Strawberry, 5);
    assert a == map[Apple := 5, Strawberry := 5];
    assert Added(5, 5, 5) == map[Apple := 5, Strawberry := 5, Mango := 5];
    assert Added(1, 1, 1) == map[Apple := 1, Strawberry := 1, Mango := 1];
    BaseSumFormula(a);
    BaseSumFormula(Added(5, 5, 5));
    BaseSumFormula(Added(1, 1, 1));
  }

  /** A cart priced 101 whose strawberry discount brings it to 98.4 gets no deduction: the
      threshold sees the discounted price. Testing the original price would have given 88.4. */
  lemma ThresholdSeesDiscountedPrice()
    ensures var m := map[Apple := 11, Strawberry := 1];
            && BaseSum(m) == 101.0
            && Apply(StrawberryDiscount, BaseSum(m), m) == 98.4
            && Apply(Over100Discount10(StrawberryDiscount), BaseSum(m), m) == 98.4
  {
    var m := map[Apple := 11, Strawberry := 1];
    BaseSumFormula(m);
  }

  /** Adding one unit to a weight already at Java's largest `int` wraps it to the smallest. */
  lemma AddItemWrapsAround()
    ensures WithItem(map[Mango := MaxInt32], Mango, 1)[Mango] == MinInt32
  {
    Wrap32Overflow();
  }
}
