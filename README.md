# Fruit checkout pricing, modelled in Dafny

A model of the pricing engine in `SupermarketFruits.java`: a price table of three fruit
kinds (apple 8, strawberry 13, mango 20 per unit of weight), a shopping cart that
accumulates an integer weight per kind and holds an optional promotion strategy, three
composable strategies (no promotion; strawberries at 80%; 10 off once the price after an
inner strategy reaches 100), and the checkout total that sums price times weight over
the cart and then applies the strategy.

Modules, one per part of the source:

- `JavaInt` — Java's 32-bit `int` (`Int32`) and the wrap-around of `int` addition (`Wrap32`).
- `Fruits` — the `Fruit` kinds as a closed datatype, `PricePerKg`, `CalculatePrice`,
  the cart contents `Items` (a `map` from kind to weight) and `WeightOf` (get-or-default 0).
- `Promotions` — the `Promotion` datatype (the decorator `Over100Discount10` holds its
  inner strategy) and `Apply`, the strategies' `applyPromotion`, with the lemmas about them.
- `Cart` — `WithItem` (the new contents after one `addItem`), `BaseSum` (the price before
  promotion) and the class `ShoppingCart` whose methods update its `items` and `strategy`
  fields in place; `CalculateTotal` is the source's loop over the entries.
- `Scenarios` — the demonstration's four customers as clients of `ShoppingCart`, and its
  five expected results.
- `Wrappers` — `Option`, standing for the nullable strategy reference.

The source checks neither the fruit kind nor the sign of a weight. The kinds here are a
closed set, each with a price, and `addItem` takes any `int` weight, negative ones
included, and adds it with Java's wrapping `int` addition.

## Model

| member | source | states |
|---|---|---|
| JavaInt.Wrap32 | src/main/java/SupermarketFruits.java:104 | the result of `int` addition is the 32-bit value congruent to the exact sum modulo 2^32, and is the exact sum when that fits |
| JavaInt.Wrap32Overflow | src/main/java/SupermarketFruits.java:104 | one past the largest `int` wraps to the smallest and one below the smallest to the largest |
| Fruits.PricePerKg | src/main/java/SupermarketFruits.java:29-45 | every unit price lies between 8 and 20, so none is zero or negative |
| Fruits.PriceTable | src/main/java/SupermarketFruits.java:29-45 | apple costs 8.0, strawberry 13.0, mango 20.0 per unit of weight |
| Fruits.CalculatePrice | src/main/java/SupermarketFruits.java:23-25 | dividing the price by the unit price gives back the weight |
| Fruits.CalculatePriceAdditive | src/main/java/SupermarketFruits.java:23-25 | the price is additive over a split of the weight (when the whole fits in an `int`) |
| Fruits.CalculatePriceMonotone | src/main/java/SupermarketFruits.java:23-25 | the price is 0 for no weight, non-negative for a non-negative weight, and grows with the weight for every pair of `int` weights |
| Fruits.WeightOf | src/main/java/SupermarketFruits.java:104 | the recorded weight of a kind with an entry, 0 for a kind without one (`getOrDefault(k, 0)`) |
| Fruits.Slice | src/main/java/SupermarketFruits.java:65-69 | the share of one kind in the price is the price of its weight, a kind without an entry counting as weight 0 |
| Promotions.Apply | src/main/java/SupermarketFruits.java:53-96 | the three `applyPromotion`: the innermost strategy gives the original price, less 2.6 per unit of strawberry for the strawberry discount, and each decorator around it lowers that by at least 0 and at most 10 |
| Promotions.NoPromotionIsIdentity | src/main/java/SupermarketFruits.java:53-58 | no promotion returns the original price for any cart |
| Promotions.StrawberryDiscountWithoutStrawberry | src/main/java/SupermarketFruits.java:65-75 | with no strawberry entry the strawberry discount returns the original price |
| Promotions.StrawberryDiscountFormula | src/main/java/SupermarketFruits.java:61-76 | the strawberry discount returns the original price minus the strawberry slice plus 80% of it, that is the original minus 2.6 per unit of strawberry, whatever the other entries |
| Promotions.Over100Discount10Rule | src/main/java/SupermarketFruits.java:88-95 | the decorator returns the inner price minus 10 exactly when the inner price is at least 100 (100 included), otherwise the inner price; so it lies between the inner price minus 10 and the inner price |
| Promotions.ThresholdAfterStrawberryDiscount | src/main/java/SupermarketFruits.java:88-91 | for the decorator around the strawberry discount the 100 threshold is tested on the discounted price, not on the original |
| Promotions.ApplyReadsOnlyStrawberry | src/main/java/SupermarketFruits.java:53-96 | every strategy, however deeply composed, depends on the cart only through the strawberry weight |
| Promotions.ThresholdReachedThroughLayers | src/main/java/SupermarketFruits.java:80-96 | for any level of at least 100, a chain of decorators reaches that level exactly when the innermost price reaches it plus 10 per decorator |
| Promotions.NeverRaisesPrice | src/main/java/SupermarketFruits.java:53-96 | when the strawberry weight is not negative, no strategy returns more than the original price |
| Promotions.NegativeStrawberryRaisesPrice | src/main/java/SupermarketFruits.java:66-75 | a negative strawberry weight makes the strawberry discount raise the price (by 13 for a weight of -5) |
| Cart.WithItem | src/main/java/SupermarketFruits.java:103-105 | after adding, the key set gains the kind, its weight is the old weight (0 if absent) plus the added weight modulo 2^32, exactly the sum when it fits, and every other entry is unchanged |
| Cart.BaseSum | src/main/java/SupermarketFruits.java:112-122 | the price before promotion is the apple, strawberry and mango shares added up |
| Cart.BaseSumFormula | src/main/java/SupermarketFruits.java:111-122 | the price before promotion is 8 times the apple weight plus 13 times the strawberry weight plus 20 times the mango weight, absent kinds counting 0 |
| Cart.BaseSumEmpty | src/main/java/SupermarketFruits.java:112 | an empty cart's price before promotion is 0 |
| Cart.BaseSumInsert | src/main/java/SupermarketFruits.java:115-118 | putting a new kind into the cart adds exactly that entry's price to the price before promotion, so the sum does not depend on the order of the entries |
| Cart.SumOverInsert | src/main/java/SupermarketFruits.java:115-118 | the same for the sum over any list of distinct kinds |
| Cart.BaseSumAfterAdd | src/main/java/SupermarketFruits.java:103-105 | adding a weight that does not overflow raises the price before promotion by the price of that weight |
| Cart.BaseSumNonNegative | src/main/java/SupermarketFruits.java:111-122 | a cart without negative weights has a non-negative price before promotion |
| Cart.BaseSumMonotone | src/main/java/SupermarketFruits.java:111-122 | raising any weight never lowers the price before promotion |
| Cart.ThresholdKeptWhenCartGrows | src/main/java/SupermarketFruits.java:88-95 | once the price of any inner strategy, nested decorators included, reaches 100 for a cart, any cart with at least as much of every kind also gets the 10 deduction |
| Cart.ShoppingCart.constructor | src/main/java/SupermarketFruits.java:99-101 | a new cart is empty and has no strategy |
| Cart.ShoppingCart.AddItem | src/main/java/SupermarketFruits.java:103-105 | the contents become those of `WithItem` on the old contents; the strategy is unchanged |
| Cart.ShoppingCart.SetPromotionStrategy | src/main/java/SupermarketFruits.java:107-109 | the strategy becomes the given one (possibly none); the contents are unchanged |
| Cart.ShoppingCart.CalculateTotal | src/main/java/SupermarketFruits.java:111-130 | the loop over the entries, in any order, yields the price before promotion; the result is that price with no strategy set and the strategy applied to it otherwise |
| Scenarios.CustomerA | src/main/java/SupermarketFruits.java:137-143 | apples and strawberries at no promotion cost 8 and 13 per unit |
| Scenarios.CustomerB | src/main/java/SupermarketFruits.java:146-153 | the three kinds at no promotion cost 8, 13 and 20 per unit |
| Scenarios.CustomerC | src/main/java/SupermarketFruits.java:156-163 | with the strawberry discount strawberries cost 10.4 per unit |
| Scenarios.CustomerD | src/main/java/SupermarketFruits.java:166-174 | with the chained strategy the discounted price loses 10 exactly when it is at least 100 |
| Scenarios.DemonstrationResults | src/main/java/SupermarketFruits.java:178-208 | on carts built by adding from empty, the five expected results hold exactly: 105, 205, 192, 182 and 38.4 (no deduction) |
| Scenarios.ThresholdSeesDiscountedPrice | src/main/java/SupermarketFruits.java:89-91 | a cart priced 101 that the strawberry discount brings to 98.4 gets no deduction |
| Scenarios.AddItemWrapsAround | src/main/java/SupermarketFruits.java:104 | adding 1 to a weight of 2147483647 stores -2147483648 |

## Left out

- Reflective instantiation of the fruit class and its catch-and-print path (lines 117-121): the kinds are a closed datatype with a total price function; for the three kinds the source defines, the no-argument constructors are public and the catch never runs.
- Fruit kinds beyond the three subclasses, and a `null` key passed to `addItem`: the source admits them through `Class<? extends Fruit>`, the model does not.
- A `null` inner strategy and strategies other than the three: `new Over100Discount10(null)` is accepted and its `applyPromotion` then throws a `NullPointerException` at line 89, and `PromotionStrategy` (lines 48-50) is an open interface; the `Promotion` datatype has exactly the three variants and every decorator holds an inner strategy.
- Display names (`getName` and the name strings): no part of pricing.
- Floating point: prices and totals are exact `real` numbers, not Java `double`; no rounding is modelled.
- The iteration order of `HashMap`: the loop takes the keys in an arbitrary order, and the total is proved the same for every order.
- Console output of `main` (lines 177-209): only its expected values are kept, as `DemonstrationResults`.
