# Checkout kata pricing engine, in Dafny

This project models `Checkout`, the point-of-sale pricing engine of the
CheckoutKata repository. A checkout holds two things. The first is a table of
pricing rules that the checkout receives when it is built and never changes
itself (the source shares that table with the caller; see "Left out"). Each
SKU has a unit price and, optionally, an offer of the form "N items for a
fixed price". The second is a cart that records how many times each SKU has been scanned.
`Scan` adds one item to the cart. `GetTotalPrice` adds up each SKU's
subtotal, applying the SKU's offer once the scanned count reaches the offer
quantity.

Layout:

- `wrappers.dfy` (`Wrappers`): `Option`, `Result` and `Outcome`. These stand
  in for the C# null reference and for the exceptions the checkout throws.
- `pricing.dfy` (`Pricing`): `PricingRule`, which is `Flat(unit)` or
  `Bundled(unit, quantity, price)`. The module also holds the per-SKU
  `Subtotal` and its properties. `RuleOf` turns the source's configuration
  triple, whose two offer fields can each be null, into a rule.
- `cart.dfy` (`Cart`): the cart as a `map<string, nat>`. `Added` is the
  effect of one scan. `ScanAll` is the effect of a sequence of scans.
  `Total` sums the subtotals over the cart. The module also holds the lemmas
  about these functions.
- `checkout.dfy` (`CheckoutKata`): the class `Checkout`. Its pricing rules
  are a `const` field and its cart is a mutable `map` field. `Scan` modifies
  the object. `GetTotalPrice` loops over the cart's SKUs in an arbitrary
  order and accumulates a running total.
- `scenarios.dfy` (`CheckoutScenarios`): the example configuration from the
  test suite and the test baskets, written as client methods on `Checkout`.
  It also shows that the order of scans does not change the total.

Errors are values. `Scan` returns `Fail(NullItem)` for a null SKU and
`Fail(EmptyItem)` for an empty SKU, and leaves the cart as it was in both
cases. `GetTotalPrice` returns `Failure(PricingNotFound(sku))` for a scanned
SKU that has no rule. That result carries no total, partial or otherwise.
The two scan errors are both invalid-argument errors, but the code throws two different
exception types, `ArgumentNullException` and `ArgumentException`
(CheckoutKata/Checkout.cs:28, 31), so the model keeps them apart.

Prices are `nat`. A configuration triple whose offer quantity and offer
price are both present must have a quantity of at least 1 and a price that
is not negative (`RuleOf`'s precondition, and the `Positive` type of
`Bundled`'s quantity). The source never checks this: with both fields
present, a quantity of 0 divides by zero and a negative quantity can give a
negative bundle count (C# division truncates toward zero, so a count below
the quantity's magnitude still gets no bundle). A triple with only one offer field, such as
`(20, 0, null)` or `(20, -1, null)`, is priced by the unit, in the source
and in `RuleOf` alike.

## Model

| member | source | states |
|---|---|---|
| `Pricing.RuleOf` | CheckoutKata/Checkout.cs:51-54 | a configuration triple gives an offer exactly when both the offer quantity and the offer price are present; the unit price is kept |
| `Pricing.Subtotal` | CheckoutKata/Checkout.cs:54-62 | the price of one SKU's count: nothing for a count of 0, and at least the offer price once the count reaches the offer quantity; its closed form is pinned by the lemmas below |
| `Pricing.SubtotalOfConfiguration` | CheckoutKata/Checkout.cs:49-63 | the rule built from a triple prices a count as the source's branch on the nullable fields does: the bundle formula when both fields are present and the count reaches the quantity, count × unit price otherwise |
| `Pricing.SubtotalWithoutOffer` | CheckoutKata/Checkout.cs:62 | a SKU without an offer costs count × unit price, for every count |
| `Pricing.SubtotalBelowThreshold` | CheckoutKata/Checkout.cs:54-62 | below the offer quantity the offer never applies: count × unit price |
| `Pricing.SubtotalBundleFormula` | CheckoutKata/Checkout.cs:54-57 | under an offer (q, p), every count c costs (c div q) × p + (c mod q) × unit price, including counts below q, where the formula gives plain unit pricing |
| `Pricing.SubtotalIsGreedy` | CheckoutKata/Checkout.cs:53-63 | the closed-form subtotal equals an independent definition that takes one bundle at a time while a bundle's worth remains and charges the rest by the unit |
| `Pricing.SubtotalBundleStep` | CheckoutKata/Checkout.cs:57 | at or above the threshold, each complete bundle adds exactly the offer price |
| `Pricing.DiscountNeverOvercharges` | CheckoutKata/Checkout.cs:56-57 | when a bundle costs no more than its items one by one, the subtotal with the offer never exceeds count × unit price |
| `Cart.Added` | CheckoutKata/Checkout.cs:33-37 | one scan raises the SKU's count by one, or inserts it with count 1; the cart gains that key and no other, and every other count is unchanged |
| `Cart.ScanAll` | CheckoutKata/Checkout.cs:25-38 | the cart after a series of scans; scanning never removes a SKU |
| `Cart.Accepted` | CheckoutKata/Checkout.cs:27-31 | the SKUs that a series of scan inputs gets accepted, in order: null and empty inputs are dropped |
| `Cart.SumOf` | CheckoutKata/Checkout.cs:43-70 | the sum of the subtotals of a set of SKUs, the value the loop accumulates over the SKUs it has visited |
| `Cart.Total` | CheckoutKata/Checkout.cs:43-73 | the price of the whole cart, the sum of every SKU's subtotal; no SKU's subtotal exceeds it |
| `Cart.SumOfBounds` | CheckoutKata/Checkout.cs:57-62 | each SKU's subtotal is at most the sum it is part of, since subtotals are never negative |
| `Cart.SumOfRemove` | CheckoutKata/Checkout.cs:45-46 | the sum of subtotals does not depend on the order the SKUs are visited in: any SKU may be taken first |
| `Cart.SumOfInsert` | CheckoutKata/Checkout.cs:57-62 | adding one more SKU's subtotal to the running total gives the sum over the SKUs visited so far plus that SKU |
| `Cart.SumOfFrame` | CheckoutKata/Checkout.cs:46-63 | the sum over a set of SKUs depends only on those SKUs' counts |
| `Cart.TotalOfEmptyCart` | CheckoutKata/Checkout.cs:43-73 | an empty cart totals 0 |
| `Cart.TotalAfterAdded` | CheckoutKata/Checkout.cs:25-74 | one more scan of a priced SKU changes the total by exactly that SKU's subtotal at the new count minus its subtotal at the old count |
| `Cart.ScanAllCounts` | CheckoutKata/Checkout.cs:33-37 | after a sequence of scans, each SKU's count is its old count plus its number of occurrences, and the cart holds exactly the SKUs it held or scanned |
| `Cart.ScanAllAppend` | CheckoutKata/Checkout.cs:25-38 | scanning two batches one after the other is the same as scanning them as one batch |
| `Cart.ScanRepeated` | CheckoutKata/Checkout.cs:34-37 | scanning a SKU n ≥ 1 times raises its count by n |
| `Cart.AcceptedCounts` | CheckoutKata/Checkout.cs:27-37 | each well-formed SKU is accepted as often as it is offered, and the empty SKU never is |
| `Cart.AcceptedPermutation` | CheckoutKata/Checkout.cs:27-37 | offering the same inputs in any order accepts the same SKUs, up to order |
| `Cart.AcceptedRepeated` | CheckoutKata/Checkout.cs:27-37 | offering a well-formed SKU n times accepts it n times |
| `Cart.ScanOrderIrrelevant` | CheckoutKata/Checkout.cs:33-37 | sequences of scans with the same items, in any order, give the same cart |
| `CheckoutKata.Checkout.constructor` | CheckoutKata/Checkout.cs:16-22 | the checkout keeps the given rules and starts with an empty cart |
| `CheckoutKata.Checkout.Scan` | CheckoutKata/Checkout.cs:25-38 | a null SKU fails with NullItem and an empty one with EmptyItem, and both leave the cart unchanged; any other SKU succeeds, whether or not it has a rule, and the cart becomes `Added(old cart, sku)`; every SKU in the cart stays non-empty with a count of at least 1 |
| `CheckoutKata.Checkout.GetTotalPrice` | CheckoutKata/Checkout.cs:41-74 | succeeds exactly when every SKU in the cart has a rule, and then returns the sum of the subtotals; otherwise it fails naming a scanned SKU that has no rule, with no total; it changes nothing |
| `CheckoutScenarios.ExampleRules` | CheckoutKata.Tests/CheckoutTests.cs:12-22 | the test configuration: SKUs A to H, with the unit prices and offers of the test fixture |
| `CheckoutScenarios.ExampleOffersAreDiscounts` | CheckoutKata.Tests/CheckoutTests.cs:14-21 | every offer in the test configuration costs strictly less than its items one by one, so each is a discount in the sense `DiscountNeverOvercharges` needs |
| `CheckoutScenarios.ScanEach` | CheckoutKata/Checkout.cs:25-38 | offering a series of inputs, valid or not, to `Scan` leaves the cart at `ScanAll(old cart, Accepted(inputs))` |
| `CheckoutScenarios.ScanTimes` | CheckoutKata.Tests/CheckoutTests.cs:43-46 | scanning one SKU n times through the checkout raises its count by n |
| `CheckoutScenarios.ScanOrderDoesNotMatter` | CheckoutKata/Checkout.cs:41-74 | two checkouts with the same rules that are offered the same scan inputs, rejected ones included, in different orders agree on whether a total exists, and on its value when it does |
| `CheckoutScenarios.TotalOfFour` | CheckoutKata/Checkout.cs:43-73 | a cart of three or four distinct priced SKUs totals exactly the sum of their subtotals |
| `CheckoutScenarios.MixedBasketTotal` | CheckoutKata.Tests/CheckoutTests.cs:69-83 | 3 A, 2 B, 4 E and 2 H under the example rules cost 395 |
| `CheckoutScenarios.PlainBasketTotal` | CheckoutKata.Tests/CheckoutTests.cs:90-95 | C, D and G under the example rules cost 60 |
| `CheckoutScenarios.SingleItemWithoutOffer` | CheckoutKata.Tests/CheckoutTests.cs:30-36 | one scanned E costs 40 |
| `CheckoutScenarios.FourItemsWithOffer` | CheckoutKata.Tests/CheckoutTests.cs:40-49 | four scanned E cost 120 |
| `CheckoutScenarios.FiveItemsWithOffer` | CheckoutKata.Tests/CheckoutTests.cs:53-63 | five scanned F cost 40 |
| `CheckoutScenarios.MultipleItemsWithOffers` | CheckoutKata.Tests/CheckoutTests.cs:67-84 | scanning A×3, B×2, E×4 and H×2 through a checkout gives a total of 395 |
| `CheckoutScenarios.ItemsWithoutOffers` | CheckoutKata.Tests/CheckoutTests.cs:88-96 | scanning C, D and G through a checkout gives a total of 60 |
| `CheckoutScenarios.UnpricedItem` | CheckoutKata/Checkout.cs:65-69 | a well-formed SKU with no rule is accepted by `Scan`, and `GetTotalPrice` then fails naming it |
| `CheckoutScenarios.InvalidItems` | CheckoutKata/Checkout.cs:27-31 | null and empty SKUs are rejected with their own errors and leave the cart empty, so the total is 0 |

## Left out

- The `ICheckout` interface (CheckoutKata/Checkout.cs:4-8) declares the two operations and holds no logic.
- Exception types and message texts are left out. The model keeps only the error kind and, for a missing price, the offending SKU.
- C# `int` overflow in counts, subtotals and the running total is left out. Counts and prices are unbounded naturals.
- Negative unit prices, and complete offers with a quantity below 1 or a negative price, are excluded (`nat`, `RuleOf`'s precondition, `Positive`). The source does not check them. With both offer fields present, a quantity of 0 would divide by zero, and a negative quantity can give a negative bundle count once the count reaches its magnitude. Triples with only one offer field are accepted and priced by the unit, as in the source.
- A null rules dictionary is left out. The model's rules are always a map.
- The source keeps a reference to the caller's rules dictionary (CheckoutKata/Checkout.cs:19-21), so later changes the caller makes to it reach `GetTotalPrice`. The model copies the rules once, at construction, and does not capture that sharing.
- The key comparer of the caller's rules dictionary is left out. The source looks SKUs up with whatever comparer that dictionary carries (CheckoutKata/Checkout.cs:13, 19-21, 49) and keeps the cart under ordinal string equality (CheckoutKata/Checkout.cs:16). The model compares SKUs by exact string equality on both sides, so a case-insensitive rules dictionary, for example, is not captured.
- CheckoutKata.Checkout.GetTotalPrice: when several scanned SKUs lack a rule, the model names one of them, chosen arbitrarily. The choice can differ between two calls on an unchanged cart. The source names the first one its dictionary enumerates, which is the same on every call while the cart is unchanged. That order is a .NET `Dictionary` detail that the model does not fix.
- Concurrency and thread safety are left out. The code does not address them.
- The xUnit harness is left out. Its fixture and cases appear only as the scenario methods and lemmas above.
