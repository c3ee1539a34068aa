/** Pricing rules and the price of one SKU's scanned quantity. */
module Pricing {
  import opened Wrappers

  /** An offer quantity: a bundle of zero items would divide by zero. */
  type Positive = q: nat | q >= 1 witness 1

  /** The rule for one SKU: a unit price, optionally with an offer
      "every `quantity` items cost `price`". */
  datatype PricingRule =
    | Flat(unit: nat)
    | Bundled(unit: nat, quantity: Positive, price: nat)

  /** The rule described by the checkout's configuration triple
      (unit price, nullable offer quantity, nullable offer price):
      an offer exists only when both of its parts are present. A triple
      with only one of them is priced by the unit, whatever that one
      holds; a complete offer must have a quantity of at least 1 and a
      price that is not negative. */
  function RuleOf(unit: nat, quantity: Option<int>, price: Option<int>): (r: PricingRule)
    requires quantity.Some? && price.Some? ==> quantity.value >= 1 && price.value >= 0
    ensures r.unit == unit
    ensures r.Bundled? <==> quantity.Some? && price.Some?
    ensures r.Bundled? ==> r.quantity == quantity.value && r.price == price.value
  {
    if quantity.Some? && price.Some? then Bundled(unit, quantity.value, price.value)
    else Flat(unit)
  }

  /** What `count` scanned items of a SKU priced by `rule` cost: whole
      bundles at the offer price and the rest at the unit price once the
      count reaches the offer quantity, the unit price otherwise. */
  function Subtotal(rule: PricingRule, count: nat): (r: nat)
    ensures count == 0 ==> r == 0
    ensures rule.Bundled? && count >= rule.quantity ==> r >= rule.price
  {
    match rule
    case Flat(unit) => count * unit
    case Bundled(unit, quantity, price) =>
      if count >= quantity then (count / quantity) * price + (count % quantity) * unit
      else count * unit
  }

  /** An independent reading of an offer: take one bundle at a time while
      at least a bundle's worth of items remains, and charge the remaining
      items one by one. */
  function GreedySubtotal(rule: PricingRule, count: nat): nat
    decreases count
  {
    match rule
    case Flat(unit) => count * unit
    case Bundled(unit, quantity, price) =>
      if count >= quantity then price + GreedySubtotal(rule, count - quantity)
      else count * unit
  }

  /** The offer is a discount: a bundle costs no more than its items
      bought one by one. */
  predicate IsDiscount(rule: PricingRule)
  {
    rule.Bundled? ==> rule.price <= rule.quantity * rule.unit
  }

  /** Floor division and remainder are determined by their defining
      equation. */
  lemma DivModUnique(n: nat, d: Positive, q: nat, m: nat)
    requires n == d * q + m && m < d
    ensures n / d == q && n % d == m
  {
    var q', m' := n / d, n % d;
    assert n == d * q' + m' && 0 <= m' < d;
    if q' < q {
      MulGap(d, q', q);
      assert false;
    } else if q' > q {
      MulGap(d, q, q');
      assert false;
    }
  }

  /** Multiples of `d` below and above a gap differ by at least `d`. */
  lemma MulGap(d: nat, a: nat, b: nat)
    requires a < b
    ensures d * a + d <= d * b
  {
    var k := b - a - 1;
    assert d * b == d * a + d + d * k;
  }

  /** Removing one bundle's worth of items lowers the quotient by one and
      keeps the remainder. */
  lemma DivModStep(n: nat, d: Positive)
    requires n >= d
    ensures n / d == (n - d) / d + 1 && n % d == (n - d) % d
  {
    var q, m := (n - d) / d, (n - d) % d;
    assert n - d == d * q + m;
    assert n == d * (q + 1) + m;
    DivModUnique(n, d, q + 1, m);
  }

  /** Plain unit pricing applies to a SKU without an offer, for every
      count. */
  lemma SubtotalWithoutOffer(unit: nat, count: nat)
    ensures Subtotal(Flat(unit), count) == count * unit
  {
  }

  /** Plain unit pricing applies below an offer's threshold. */
  lemma SubtotalBelowThreshold(rule: PricingRule, count: nat)
    requires rule.Bundled? && count < rule.quantity
    ensures Subtotal(rule, count) == count * rule.unit
  {
  }

  /** The bundle formula holds for every count under an offer: below the
      threshold it yields plain unit pricing, so the threshold test only
      chooses between two expressions of the same value. */
  lemma SubtotalBundleFormula(rule: PricingRule, count: nat)
    requires rule.Bundled?
    ensures Subtotal(rule, count)
         == (count / rule.quantity) * rule.price + (count % rule.quantity) * rule.unit
  {
    if count < rule.quantity {
      DivModUnique(count, rule.quantity, 0, count);
    }
  }

  /** The closed form agrees with taking one bundle at a time. */
  lemma {:induction false} SubtotalIsGreedy(rule: PricingRule, count: nat)
    ensures Subtotal(rule, count) == GreedySubtotal(rule, count)
    decreases count
  {
    match rule
    case Flat(_) =>
    case Bundled(unit, quantity, price) =>
      if count >= quantity {
        SubtotalIsGreedy(rule, count - quantity);
        SubtotalBundleFormula(rule, count - quantity);
        DivModStep(count, quantity);
        var q := (count - quantity) / quantity;
        assert (q + 1) * price == price + q * price;
      }
  }

  /** Each complete bundle adds exactly the offer price. */
  lemma SubtotalBundleStep(rule: PricingRule, count: nat)
    requires rule.Bundled? && count >= rule.quantity
    ensures Subtotal(rule, count) == rule.price + Subtotal(rule, count - rule.quantity)
  {
    SubtotalIsGreedy(rule, count);
    SubtotalIsGreedy(rule, count - rule.quantity);
  }

  /** When the offer is a discount, applying it never costs more than
      plain unit pricing. */
  lemma {:induction false} DiscountNeverOvercharges(rule: PricingRule, count: nat)
    requires IsDiscount(rule)
    ensures Subtotal(rule, count) <= count * rule.unit
    decreases count
  {
    if rule.Bundled? && count >= rule.quantity {
      SubtotalBundleStep(rule, count);
      DiscountNeverOvercharges(rule, count - rule.quantity);
      assert rule.quantity * rule.unit + (count - rule.quantity) * rule.unit == count * rule.unit;
    }
  }

  /** The rule built from a configuration triple prices a count exactly as
      the checkout's branch on the nullable offer fields does. */
  lemma SubtotalOfConfiguration(unit: nat, quantity: Option<int>, price: Option<int>, count: nat)
    requires quantity.Some? && price.Some? ==> quantity.value >= 1 && price.value >= 0
    ensures Subtotal(RuleOf(unit, quantity, price), count)
         == if quantity.Some? && price.Some? && count >= quantity.value
            then (count / quantity.value) * price.value + (count % quantity.value) * unit
            else count * unit
  {
  }
}
