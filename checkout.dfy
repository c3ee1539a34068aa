/** The checkout: read-only pricing rules and a cart that scanning grows. */
module CheckoutKata {
  import opened Wrappers
  import opened Pricing
  import opened Cart

  /** Why a checkout operation failed. `NullItem` and `EmptyItem` are the
      two invalid-argument cases of scanning; `PricingNotFound` names a
      scanned SKU that has no pricing rule. */
  datatype Error =
    | NullItem
    | EmptyItem
    | PricingNotFound(item: string)

  class Checkout {
    /** The pricing rules, copied at construction; the checkout never changes them. */
    const rules: Rules
    /** How many times each SKU has been scanned. */
    var items: Items

    /** Every SKU in the cart is a non-empty string scanned at least once.
        This records the invariant that construction establishes and
        `Scan` keeps; no operation needs it to run correctly. */
    ghost predicate Valid()
      reads this
    {
      forall k :: k in items ==> k != "" && items[k] >= 1
    }

    /** A checkout with the given rules and an empty cart. */
    constructor (rules: Rules)
      ensures this.rules == rules && items == map[] && Valid()
    {
      this.rules := rules;
      items := map[];
    }

    /** Adds one `item` (`None` standing for a null SKU) to the cart. A null
        or empty SKU is rejected and leaves the cart as it was; any other
        SKU is accepted whether or not it has a pricing rule. */
    method Scan(item: Option<string>) returns (o: Outcome<Error>)
      requires Valid()
      modifies this
      ensures Valid()
      ensures item == None ==> o == Fail(NullItem)
      ensures item == Some("") ==> o == Fail(EmptyItem)
      ensures o.Pass? <==> item.Some? && item.value != ""
      ensures items == if o.Pass? then Added(old(items), item.value) else old(items)
    {
      if item == None {
        return Fail(NullItem);
      }
      if item.value == "" {
        return Fail(EmptyItem);
      }
      items := Added(items, item.value);
      return Pass;
    }

    /** The price of everything scanned so far, bundles applied; fails
        naming a scanned SKU without a pricing rule, in which case no
        total is produced. The SKUs are visited in an arbitrary order. */
    method GetTotalPrice() returns (r: Result<nat, Error>)
      ensures r.Success? <==> AllPriced(items, rules)
      ensures r.Success? ==> r.value == Total(items, rules)
      ensures r.Failure? ==> r.error.PricingNotFound? && r.error.item in items && r.error.item !in rules
    {
      var total := 0;
      var pending := items.Keys;
      ghost var done: set<string> := {};
      while pending != {}
        invariant pending + done == items.Keys && pending !! done
        invariant done <= rules.Keys
        invariant total == SumOf(items, rules, done)
        decreases pending
      {
        var item :| item in pending;
        if item !in rules {
          return Failure(PricingNotFound(item));
        }
        SumOfInsert(items, rules, done, item);
        total := total + Subtotal(rules[item], items[item]);
        pending := pending - {item};
        done := done + {item};
      }
      return Success(total);
    }
  }
}
