/** The checkout's example configuration and the baskets priced with it. */
module CheckoutScenarios {
  import opened Wrappers
  import opened Pricing
  import opened Cart
  import opened CheckoutKata

  /** Eight SKUs, A to H, five of them with a bundle offer. */
  function ExampleRules(): (r: Rules)
    ensures r.Keys == {"A", "B", "C", "D", "E", "F", "G", "H"}
  {
    map[
      "A" := RuleOf(50, Some(3), Some(130)),
      "B" := RuleOf(30, Some(2), Some(45)),
      "C" := RuleOf(20, None, None),
      "D" := RuleOf(15, None, None),
      "E" := RuleOf(40, Some(4), Some(120)),
      "F" := RuleOf(10, Some(5), Some(40)),
      "G" := RuleOf(25, None, None),
      "H" := RuleOf(60, Some(2), Some(100))
    ]
  }

  /** Every offer of the example configuration is a real discount: a
      bundle costs strictly less than its items at the unit price, so by
      `DiscountNeverOvercharges` no basket costs more than at unit prices. */
  lemma ExampleOffersAreDiscounts(item: string)
    requires item in ExampleRules()
    ensures IsDiscount(ExampleRules()[item])
    ensures ExampleRules()[item].Bundled? ==>
              ExampleRules()[item].price < ExampleRules()[item].quantity * ExampleRules()[item].unit
  {
  }

  /** The total of a basket of one SKU under the example rules. */
  lemma SingleSkuTotal(item: string, count: nat)
    requires item in ExampleRules()
    ensures Total(map[item := count], ExampleRules()) == Subtotal(ExampleRules()[item], count)
  {
    var cart := map[item := count];
    assert SumOf(cart, ExampleRules(), {}) == 0;
    SumOfInsert(cart, ExampleRules(), {}, item);
    assert cart.Keys == {} + {item};
  }

  /** A cart of three or four distinct priced SKUs totals the sum of their
      subtotals. */
  lemma TotalOfFour(cart: Items, rules: Rules, a: string, b: string, e: string, h: string)
    requires cart.Keys == {a, b, e, h} && cart.Keys <= rules.Keys
    requires a != b && a != e && b != e && h != a && h != b
    ensures AllPriced(cart, rules)
    ensures Total(cart, rules) == Subtotal(rules[a], cart[a]) + Subtotal(rules[b], cart[b])
                                + Subtotal(rules[e], cart[e])
                                + (if h == e then 0 else Subtotal(rules[h], cart[h]))
  {
    assert SumOf(cart, rules, {}) == 0;
    SumOfInsert(cart, rules, {}, a);
    assert {} + {a} == {a};
    SumOfInsert(cart, rules, {a}, b);
    assert {a} + {b} == {a, b};
    SumOfInsert(cart, rules, {a, b}, e);
    assert {a, b} + {e} == {a, b, e};
    if h != e {
      SumOfInsert(cart, rules, {a, b, e}, h);
      assert cart.Keys == {a, b, e} + {h};
    } else {
      assert cart.Keys == {a, b, e};
    }
  }

  /** 3 A, 2 B, 4 E and 2 H cost 130 + 45 + 120 + 100. */
  lemma MixedBasketTotal(cart: Items)
    requires cart == map["A" := 3, "B" := 2, "E" := 4, "H" := 2]
    ensures AllPriced(cart, ExampleRules()) && Total(cart, ExampleRules()) == 395
  {
    var rules := ExampleRules();
    assert Subtotal(rules["A"], 3) == 130 && Subtotal(rules["B"], 2) == 45;
    assert Subtotal(rules["E"], 4) == 120 && Subtotal(rules["H"], 2) == 100;
    TotalOfFour(cart, rules, "A", "B", "E", "H");
  }

  /** C, D and G cost 20 + 15 + 25. */
  lemma PlainBasketTotal(cart: Items)
    requires cart == map["C" := 1, "D" := 1, "G" := 1]
    ensures AllPriced(cart, ExampleRules()) && Total(cart, ExampleRules()) == 60
  {
    var rules := ExampleRules();
    assert Subtotal(rules["C"], 1) == 20 && Subtotal(rules["D"], 1) == 15;
    assert Subtotal(rules["G"], 1) == 25;
    TotalOfFour(cart, rules, "C", "D", "G", "G");
  }

  /** Offers `inputs` to `c.Scan` one after another (`None` standing for a
      null SKU); the rejected ones leave the cart alone. */
  method ScanEach(c: Checkout, inputs: seq<Option<string>>)
    requires c.Valid()
    modifies c
    ensures c.Valid() && c.items == ScanAll(old(c.items), Accepted(inputs))
  {
    for i := 0 to |inputs|
      invariant c.Valid()
      invariant ScanAll(c.items, Accepted(inputs[i..])) == ScanAll(old(c.items), Accepted(inputs))
    {
      assert inputs[i..][0] == inputs[i] && inputs[i..][1..] == inputs[i + 1..];
      var o := c.Scan(inputs[i]);
    }
  }

  /** Scans `item` on `c` `n` times in a row. */
  method ScanTimes(c: Checkout, item: string, n: nat)
    requires c.Valid() && item != "" && n >= 1
    modifies c
    ensures c.Valid() && c.items == old(c.items)[item := Count(old(c.items), item) + n]
  {
    ScanEach(c, seq(n, _ => Some(item)));
    AcceptedRepeated(item, n);
    ScanRepeated(old(c.items), item, n);
  }

  /** Two checkouts with the same rules that are offered the same scan
      inputs, valid or not, in different orders agree on whether a total
      exists and on its value. */
  method ScanOrderDoesNotMatter(rules: Rules, inputs: seq<Option<string>>, inputs': seq<Option<string>>)
    returns (r: Result<nat, Error>, r': Result<nat, Error>)
    requires multiset(inputs) == multiset(inputs')
    ensures r.Success? <==> r'.Success?
    ensures r.Success? ==> r == r'
  {
    var c := new Checkout(rules);
    ScanEach(c, inputs);
    var c' := new Checkout(rules);
    ScanEach(c', inputs');
    AcceptedPermutation(inputs, inputs');
    ScanOrderIrrelevant(map[], Accepted(inputs), Accepted(inputs'));
    r := c.GetTotalPrice();
    r' := c'.GetTotalPrice();
  }

  /** One E, below its 4-for-120 threshold, costs its unit price. */
  method SingleItemWithoutOffer() returns (r: Result<nat, Error>)
    ensures r == Success(40)
  {
    var c := new Checkout(ExampleRules());
    var o := c.Scan(Some("E"));
    assert c.items == map["E" := 1];
    SingleSkuTotal("E", 1);
    assert ExampleRules()["E"] == Bundled(40, 4, 120);
    r := c.GetTotalPrice();
  }

  /** Four Es make one 4-for-120 bundle. */
  method FourItemsWithOffer() returns (r: Result<nat, Error>)
    ensures r == Success(120)
  {
    var c := new Checkout(ExampleRules());
    ScanTimes(c, "E", 4);
    SingleSkuTotal("E", 4);
    assert ExampleRules()["E"] == Bundled(40, 4, 120);
    r := c.GetTotalPrice();
  }

  /** Five Fs make one 5-for-40 bundle. */
  method FiveItemsWithOffer() returns (r: Result<nat, Error>)
    ensures r == Success(40)
  {
    var c := new Checkout(ExampleRules());
    ScanTimes(c, "F", 5);
    SingleSkuTotal("F", 5);
    assert ExampleRules()["F"] == Bundled(10, 5, 40);
    r := c.GetTotalPrice();
  }

  /** 3 A, 2 B, 4 E and 2 H: one bundle of each, 130 + 45 + 120 + 100. */
  method MultipleItemsWithOffers() returns (r: Result<nat, Error>)
    ensures r == Success(395)
  {
    var c := new Checkout(ExampleRules());
    ScanTimes(c, "A", 3);
    ScanTimes(c, "B", 2);
    ScanTimes(c, "E", 4);
    ScanTimes(c, "H", 2);
    MixedBasketTotal(c.items);
    r := c.GetTotalPrice();
  }

  /** C, D and G have no offers: 20 + 15 + 25. */
  method ItemsWithoutOffers() returns (r: Result<nat, Error>)
    ensures r == Success(60)
  {
    var c := new Checkout(ExampleRules());
    var o := c.Scan(Some("C"));
    o := c.Scan(Some("D"));
    o := c.Scan(Some("G"));
    assert c.items == map["C" := 1, "D" := 1, "G" := 1];
    PlainBasketTotal(c.items);
    r := c.GetTotalPrice();
  }

  /** A well-formed SKU without a rule is accepted by scanning and only
      rejected when the total is asked for. */
  method UnpricedItem() returns (o: Outcome<Error>, r: Result<nat, Error>)
    ensures o == Pass
    ensures r == Failure(PricingNotFound("Z"))
  {
    var c := new Checkout(ExampleRules());
    o := c.Scan(Some("Z"));
    r := c.GetTotalPrice();
  }

  /** Null and empty SKUs are rejected and leave the cart empty, so the
      total is still 0. */
  method InvalidItems() returns (o: Outcome<Error>, o': Outcome<Error>, r: Result<nat, Error>)
    ensures o == Fail(NullItem) && o' == Fail(EmptyItem)
    ensures r == Success(0)
  {
    var c := new Checkout(ExampleRules());
    o := c.Scan(None);
    o' := c.Scan(Some(""));
    r := c.GetTotalPrice();
  }
}
