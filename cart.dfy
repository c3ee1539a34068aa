/** The cart of scanned items and the total price it comes to. */
module Cart {
  import opened Wrappers
  import opened Pricing

  /** Scanned quantity per SKU. */
  type Items = map<string, nat>

  /** Pricing rule per SKU, as a checkout holds them. */
  type Rules = map<string, PricingRule>

  /** How many times `item` has been scanned; an absent SKU has count 0. */
  function Count(cart: Items, item: string): nat
  {
    if item in cart then cart[item] else 0
  }

  /** The cart after one more `item` is scanned: its count goes up by one,
      or it is inserted with count 1, and no other SKU changes. */
  function Added(cart: Items, item: string): (r: Items)
    ensures r.Keys == cart.Keys + {item}
    ensures r[item] == Count(cart, item) + 1
    ensures forall k :: k in cart && k != item ==> r[k] == cart[k]
  {
    if item in cart then cart[item := cart[item] + 1] else cart[item := 1]
  }

  /** The cart after scanning `items` in order, starting from `cart`.
      Scanning never removes a SKU. */
  function ScanAll(cart: Items, items: seq<string>): (r: Items)
    ensures cart.Keys <= r.Keys
    decreases |items|
  {
    if items == [] then cart else ScanAll(Added(cart, items[0]), items[1..])
  }

  /** The SKUs of a series of scan inputs (`None` standing for a null SKU)
      that scanning accepts, in order: the null and empty ones are dropped. */
  function Accepted(inputs: seq<Option<string>>): seq<string>
    decreases |inputs|
  {
    if inputs == [] then []
    else if inputs[0].Some? && inputs[0].value != "" then [inputs[0].value] + Accepted(inputs[1..])
    else Accepted(inputs[1..])
  }

  /** Every SKU in the cart has a pricing rule. */
  predicate AllPriced(cart: Items, rules: Rules)
  {
    cart.Keys <= rules.Keys
  }

  /** The sum of the subtotals of the SKUs in `keys`, taken in an
      unspecified order. */
  ghost function SumOf(cart: Items, rules: Rules, keys: set<string>): nat
    requires keys <= cart.Keys && keys <= rules.Keys
    decreases keys
  {
    if keys == {} then 0
    else
      var k :| k in keys;
      Subtotal(rules[k], cart[k]) + SumOf(cart, rules, keys - {k})
  }

  /** The price of the whole cart: the sum of every SKU's subtotal. */
  ghost function Total(cart: Items, rules: Rules): (r: nat)
    requires AllPriced(cart, rules)
    ensures forall k :: k in cart ==> Subtotal(rules[k], cart[k]) <= r
  {
    SumOfBounds(cart, rules, cart.Keys);
    SumOf(cart, rules, cart.Keys)
  }

  /** The order of summation is irrelevant: any SKU may be taken first. */
  lemma {:induction false} SumOfRemove(cart: Items, rules: Rules, keys: set<string>, k: string)
    requires keys <= cart.Keys && keys <= rules.Keys && k in keys
    ensures SumOf(cart, rules, keys) == Subtotal(rules[k], cart[k]) + SumOf(cart, rules, keys - {k})
    decreases keys
  {
    var j :| j in keys && SumOf(cart, rules, keys) == Subtotal(rules[j], cart[j]) + SumOf(cart, rules, keys - {j});
    if j != k {
      SumOfRemove(cart, rules, keys - {j}, k);
      SumOfRemove(cart, rules, keys - {k}, j);
      assert keys - {j} - {k} == keys - {k} - {j};
    }
  }

  /** No SKU's subtotal exceeds the sum it is part of. */
  lemma SumOfBounds(cart: Items, rules: Rules, keys: set<string>)
    requires keys <= cart.Keys && keys <= rules.Keys
    ensures forall k :: k in keys ==> Subtotal(rules[k], cart[k]) <= SumOf(cart, rules, keys)
  {
    forall k | k in keys ensures Subtotal(rules[k], cart[k]) <= SumOf(cart, rules, keys) {
      SumOfRemove(cart, rules, keys, k);
    }
  }

  /** Adding a SKU not yet summed adds its subtotal. */
  lemma SumOfInsert(cart: Items, rules: Rules, keys: set<string>, k: string)
    requires keys <= cart.Keys && keys <= rules.Keys && k in cart && k in rules && k !in keys
    ensures SumOf(cart, rules, keys + {k}) == SumOf(cart, rules, keys) + Subtotal(rules[k], cart[k])
  {
    SumOfRemove(cart, rules, keys + {k}, k);
    assert keys + {k} - {k} == keys;
  }

  /** The sum over `keys` depends only on the counts of those SKUs. */
  lemma {:induction false} SumOfFrame(cart: Items, cart': Items, rules: Rules, keys: set<string>)
    requires keys <= cart.Keys && keys <= cart'.Keys && keys <= rules.Keys
    requires forall k :: k in keys ==> cart[k] == cart'[k]
    ensures SumOf(cart, rules, keys) == SumOf(cart', rules, keys)
    decreases keys
  {
    if keys != {} {
      var k :| k in keys;
      SumOfRemove(cart, rules, keys, k);
      SumOfRemove(cart', rules, keys, k);
      SumOfFrame(cart, cart', rules, keys - {k});
    }
  }

  /** An empty cart costs nothing. */
  lemma TotalOfEmptyCart(rules: Rules)
    ensures Total(map[], rules) == 0
  {
  }

  /** One more scan of a priced SKU changes the total by exactly the
      difference between that SKU's subtotal at the new count and at the
      old one; the other SKUs' subtotals are untouched. */
  lemma TotalAfterAdded(cart: Items, rules: Rules, item: string)
    requires AllPriced(Added(cart, item), rules)
    ensures Total(Added(cart, item), rules) + Subtotal(rules[item], Count(cart, item))
         == Total(cart, rules) + Subtotal(rules[item], Count(cart, item) + 1)
  {
    var after := Added(cart, item);
    var others := cart.Keys - {item};
    SumOfRemove(after, rules, after.Keys, item);
    assert after.Keys - {item} == others;
    SumOfFrame(after, cart, rules, others);
    if item in cart {
      SumOfRemove(cart, rules, cart.Keys, item);
    } else {
      assert cart.Keys == others;
    }
  }

  /** Scanning a sequence adds each SKU's number of occurrences to its
      count, and the cart holds exactly the SKUs it held or scanned. */
  lemma {:induction false} ScanAllCounts(cart: Items, items: seq<string>)
    ensures forall k :: k in ScanAll(cart, items) <==> k in cart || k in items
    ensures forall k :: Count(ScanAll(cart, items), k) == Count(cart, k) + multiset(items)[k]
    decreases |items|
  {
    if items != [] {
      ScanAllCounts(Added(cart, items[0]), items[1..]);
      assert items == [items[0]] + items[1..];
      assert multiset(items) == multiset{items[0]} + multiset(items[1..]);
      forall k ensures k in items <==> k == items[0] || k in items[1..] {
        if k in items && k != items[0] {
          var i :| 0 <= i < |items| && items[i] == k;
          assert items[1..][i - 1] == k;
        }
      }
    }
  }

  /** Scanning two batches one after the other is scanning them as one. */
  lemma {:induction false} ScanAllAppend(cart: Items, items: seq<string>, items': seq<string>)
    ensures ScanAll(cart, items + items') == ScanAll(ScanAll(cart, items), items')
    decreases |items|
  {
    if items != [] {
      assert (items + items')[0] == items[0];
      assert (items + items')[1..] == items[1..] + items';
      ScanAllAppend(Added(cart, items[0]), items[1..], items');
    } else {
      assert items + items' == items';
    }
  }

  /** Scanning the same SKU `n` times raises its count by `n`. */
  lemma {:induction false} ScanRepeated(cart: Items, item: string, n: nat)
    requires n >= 1
    ensures ScanAll(cart, seq(n, _ => item)) == cart[item := Count(cart, item) + n]
    decreases n
  {
    var rest := seq(n - 1, _ => item);
    assert seq(n, _ => item) == [item] + rest;
    assert ([item] + rest)[1..] == rest;
    if n > 1 {
      ScanRepeated(Added(cart, item), item, n - 1);
      assert Added(cart, item)[item := Count(Added(cart, item), item) + n - 1]
          == cart[item := Count(cart, item) + n];
    }
  }

  /** Each accepted SKU occurs as often as it was offered; the empty SKU
      never does. */
  lemma {:induction false} AcceptedCounts(inputs: seq<Option<string>>)
    ensures multiset(Accepted(inputs))[""] == 0
    ensures forall k :: k != "" ==> multiset(Accepted(inputs))[k] == multiset(inputs)[Some(k)]
    decreases |inputs|
  {
    if inputs != [] {
      AcceptedCounts(inputs[1..]);
      assert inputs == [inputs[0]] + inputs[1..];
      assert multiset(inputs) == multiset{inputs[0]} + multiset(inputs[1..]);
    }
  }

  /** Offering the same inputs in any order accepts the same SKUs, up to
      order. */
  lemma AcceptedPermutation(inputs: seq<Option<string>>, inputs': seq<Option<string>>)
    requires multiset(inputs) == multiset(inputs')
    ensures multiset(Accepted(inputs)) == multiset(Accepted(inputs'))
  {
    AcceptedCounts(inputs);
    AcceptedCounts(inputs');
    forall k ensures multiset(Accepted(inputs))[k] == multiset(Accepted(inputs'))[k] {
      if k != "" {
        assert multiset(inputs)[Some(k)] == multiset(inputs')[Some(k)];
      }
    }
  }

  /** Offering a well-formed SKU `n` times accepts it `n` times. */
  lemma {:induction false} AcceptedRepeated(item: string, n: nat)
    requires item != ""
    ensures Accepted(seq(n, _ => Some(item))) == seq(n, _ => item)
    decreases n
  {
    if n > 0 {
      var rest := seq(n - 1, _ => Some(item));
      assert seq(n, _ => Some(item)) == [Some(item)] + rest;
      assert ([Some(item)] + rest)[1..] == rest;
      AcceptedRepeated(item, n - 1);
      assert seq(n, _ => item) == [item] + seq(n - 1, _ => item);
    }
  }

  /** Only the counts matter: scanning the same items in any order yields
      the same cart, and so the same total. */
  lemma ScanOrderIrrelevant(cart: Items, items: seq<string>, items': seq<string>)
    requires multiset(items) == multiset(items')
    ensures ScanAll(cart, items) == ScanAll(cart, items')
  {
    ScanAllCounts(cart, items);
    ScanAllCounts(cart, items');
    var a, b := ScanAll(cart, items), ScanAll(cart, items');
    forall k ensures k in a <==> k in b {
      assert k in items <==> k in multiset(items);
      assert k in items' <==> k in multiset(items');
    }
    forall k | k in a ensures a[k] == b[k] {
      assert Count(a, k) == Count(b, k);
    }
  }
}
