/** What a basket costs, on the products and the items alone. */
module Pricing {
  import opened Common
  import opened Ledger
  import opened Selection
  import opened Checkout

  predicate Known(products: map<int, Product>, items: seq<RequestedItem>) {
    forall i :: 0 <= i < |items| ==> items[i].product in products
  }

  /** The total the order is placed with. */
  function Worth(products: map<int, Product>, items: seq<RequestedItem>): int
    requires Known(products, items)
  {
    LinesTotal(Lines(products, items))
  }

  function Price(products: map<int, Product>, item: RequestedItem): int
    requires item.product in products
  {
    products[item.product].unitPrice
  }

  lemma {:induction false} WorthSnoc(products: map<int, Product>, items: seq<RequestedItem>, item: RequestedItem)
    requires Known(products, items) && item.product in products
    ensures Known(products, items + [item])
    ensures Worth(products, items + [item]) == Worth(products, items) + Worth(products, [item])
  {
    var lines, one := Lines(products, items + [item]), Lines(products, [item]);
    assert lines[..|lines| - 1] == Lines(products, items);
    assert one[..|one| - 1] == [] && one[0] == lines[|items|];
    assert LinesTotal(one[..|one| - 1]) == 0;
  }

  /** A basket of one item costs the product's price times the quantity. */
  lemma {:induction false} OneItemWorth(products: map<int, Product>, item: RequestedItem)
    requires item.product in products
    ensures Worth(products, [item]) == products[item.product].unitPrice * item.quantity
  {
    var one := Lines(products, [item]);
    assert one[..|one| - 1] == [];
    assert LinesTotal(one[..|one| - 1]) == 0;
  }

  /** Two baskets together cost what they cost apart. */
  lemma {:induction false} JoinedWorth(products: map<int, Product>, a: seq<RequestedItem>, b: seq<RequestedItem>)
    requires Known(products, a) && Known(products, b)
    ensures Known(products, a + b) && Worth(products, a + b) == Worth(products, a) + Worth(products, b)
  {
    if b == [] {
      assert a + b == a;
    } else {
      var n := |b| - 1;
      JoinedWorth(products, a, b[..n]);
      assert a + b == a + b[..n] + [b[n]] && b == b[..n] + [b[n]];
      WorthSnoc(products, a + b[..n], b[n]);
      WorthSnoc(products, b[..n], b[n]);
    }
  }

  lemma {:induction false} WorthWithout(products: map<int, Product>, items: seq<RequestedItem>, j: nat)
    requires Known(products, items) && j < |items|
    ensures Known(products, items[..j] + items[j + 1..])
    ensures Worth(products, items) == Worth(products, items[..j] + items[j + 1..]) + Worth(products, [items[j]])
  {
    var front, back := items[..j], items[j + 1..];
    JoinedWorth(products, front, back);
    WorthSnoc(products, front, items[j]);
    JoinedWorth(products, front + [items[j]], back);
    assert items == front + [items[j]] + back;
  }

  /** The order in which the items are listed does not matter. */
  lemma {:induction false} PermutedWorth(products: map<int, Product>, a: seq<RequestedItem>, b: seq<RequestedItem>)
    requires Known(products, a) && Known(products, b) && multiset(a) == multiset(b)
    ensures Worth(products, a) == Worth(products, b)
  {
    if a == [] {
      assert |multiset(b)| == 0;
    } else {
      var n := |a| - 1;
      var j := MatchLast(a, b);
      WorthWithout(products, b, j);
      WorthWithout(products, a, n);
      assert a[..n] + a[n + 1..] == a[..n];
      PermutedWorth(products, a[..n], b[..j] + b[j + 1..]);
    }
  }

  /** One more unit of an item costs exactly that product's price. */
  lemma {:induction false} OneMoreUnit(products: map<int, Product>, items: seq<RequestedItem>, i: nat)
    requires Known(products, items) && i < |items|
    ensures var more: RequestedItem := Item(items[i].product, items[i].quantity + 1);
            && Known(products, items[i := more])
            && Worth(products, items[i := more]) == Worth(products, items) + products[items[i].product].unitPrice
  {
    var more: RequestedItem := Item(items[i].product, items[i].quantity + 1);
    var larger := items[i := more];
    WorthWithout(products, items, i);
    WorthWithout(products, larger, i);
    assert larger[..i] == items[..i] && larger[i + 1..] == items[i + 1..];
    OneItemWorth(products, items[i]);
    OneItemWorth(products, more);
    Distributes(products[items[i].product].unitPrice, items[i].quantity);
  }

  lemma {:induction false} Distributes(price: int, quantity: int)
    ensures price * (quantity + 1) == price * quantity + price
  {
  }

  lemma {:induction false} PositiveTimes(price: nat, quantity: int)
    requires quantity > 0
    ensures price * quantity >= 0 && (price * quantity > 0 <==> price > 0)
  {
  }

  /** No basket costs less than nothing, and one costs nothing exactly when everything in it is free. */
  lemma {:induction false} WorthPositiveIff(products: map<int, Product>, items: seq<RequestedItem>)
    requires Known(products, items)
    ensures Worth(products, items) >= 0
    ensures Worth(products, items) > 0 <==> exists i :: 0 <= i < |items| && Price(products, items[i]) > 0
  {
    if items == [] {
      assert Lines(products, items) == [];
    } else {
      var n := |items| - 1;
      WorthPositiveIff(products, items[..n]);
      WorthSnoc(products, items[..n], items[n]);
      assert items == items[..n] + [items[n]];
      OneItemWorth(products, items[n]);
      PositiveTimes(products[items[n].product].unitPrice, items[n].quantity);
      if i :| 0 <= i < n && Price(products, items[..n][i]) > 0 {
        assert Price(products, items[i]) > 0;
      }
      if i :| 0 <= i < |items| && Price(products, items[i]) > 0 {
        if i < n { assert Price(products, items[..n][i]) > 0; }
      }
    }
  }

  predicate SameCurrency(products: map<int, Product>, items: seq<RequestedItem>)
    requires Known(products, items)
  {
    forall i, j :: 0 <= i < j < |items| ==> products[items[i].product].currency == products[items[j].product].currency
  }

  /** The source counts the currencies; the count is at most one exactly when all items agree. */
  lemma {:induction false} CountIsOneIff(products: map<int, Product>, items: seq<RequestedItem>)
    requires Known(products, items)
    ensures |Currencies(products, items)| <= 1 <==> SameCurrency(products, items)
  {
    var cs := Currencies(products, items);
    if |cs| <= 1 {
      forall i, j | 0 <= i < j < |items|
        ensures products[items[i].product].currency == products[items[j].product].currency
      {
        var a, b := products[items[i].product].currency, products[items[j].product].currency;
        assert a in cs && b in cs;
        if a != b { SubsetSize({a, b}, cs); }
      }
    } else {
      var a :| a in cs;
      assert |cs - {a}| == |cs| - 1;
      assert cs - {a} != {};
      var b :| b in cs - {a};
      var i :| 0 <= i < |items| && products[items[i].product].currency == a;
      var j :| 0 <= j < |items| && products[items[j].product].currency == b;
    }
  }
}
