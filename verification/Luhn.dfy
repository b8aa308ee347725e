/**
 The card-number checksum of ISO/IEC 7812-1, Annex B, and the duplicate-product check on a request.
 */
module Luhn {
  import opened Common
  import opened Ledger

  type Digit = d: int | 0 <= d < 10

  /** A digit's contribution; `doubled` at odd distance from the right end. */
  function Weight(d: Digit, doubled: bool): Digit {
    if !doubled then d else if 2 * d > 9 then 2 * d - 9 else 2 * d
  }

  function Sum(digits: seq<Digit>): nat {
    if digits == [] then 0 else Weight(digits[0], (|digits| - 1) % 2 == 1) + Sum(digits[1..])
  }

  predicate Accepted(digits: seq<Digit>) {
    Sum(digits) % 10 == 0
  }

  /** The checksum of Annex B read from the right, the last digit doubled or not: a doubled digit
      counts with the digits of its double. */
  function Contribution(digits: seq<Digit>, doubled: bool): nat {
    if digits == [] then 0
    else
      var d, init := digits[|digits| - 1], digits[..|digits| - 1];
      (if doubled then 2 * d / 10 + 2 * d % 10 else d) + Contribution(init, !doubled)
  }

  /** The same, reading the first digit. */
  lemma {:induction false} ContributionOfFirst(digits: seq<Digit>, doubled: bool)
    requires digits != []
    ensures var odd := (|digits| - 1) % 2 == 1;
            Contribution(digits, doubled) == Weight(digits[0], doubled != odd) + Contribution(digits[1..], doubled)
  {
    if |digits| > 1 {
      var init := digits[..|digits| - 1];
      ContributionOfFirst(init, !doubled);
      assert init[1..] == digits[1..][..|digits[1..]| - 1];
    }
  }

  lemma {:induction false} SumIsContribution(digits: seq<Digit>)
    ensures Sum(digits) == Contribution(digits, false)
  {
    if digits != [] {
      SumIsContribution(digits[1..]);
      ContributionOfFirst(digits, false);
    }
  }

  method LuhnOk(digits: seq<Digit>) returns (ok: bool)
    ensures ok <==> Accepted(digits)
    ensures ok <==> Contribution(digits, false) % 10 == 0
  {
    var total := 0;
    var n := |digits|;
    for index := 0 to n
      invariant total == Sum(digits[n - index..])
    {
      var value: int := digits[n - 1 - index];
      if index % 2 == 1 {
        value := value * 2;
        if value > 9 {
          value := value - 9;
        }
      }
      assert digits[n - 1 - index..][1..] == digits[n - index..];
      total := total + value;
    }
    assert digits[0..] == digits;
    SumIsContribution(digits);
    ok := total % 10 == 0;
  }

  function Doubled(digits: seq<Digit>, i: nat): bool
    requires i < |digits|
  {
    (|digits| - 1 - i) % 2 == 1
  }

  lemma {:induction false} SumChanged(digits: seq<Digit>, i: nat, d: Digit)
    requires i < |digits|
    ensures Sum(digits[i := d]) == Sum(digits) - Weight(digits[i], Doubled(digits, i)) + Weight(d, Doubled(digits, i))
  {
    var changed := digits[i := d];
    if i == 0 {
      assert changed[1..] == digits[1..];
    } else {
      SumChanged(digits[1..], i - 1, d);
      assert changed[1..] == digits[1..][i - 1 := d];
    }
  }

  lemma {:induction false} WeightsDiffer(a: Digit, b: Digit, doubled: bool)
    requires a != b
    ensures Weight(a, doubled) != Weight(b, doubled)
  {
  }

  lemma {:induction false} SmallChange(s: int, change: int)
    requires s % 10 == 0 && -10 < change < 10
    ensures (s + change) % 10 == 0 <==> change == 0
  {
  }

  /** Changing any one digit of an accepted number gives a rejected one. */
  lemma {:induction false} SingleDigitErrorDetected(digits: seq<Digit>, i: nat, d: Digit)
    requires i < |digits| && Accepted(digits) && d != digits[i]
    ensures !Accepted(digits[i := d])
  {
    hide Weight, Sum;
    SumChanged(digits, i, d);
    WeightsDiffer(digits[i], d, Doubled(digits, i));
    SmallChange(Sum(digits), Weight(d, Doubled(digits, i)) - Weight(digits[i], Doubled(digits, i)));
  }

  function Gap(d: Digit): int {
    Weight(d, true) - d
  }

  function Swapped(digits: seq<Digit>, i: nat): seq<Digit>
    requires i + 1 < |digits|
  {
    digits[i := digits[i + 1]][i + 1 := digits[i]]
  }

  lemma {:induction false} Alternates(digits: seq<Digit>, i: nat)
    requires i + 1 < |digits|
    ensures Doubled(digits, i + 1) == !Doubled(digits, i)
  {
  }

  lemma {:induction false} SumSwapped(digits: seq<Digit>, i: nat)
    requires i + 1 < |digits|
    ensures var change := Gap(digits[i + 1]) - Gap(digits[i]);
            Sum(Swapped(digits, i)) == Sum(digits) + if Doubled(digits, i) then change else -change
  {
    hide Sum;
    SumChanged(digits, i, digits[i + 1]);
    SumChanged(digits[i := digits[i + 1]], i + 1, digits[i]);
    Alternates(digits, i);
    assert Doubled(digits[i := digits[i + 1]], i + 1) == Doubled(digits, i + 1);
  }

  lemma {:induction false} ZeroAndNine(a: Digit, b: Digit)
    ensures {a, b} == {0, 9} <==> (a == 0 && b == 9) || (a == 9 && b == 0)
  {
  }

  /** Swapping two neighbouring digits of an accepted number goes unnoticed exactly when they are
      equal or are 0 and 9. */
  lemma {:induction false} AdjacentSwapDetected(digits: seq<Digit>, i: nat)
    requires i + 1 < |digits| && Accepted(digits)
    ensures Accepted(Swapped(digits, i)) <==> digits[i] == digits[i + 1] || {digits[i], digits[i + 1]} == {0, 9}
  {
    var change := Gap(digits[i + 1]) - Gap(digits[i]);
    SumSwapped(digits, i);
    SwapChange(digits[i + 1], digits[i]);
    SmallChange(Sum(digits), if Doubled(digits, i) then change else -change);
    ZeroAndNine(digits[i], digits[i + 1]);
  }

  lemma {:induction false} SwapChange(a: Digit, b: Digit)
    ensures -10 < Gap(a) - Gap(b) < 10
    ensures Gap(a) == Gap(b) <==> a == b || (a == 0 && b == 9) || (a == 9 && b == 0)
  {
  }

  lemma {:induction false} SumSnoc(digits: seq<Digit>, c: Digit)
    ensures Sum(digits + [c]) == Sum(digits + [0]) + c
  {
    SumChanged(digits + [0], |digits|, c);
    assert (digits + [0])[|digits| := c] == digits + [c];
  }

  /** Every prefix has exactly one check digit. */
  lemma {:induction false} OneCheckDigit(digits: seq<Digit>) returns (check: Digit)
    ensures forall c: Digit :: Accepted(digits + [c]) <==> c == check
  {
    var s := Sum(digits + [0]);
    check := (10 - s % 10) % 10;
    forall c: Digit ensures Accepted(digits + [c]) <==> c == check {
      SumSnoc(digits, c);
    }
  }

  /** Which check digit completes a prefix: the one that brings the prefix's own contribution, its last
      digit doubled, to a multiple of ten. */
  lemma {:induction false} CheckDigitCompletes(prefix: seq<Digit>, c: Digit)
    ensures Accepted(prefix + [c]) <==> (Contribution(prefix, true) + c) % 10 == 0
  {
    SumIsContribution(prefix + [c]);
    assert (prefix + [c])[..|prefix|] == prefix;
  }

  function Zeros(n: nat): (r: seq<Digit>)
    ensures |r| == n && forall i :: 0 <= i < n ==> r[i] == 0
  {
    seq(n, i => 0)
  }

  lemma {:induction false} ZerosSum(n: nat)
    ensures Sum(Zeros(n)) == 0
  {
    if n > 0 {
      ZerosSum(n - 1);
      assert Zeros(n)[1..] == Zeros(n - 1);
    }
  }

  /** A number of any length that is all zeros is accepted. */
  lemma {:induction false} ZerosAccepted(n: nat)
    ensures Accepted(Zeros(n))
  {
    ZerosSum(n);
  }

  // The digits of 2 * d, added up, by d.
  const DOUBLED: seq<int> := [0, 2, 4, 6, 8, 1, 3, 5, 7, 9]

  /** One digit d among zeros, and a check digit c: d counts doubled exactly at an odd distance from c. */
  lemma {:induction false} LoneDigit(n: nat, i: nat, d: Digit, c: Digit)
    requires i + 1 < n
    ensures Accepted(Zeros(n)[i := d][n - 1 := c]) <==>
            (c + if (n - 1 - i) % 2 == 1 then DOUBLED[d] else d) % 10 == 0
  {
    ZerosSum(n);
    SumChanged(Zeros(n), i, d);
    SumChanged(Zeros(n)[i := d], n - 1, c);
    assert !Doubled(Zeros(n)[i := d], n - 1);
  }

  /** `_no_duplicate_products`: accepts exactly the requests with distinct products, and otherwise
      names the first product that had been listed before. */
  method NoDuplicateProducts(items: seq<RequestedItem>) returns (r: Result<(), int>)
    ensures r.Ok? <==> DistinctProducts(items)
    ensures r.Err? ==> exists j :: 0 < j < |items| && items[j].product == r.error && DistinctProducts(items[..j]) &&
                         exists i :: 0 <= i < j && items[i].product == r.error
  {
    var seen: set<int> := {};
    for n := 0 to |items|
      invariant seen == set i | 0 <= i < n :: items[i].product
      invariant DistinctProducts(items[..n])
    {
      if items[n].product in seen {
        var i :| 0 <= i < n && items[i].product == items[n].product;
        return Err(items[n].product);
      }
      seen := seen + {items[n].product};
    }
    assert items[..|items|] == items;
    r := Ok(());
  }
}
