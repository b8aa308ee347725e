/** The deterministic payment provider: the card's last four digits choose the outcome, and a key it
    has answered before gets the same answer without a second charge. */
module PaymentMock {
  import opened Common
  import Checkout

  const DECLINE_SUFFIX: string := "0002"
  const TIMEOUT_SUFFIX: string := "0069"
  const ERROR_SUFFIX: string := "0119"

  function Without(s: string, c: char): (r: string)
    ensures c !in r
  {
    if s == [] then [] else if s[0] == c then Without(s[1..], c) else [s[0]] + Without(s[1..], c)
  }

  function Digits(card: string): string {
    Without(Without(card, ' '), '-')
  }

  function LastFour(digits: string): string {
    if |digits| <= 4 then digits else digits[|digits| - 4..]
  }

  /** The reference stands for a token derived from the order, different for different orders. */
  function Answer(card: string, order: nat): Checkout.PaymentResult {
    var last4 := LastFour(Digits(card));
    if last4 == DECLINE_SUFFIX then Checkout.PaymentResult(Checkout.Declines, None, Some("card declined"))
    else if last4 == TIMEOUT_SUFFIX then Checkout.PaymentResult(Checkout.Unknown, None, Some("provider timeout"))
    else if last4 == ERROR_SUFFIX then Checkout.PaymentResult(Checkout.Unknown, None, Some("provider error"))
    else Checkout.PaymentResult(Checkout.Succeeds, Some(order), None)
  }

  lemma {:induction false} WithoutAdds(s: string, t: string, c: char)
    ensures Without(s + t, c) == Without(s, c) + Without(t, c)
  {
    if s == [] {
      assert s + t == t;
    } else {
      WithoutAdds(s[1..], t, c);
      assert (s + t)[1..] == s[1..] + t;
    }
  }

  lemma {:induction false} WithoutOne(s: string, d: char, t: string, c: char)
    ensures Without(s + [d] + t, c) == Without(s, c) + (if d == c then [] else [d]) + Without(t, c)
  {
    WithoutAdds(s + [d], t, c);
    WithoutAdds(s, [d], c);
    assert [d][1..] == [];
  }

  lemma {:induction false} DigitsOnly(s: string, t: string, c: char)
    requires c == ' ' || c == '-'
    ensures Digits(s + [c] + t) == Digits(s + t)
  {
    hide Without;
    var a, b := Without(s, ' '), Without(t, ' ');
    WithoutOne(s, c, t, ' ');
    WithoutAdds(s, t, ' ');
    if c == '-' {
      WithoutOne(a, c, b, '-');
      WithoutAdds(a, b, '-');
      assert Without(a, '-') + [] == Without(a, '-');
    } else {
      assert a + [] == a;
    }
  }

  /** Grouping a card number with spaces or hyphens, anywhere, does not change the answer. */
  lemma {:induction false} SpacingIrrelevant(s: string, t: string, c: char, order: nat)
    requires c == ' ' || c == '-'
    ensures Answer(s + [c] + t, order) == Answer(s + t, order)
  {
    hide Digits;
    DigitsOnly(s, t, c);
  }

  /** `card` is `digits` with spaces and hyphens put in anywhere. */
  predicate Spells(card: string, digits: string) {
    if card == [] then digits == []
    else if card[0] == ' ' || card[0] == '-' then Spells(card[1..], digits)
    else digits != [] && digits[0] == card[0] && Spells(card[1..], digits[1..])
  }

  lemma {:induction false} SpelledDigits(card: string, digits: string)
    requires Spells(card, digits)
    ensures Digits(card) == digits
  {
    if card != [] {
      var first, rest := card[0], Without(card[1..], ' ');
      if first == ' ' || first == '-' {
        SpelledDigits(card[1..], digits);
      } else {
        SpelledDigits(card[1..], digits[1..]);
        assert Without(card, ' ') == [first] + rest;
        assert ([first] + rest)[1..] == rest;
        assert digits == [digits[0]] + digits[1..];
      }
      if first == '-' {
        assert Without(card, ' ') == [first] + rest;
        assert ([first] + rest)[1..] == rest;
      }
    }
  }

  /** Whatever the spacing, the last four digits decide: 0002 is declined, 0069 times out and 0119
      fails at the provider, neither of which says whether the charge went through, and every other
      card is charged, with a reference of its own for each order. */
  lemma {:induction false} LastFourDecide(card: string, front: string, last4: string, order: nat)
    requires Spells(card, front + last4) && |last4| == 4
    ensures var r := Answer(card, order);
            && (r.outcome == Checkout.Declines <==> last4 == "0002")
            && (r.outcome == Checkout.Unknown <==> last4 == "0069" || last4 == "0119")
            && (r.outcome == Checkout.Succeeds <==> r.reference == Some(order))
            && (r.outcome == Checkout.Succeeds <==> r.reference.Some?)
            && (r.outcome == Checkout.Succeeds <==> r.reason.None?)
            && (last4 == "0002" ==> r.reason == Some("card declined"))
            && (last4 == "0069" ==> r.reason == Some("provider timeout"))
            && (last4 == "0119" ==> r.reason == Some("provider error"))
  {
    hide Digits, Spells;
    SpelledDigits(card, front + last4);
    assert (front + last4)[|front + last4| - 4..] == last4;
    SuffixesDiffer();
  }

  lemma {:induction false} SuffixesDiffer()
    ensures DECLINE_SUFFIX != TIMEOUT_SUFFIX && DECLINE_SUFFIX != ERROR_SUFFIX && TIMEOUT_SUFFIX != ERROR_SUFFIX
  {
    assert DECLINE_SUFFIX[3] != TIMEOUT_SUFFIX[3] && DECLINE_SUFFIX[3] != ERROR_SUFFIX[3];
    assert TIMEOUT_SUFFIX[1] != ERROR_SUFFIX[1];
  }

  class MockPaymentProvider {
    var charged: seq<nat>
    var results: map<nat, Checkout.PaymentResult>

    /** Every key has been charged once, and is remembered with its answer. */
    predicate Valid()
      reads this
    {
      && (forall i, j :: 0 <= i < j < |charged| ==> charged[i] != charged[j])
      && (forall i :: 0 <= i < |charged| ==> charged[i] in results)
      && (forall o :: o in results ==> o in charged)
    }

    constructor ()
      ensures Valid() && charged == [] && results == map[]
    {
      charged, results := [], map[];
    }

    method Charge(card: string, order: nat) returns (r: Checkout.PaymentResult)
      requires Valid()
      modifies this
      ensures Valid() && order in results && results[order] == r
      ensures order in old(results) ==> charged == old(charged) && results == old(results)
      ensures order !in old(results) ==>
                r == Answer(card, order) && charged == old(charged) + [order] && results == old(results)[order := r]
    {
      if order in results {
        return results[order];
      }
      charged := charged + [order];
      r := Answer(card, order);
      results := results[order := r];
    }

    /** What reconciliation asks: there is an answer exactly for the orders that were charged. */
    method GetByKey(order: nat) returns (r: Option<Checkout.PaymentResult>)
      requires Valid()
      ensures r.Some? <==> order in charged
      ensures r.Some? ==> order in results && r.value == results[order]
    {
      r := if order in results then Some(results[order]) else None;
    }
  }
}
