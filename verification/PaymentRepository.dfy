/** The payments table. */
module PaymentRepository {
  import opened Common
  import Checkout

  class Repository {
    var payments: seq<Checkout.Payment>

    constructor ()
      ensures payments == []
    {
      payments := [];
    }

    /** `CHECK (amount_minor > 0)` refuses a payment of nothing. */
    method CreatePending(order: nat, amount: int, currency: int) returns (id: Option<nat>)
      modifies this
      ensures id == if amount > 0 then Some(|old(payments)|) else None
      ensures payments == if amount > 0
            then old(payments) + [Checkout.Payment(order, Checkout.PaymentPending, amount, currency, None, None)]
                          else old(payments)
    {
      if amount <= 0 {
        return None;
      }
      id := Some(|payments|);
      payments := payments + [Checkout.Payment(order, Checkout.PaymentPending, amount, currency, None, None)];
    }

    method MarkSucceeded(id: nat, reference: Option<int>)
      modifies this
      ensures payments == Checkout.CompletePayment(old(payments), id, reference)
    {
      if id < |payments| {
        payments := payments[id := payments[id].(status := Checkout.PaymentSucceeded, reference := reference)];
      }
    }

    method MarkFailed(id: nat, reason: string)
      modifies this
      ensures payments == Checkout.FailPayment(old(payments), id, reason)
    {
      if id < |payments| {
        payments := payments[id := payments[id].(status := Checkout.PaymentDeclined, reason := Some(reason))];
      }
    }

    /** Only the reason is recorded. */
    method MarkUnknown(id: nat, reason: string)
      modifies this
      ensures payments == Checkout.AnnotatePayment(old(payments), id, reason)
    {
      if id < |payments| {
        payments := payments[id := payments[id].(reason := Some(reason))];
      }
    }
  }
}
