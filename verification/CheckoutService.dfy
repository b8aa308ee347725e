/**
 The checkout saga on the repositories: tx1, the charge with no transaction open, tx2. A transaction
 that raises puts every table back.
 */
module CheckoutService {
  import opened Common
  import opened Ledger
  import opened OrderState
  import Saga = Checkout
  import CheckoutReplies
  import IdempotencyRepository
  import OrderCreation
  import OrderRepository
  import PaymentMock
  import PaymentRepository
  import PublishOutbox
  import ReservationRepository

  class OrderCheckoutService {
    const creation: OrderCreation.Service
    const idempotency: IdempotencyRepository.Repository
    const orders: OrderRepository.Repository
    const outbox: PublishOutbox.Repository
    const payments: PaymentRepository.Repository
    const provider: PaymentMock.MockPaymentProvider
    const reservations: ReservationRepository.Repository
    var inTransaction: bool

    predicate Valid()
      reads this, creation, reservations, provider
    {
      && creation.orders == orders && creation.reservations == reservations
      && creation.Valid() && provider.Valid()
    }

    function Tables(): Saga.Tables
      reads this, idempotency, orders, outbox, payments, reservations
    {
      Saga.Tables(reservations.Tables(), idempotency.keys, orders.orders, payments.payments, outbox.events)
    }

    constructor (inventory: Inventory)
      ensures Valid() && !inTransaction && fresh({idempotency, orders, outbox, payments, provider, reservations})
      ensures Tables() == Saga.Tables(Books(inventory, []), map[], [], [], [])
    {
      var stock := new ReservationRepository.Repository(inventory, Saga.RESERVATION_TTL_SECONDS);
      var orderTable := new OrderRepository.Repository();
      var create := new OrderCreation.Service(orderTable, stock);
      idempotency := new IdempotencyRepository.Repository();
      outbox := new PublishOutbox.Repository();
      payments := new PaymentRepository.Repository();
      provider := new PaymentMock.MockPaymentProvider();
      creation, orders, reservations, inTransaction := create, orderTable, stock, false;
    }

    /** ROLLBACK: every table as it was when the transaction began. */
    method Rollback(was: Saga.Tables)
      requires creation.reservations == reservations && creation.Valid()
      requires forall i :: 0 <= i < |was.books.holds| ==> was.books.holds[i].quantity > 0
      modifies idempotency, orders, outbox, payments, reservations, this`inTransaction
      ensures Tables() == was && !inTransaction && creation.Valid()
    {
      reservations.inventory, reservations.holds := was.books.inventory, was.books.holds;
      idempotency.keys, orders.orders, payments.payments, outbox.events := was.keys, was.orders, was.payments,
            was.events;
      inTransaction := false;
    }

    // ---------------------------------------------------------------- tx1

    /** Take the key, or say what the existing row means; the hash is compared first. */
    method ClaimKey(key: Saga.Key, hash: Saga.Hash) returns (raised: Option<Saga.CheckoutError>)
      modifies idempotency
      ensures var keys, answer := old(idempotency.keys), Saga.ClaimKey(old(idempotency.keys), key, hash);
              && (answer.Taken? ==> raised.None? && idempotency.keys == answer.keys)
              && (answer.Refused? ==> raised == Some(answer.error) && idempotency.keys == keys)
              && (answer.SawFailed? ==> raised.None? && Saga.ReclaimFailed(keys, key) == Some(idempotency.keys))
    {
      var won := idempotency.Claim(key, hash);
      if won {
        return None;
      }
      var found := idempotency.Get(key);
      var existing := found.value;
      if existing.hash != hash {
        return Some(Saga.IdempotencyKeyReuse);
      }
      if existing.status == Saga.Completed {
        return Some(Saga.ReplayedResponse(existing.body, match existing.code case Some(c) => c case None => 200));
      }
      if existing.status == Saga.FailedKey {
        var again := idempotency.ReclaimFailed(key);
        if again {
          return None;
        }
      }
      raised := Some(Saga.IdempotencyInProgress);
    }

    /** Order, lines, holds and pending payment, once the key is taken. */
    method PlaceOrder(req: Saga.Request, shop: Saga.Shop, now: int) returns (r: Result<nat, Saga.CheckoutError>)
      requires Valid()
      modifies orders, reservations, payments
      ensures Valid()
      ensures var spec := Saga.Place(old(Tables()), req, shop, now);
              if spec.Ok? then r == Ok(|old(payments.payments)|) && Tables() == spec.value else r == Err(spec.error)
    {
      var created := creation.CreateInTransaction(req, shop, now);
      if created.Err? {
        return Err(created.error);
      }
      var order := orders.orders[created.value];
      var payment := payments.CreatePending(created.value, order.total, order.currency);
      r := match payment case Some(id) => Ok(id) case None => Err(Saga.AmountNotPositive);
    }

    method RunTx1(req: Saga.Request, shop: Saga.Shop, now: int) returns (r: Result<nat, Saga.CheckoutError>)
      requires Valid() && !inTransaction
      modifies idempotency, orders, outbox, payments, reservations, this`inTransaction
      ensures Valid() && !inTransaction
      ensures var spec := Saga.Begin(old(Tables()), req, shop, now);
              if spec.Ok? then r == Ok(|old(payments.payments)|) && Tables() == spec.value
              else r == Err(spec.error) && Tables() == old(Tables())
    {
      var was := Tables();
      inTransaction := true;
      var raised := ClaimKey(req.key, req.hash);
      if raised.Some? {
        Rollback(was);
        return Err(raised.value);
      }
      r := PlaceOrder(req, shop, now);
      if r.Err? {
        Rollback(was);
      }
      inTransaction := false;
    }

    // ---------------------------------------------------------------- tx2

    method Confirm(order: nat, now: int) returns (raised: Option<Saga.CheckoutError>)
      modifies orders
      ensures var paid := Saga.Transition(old(orders.orders), order, Reserved, Paid, now);
              if paid.Err? then raised == Some(paid.error)
              else raised.None? && Saga.Transition(paid.value, order, Paid, Confirmed, now) == Ok(orders.orders)
    {
      raised := orders.Transition(order, Reserved, Paid, now);
      if raised.None? {
        raised := orders.Transition(order, Paid, Confirmed, now);
      }
    }

    method Complete(order: nat, payment: nat, result: Saga.PaymentResult, key: Saga.Key, now: int)
      returns (r: Result<Saga.Body, Saga.CheckoutError>)
      requires Valid()
      modifies idempotency, orders, outbox, payments, reservations
      ensures Valid()
      ensures var spec := Saga.Complete(old(Tables()), order, payment, key, result, now);
              if spec.Err? then r == Err(spec.error)
              else Tables() == spec.value && order < |orders.orders|
                    && r == Ok(Saga.Render(order, orders.orders[order], result.reference))
    {
      payments.MarkSucceeded(payment, result.reference);
      var raised := Confirm(order, now);
      if raised.Some? {
        return Err(raised.value);
      }
      reservations.SettleForOrder(order, Committed, now);
      outbox.AddEvent(Saga.Announcement(order, orders.orders[order], result.reference), now);
      var body := Saga.Render(order, orders.orders[order], result.reference);
      idempotency.SettleCompleted(key, body, 201, order);
      r := Ok(body);
    }

    method Compensate(order: nat, payment: nat, result: Saga.PaymentResult, key: Saga.Key, now: int)
      returns (raised: Option<Saga.CheckoutError>)
      requires Valid()
      modifies idempotency, orders, payments, reservations
      ensures Valid()
      ensures var spec := Saga.Compensate(old(Tables()), order, payment, key, result, now);
              if spec.Err? then raised == Some(spec.error) else raised.None? && Tables() == spec.value
    {
      payments.MarkFailed(payment, Saga.ReasonOr(result.reason, "declined"));
      var released := reservations.ReleaseReservation(order, now);
      if released.Err? {
        return Some(Saga.LedgerBroken);
      }
      raised := orders.Transition(order, Reserved, PaymentFailed, now);
      if raised.None? {
        idempotency.MarkFailed(key, order);
      }
    }

    method RunTx2(order: nat, payment: nat, result: Saga.PaymentResult, key: Saga.Key, now: int)
      returns (r: Result<Saga.Body, Saga.CheckoutError>)
      requires Valid() && !inTransaction && order < |orders.orders|
      modifies idempotency, orders, outbox, payments, reservations, this`inTransaction
      ensures Valid() && !inTransaction && order < |orders.orders|
      ensures var spec := Saga.Tx2(old(Tables()), order, payment, key, result, now);
              if spec.Ok? then Tables() == spec.value && r == Saga.Reply(spec.value, order, result)
              else Tables() == old(Tables()) && r == Err(spec.error)
      ensures CheckoutReplies.Waiting(old(Tables()), order, payment, key) &&
              Saga.Tx2(old(Tables()), order, payment, key, result, now).Ok? ==>
                && payment < |payments.payments| && key in idempotency.keys
                && Saga.Told(r, Tables(), order, payment, key)
    {
      var was := Tables();
      if CheckoutReplies.Waiting(was, order, payment, key) && Saga.Tx2(was, order, payment, key, result, now).Ok? {
        CheckoutReplies.Tx2Tells(was, order, payment, key, result, now);
      }
      inTransaction := true;
      match result.outcome {
        case Succeeds =>
          r := Complete(order, payment, result, key, now);
          if r.Err? {
            Rollback(was);
          }
        case Declines =>
          var raised := Compensate(order, payment, result, key, now);
          if raised.Some? {
            Rollback(was);
            return Err(raised.value);
          }
          r := Err(Saga.Declined(Saga.ReasonOr(result.reason, "declined")));
        case Unknown =>
          payments.MarkUnknown(payment, Saga.ReasonOr(result.reason, "unknown"));
          r := Err(Saga.Unresolved(Saga.ReasonOr(result.reason, "unknown")));
      }
      inTransaction := false;
    }

    // ---------------------------------------------------------------- the saga

    /** The charge; a network call, so no transaction may be open. */
    method ChargeCard(card: string, order: nat) returns (result: Saga.PaymentResult)
      requires Valid() && !inTransaction
      modifies provider
      ensures Valid() && order in provider.results && provider.results[order] == result
      ensures order !in old(provider.results) ==>
            result == PaymentMock.Answer(card, order) && provider.charged == old(provider.charged) + [order]
      ensures order in old(provider.results) ==>
            result == old(provider.results)[order] && provider.charged == old(provider.charged)
    {
      result := provider.Charge(card, order);
    }

    /** One request that meets no other: tx1 at `now`, the charge, tx2 at `later`. */
    method Checkout(req: Saga.Request, shop: Saga.Shop, card: string, now: int, later: int)
      returns (r: Result<Saga.Body, Saga.CheckoutError>)
      requires Valid() && !inTransaction
      modifies idempotency, orders, outbox, payments, reservations, provider, this`inTransaction
      ensures Valid() && !inTransaction
      ensures var was, order, payment := old(Tables()), |old(orders.orders)|, |old(payments.payments)|;
              var begun := Saga.Begin(was, req, shop, now);
              if begun.Err? then
                r == Err(begun.error) && Tables() == was && provider.charged == old(provider.charged)
                      && provider.results == old(provider.results)
              else
                && order in provider.results
                && var result := provider.results[order];
                   var done := Saga.Tx2(begun.value, order, payment, req.key, result, later);
                   if done.Ok? then Tables() == done.value && order < |done.value.orders|
                         && r == Saga.Reply(done.value, order, result)
                   else Tables() == begun.value && r == Err(done.error)
      ensures |old(orders.orders)| !in old(provider.results) && Saga.Begin(old(Tables()), req, shop, now).Ok? ==>
                provider.charged == old(provider.charged) + [|old(orders.orders)|]
                && provider.results[|old(orders.orders)|] == PaymentMock.Answer(card, |old(orders.orders)|)
      ensures var was, order, payment := old(Tables()), |old(orders.orders)|, |old(payments.payments)|;
              var begun := Saga.Begin(was, req, shop, now);
              begun.Ok? && order in provider.results
              && Saga.Tx2(begun.value, order, payment, req.key, provider.results[order], later).Ok? ==>
                && order < |orders.orders| && payment < |payments.payments| && req.key in idempotency.keys
                && Saga.Told(r, Tables(), order, payment, req.key)
    {
      var order := |orders.orders|;
      if Saga.Begin(Tables(), req, shop, now).Ok? {
        CheckoutReplies.BegunIsWaiting(Tables(), req, shop, now);
      }
      var begun := RunTx1(req, shop, now);
      if begun.Err? {
        return Err(begun.error);
      }
      var result := ChargeCard(card, order);
      r := RunTx2(order, begun.value, result, req.key, later);
    }
  }
}
