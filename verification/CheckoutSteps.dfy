/** The specifications the service's methods meet are the steps the world takes. */
module CheckoutSteps {
  import opened Common
  import opened Ledger
  import opened Settlement
  import opened Checkout
  import ReservationRepository

  /** The world after a request's first transaction, retried at once if its key was seen failed. */
  function AfterTx1(w: World, ticket: nat, req: Request, shop: Shop, started: int): World {
    var arrived := Next(w, Arrive(ticket, req, shop, started));
    if ticket in arrived.retries then Next(arrived, Retry(ticket, shop)) else arrived
  }

  lemma {:induction false} Tx1Is(w: World, keys: Keys, req: Request, shop: Shop, started: int)
    ensures var r := Place(w.db.(keys := keys), req, shop, started);
            var after := Tx1(w, keys, req, shop, started);
            && after.db == (if r.Ok? then r.value else w.db) && after.retries == w.retries
            && after.sagas ==
                 (if r.Ok? then w.sagas[|w.db.orders| := Saga(req.key, |w.db.payments|, None, w.clock)] else w.sagas)
  {
  }

  /** tx1 as the service runs it is the world's step: the same tables, and a saga for the new order;
      a refusal leaves no trace. */
  lemma {:induction false} Tx1IsArrival(w: World, ticket: nat, req: Request, shop: Shop, started: int)
    requires DistinctProducts(req.items) && ticket !in w.retries && started <= w.clock
    ensures var begun, after := Begin(w.db, req, shop, started), AfterTx1(w, ticket, req, shop, started);
            && after.db == (if begun.Ok? then begun.value else w.db) && after.retries == w.retries
            && after.sagas ==
                 (if begun.Ok? then w.sagas[|w.db.orders| := Saga(req.key, |w.db.payments|, None, w.clock)]
                       else w.sagas)
  {
    match ClaimKey(w.db.keys, req.key, req.hash)
    case Taken(keys) =>
      Tx1Is(w, keys, req, shop, started);
    case Refused(_) =>
    case SawFailed =>
      var arrived := Next(w, Arrive(ticket, req, shop, started));
      var rest := arrived.(retries := arrived.retries - {ticket});
      assert rest == w;
      Tx1Is(rest, ReclaimFailed(w.db.keys, req.key).value, req, shop, started);
  }

  /** The charge and, `wait` seconds on, the effect of a tx2 that started in between, as the service runs
      them: the provider's answer is the one it remembers, if it has one, and tx2 stamps its start. */
  lemma {:induction false} ChargeThenTx2(w: World, o: nat, result: PaymentResult, wait: nat, started: int)
    requires o in w.sagas && w.sagas[o].charged.None? && w.clock <= started <= w.clock + wait
    ensures var answer := if o in w.results then w.results[o] else result;
            var done := Tx2(w.db, o, w.sagas[o].payment, w.sagas[o].key, answer, started);
            var after := Next(Next(Next(w, Charge(o, result)), Tick(wait)), Settle2(o, started));
            && after.db == (if done.Ok? then done.value else w.db)
            && after.results == w.results[o := answer] && after.sagas == w.sagas - {o}
            && after.log == (if o in w.results then w.log else w.log + [o])
            && (done.Ok? ==> after.settled == w.settled[o := w.clock + wait])
  {
    hide Tx2;
    var late := Next(Next(w, Charge(o, result)), Tick(wait));
    assert MaySettle(late, o, started);
    assert late.sagas - {o} == w.sagas - {o};
  }

  /** A sweep as the repository runs it, of any batch size, started at any time, is one of the world's
      sweeps. */
  lemma {:induction false} SweepIsStep(w: World, batch: nat, started: int)
    requires started <= w.clock
    ensures var chosen := Ids(ReservationRepository.SweepBatch(w.db.books.holds, started, batch));
            var swept := Settle(w.db.books, chosen, Expired, started);
            Next(w, Sweep(chosen, started)).db == (if swept.Ok? then w.db.(books := swept.value) else w.db)
  {
    ReservationRepository.SweepFillsBatch(w.db.books.holds, started, batch);
  }
}
