/** What the caller is told after the charge, against what the tables say. */
module CheckoutReplies {
  import opened Common
  import opened Ledger
  import opened Settlement
  import opened OrderState
  import opened Outbox
  import opened Checkout
  import opened CheckoutInvariant
  import opened CheckoutTx2
  import opened CheckoutTheorems

  /** An order waiting for its charge, its payment and its key. */
  predicate Waiting(db: Tables, o: nat, payment: nat, key: Key) {
    && o < |db.orders| && db.orders[o].status == Reserved
    && payment < |db.payments| && db.payments[payment].status == PaymentPending
    && key in db.keys && db.keys[key].status == InProgress
  }

  /** When tx1 commits, its order is waiting. */
  lemma {:induction false} BegunIsWaiting(db: Tables, req: Request, shop: Shop, now: int)
    requires Begin(db, req, shop, now).Ok?
    ensures Waiting(Begin(db, req, shop, now).value, |db.orders|, |db.payments|, req.key)
  {
    match ClaimKey(db.keys, req.key, req.hash)
    case Taken(keys) => PlacedIsWaiting(db, keys, req, shop, now);
    case Refused(_) =>
    case SawFailed => PlacedIsWaiting(db, ReclaimFailed(db.keys, req.key).value, req, shop, now);
  }

  lemma {:induction false} PlacedIsWaiting(db: Tables, keys: Keys, req: Request, shop: Shop, now: int)
    requires req.key in keys && keys[req.key].status == InProgress
    ensures var r := Place(db.(keys := keys), req, shop, now);
            r.Ok? ==> Waiting(r.value, |db.orders|, |db.payments|, req.key)
  {
    if Place(db.(keys := keys), req, shop, now).Ok? {
      var order := PlacedCounts(db.(keys := keys), req, shop, now);
    }
  }

  lemma {:induction false} PlacedCounts(db: Tables, req: Request, shop: Shop, now: int) returns (order: Order)
    requires Place(db, req, shop, now).Ok?
    ensures var after := Place(db, req, shop, now).value;
            && after.orders == db.orders + [order] && order.status == Reserved && after.keys == db.keys
            && |after.payments| == |db.payments| + 1 && after.payments[|db.payments|].status == PaymentPending
  {
    order := PlaceIsPlaced(db, req, shop, now);
  }

  lemma {:induction false} CompleteTells(db: Tables, o: nat, payment: nat, key: Key, result: PaymentResult, now: int)
    requires Waiting(db, o, payment, key) && result.outcome == Succeeds
    requires Complete(db, o, payment, key, result, now).Ok?
    ensures var after := Complete(db, o, payment, key, result, now).value;
            && o < |after.orders| && payment < |after.payments| && key in after.keys
            && Told(Reply(after, o, result), after, o, payment, key)
  {
  }

  lemma {:induction false} CompensateTells(db: Tables, o: nat, payment: nat, key: Key, result: PaymentResult, now: int)
    requires Waiting(db, o, payment, key) && result.outcome == Declines
    requires Compensate(db, o, payment, key, result, now).Ok?
    ensures var after := Compensate(db, o, payment, key, result, now).value;
            && o < |after.orders| && payment < |after.payments| && key in after.keys
            && Told(Reply(after, o, result), after, o, payment, key)
  {
  }

  /** When tx2 commits, the caller is told how the order stands, and nothing else. */
  lemma {:induction false} Tx2Tells(db: Tables, o: nat, payment: nat, key: Key, result: PaymentResult, now: int)
    requires Waiting(db, o, payment, key) && Tx2(db, o, payment, key, result, now).Ok?
    ensures var after := Tx2(db, o, payment, key, result, now).value;
            && o < |after.orders| && payment < |after.payments| && key in after.keys
            && Told(Reply(after, o, result), after, o, payment, key)
  {
    match result.outcome
    case Succeeds => CompleteTells(db, o, payment, key, result, now);
    case Declines => CompensateTells(db, o, payment, key, result, now);
    case Unknown =>
  }

  lemma {:induction false} SagaIsWaiting(w: World, base: Inventory, o: nat)
    requires Inv(w, base) && o in w.sagas && w.sagas[o].charged.Some?
    ensures Waiting(w.db, o, w.sagas[o].payment, w.sagas[o].key)
  {
    SagaFacts(w, base, o);
    SagaKeyInProgress(w, base, o);
    assert PaymentOk(o, w.db.orders[o], w.db.payments[o]);
  }

  /** In every run: the caller of a saga whose tx2 takes effect is told Ok with the confirmed order's
      body exactly when the charge went through, Declined exactly when it was refused, and Unresolved
      exactly when the provider did not say. */
  lemma {:induction false} CallerIsTold(w: World, base: Inventory, o: nat, started: int)
    requires Reachable(w, base) && MaySettle(w, o, started)
    ensures var saga, after := w.sagas[o], Next(w, Settle2(o, started)).db;
            && o < |after.orders| && saga.payment < |after.payments| && saga.key in after.keys
            && var told := Reply(after, o, saga.charged.value);
               && Told(told, after, o, saga.payment, saga.key)
               && (told.Ok? <==> saga.charged.value.outcome == Succeeds)
               && (told.Err? && told.error.Declined? <==> saga.charged.value.outcome == Declines)
               && (told.Err? && told.error.Unresolved? <==> saga.charged.value.outcome == Unknown)
  {
    hide Inv, Reachable, Next, Tx2, Told;
    ReachableInv(w, base);
    SagaIsWaiting(w, base, o);
    Tx2NeverRaises(w, base, o, started);
    Settle2Is(w, o, started);
    Tx2Tells(w.db, o, w.sagas[o].payment, w.sagas[o].key, w.sagas[o].charged.value, started);
  }
}
