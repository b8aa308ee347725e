/**
 What holds of every run of the world: any number of checkouts, retries, charges, crashes, expiry
 sweeps and relay steps in any order, from any stocked inventory.
 */
module CheckoutTheorems {
  import opened Common
  import opened Ledger
  import opened Settlement
  import opened OrderState
  import opened Selection
  import opened Outbox
  import opened Checkout
  import opened CheckoutInvariant
  import opened CheckoutTx2

  ghost predicate Reachable(w: World, base: Inventory) {
    Stocked(base) && exists clock, actions :: w == Run(Opening(base, clock), actions)
  }

  lemma {:induction false} OpeningDesk(d: Desk)
    requires d == Desk([], Wire(map[], multiset{}, multiset{}))
    ensures DeskInv(d)
  {
  }

  lemma {:induction false} OpeningInv(base: Inventory, clock: int)
    requires Stocked(base)
    ensures Inv(Opening(base, clock), base)
  {
    var w := Opening(base, clock);
    OpeningDesk(Desk(w.db.events, w.wire));
    assert Conserved(w.db.books, base);
    assert EventsOk(w.db.events, w.db.orders, w.db.payments);
  }

  lemma {:induction false} StepKeeps(w: World, base: Inventory, a: Action)
    requires Inv(w, base)
    ensures Inv(Next(w, a), base)
  {
    hide Inv, Next;
    match a
    case Arrive(_, _, _, _) => ArriveKeeps(w, base, a);
    case Retry(_, _) => RetryKeeps(w, base, a);
    case Charge(_, _) => ChargeKeeps(w, base, a);
    case Settle2(_, _) => Settle2Keeps(w, base, a);
    case Crash(_) => CrashKeeps(w, base, a);
    case Sweep(_, _) => SweepKeeps(w, base, a);
    case Relaying(_) => RelayingKeeps(w, base, a);
    case Tick(_) => TickKeeps(w, base, a);
  }

  lemma {:induction false} RunKeeps(w: World, base: Inventory, actions: seq<Action>)
    requires Inv(w, base)
    ensures Inv(Run(w, actions), base)
  {
    if actions != [] {
      RunKeeps(w, base, actions[..|actions| - 1]);
      StepKeeps(Run(w, actions[..|actions| - 1]), base, actions[|actions| - 1]);
    }
  }

  /** The invariant holds in every reachable world. */
  lemma {:induction false} ReachableInv(w: World, base: Inventory)
    requires Reachable(w, base)
    ensures Inv(w, base)
  {
    var clock, actions :| w == Run(Opening(base, clock), actions);
    OpeningInv(base, clock);
    RunKeeps(Opening(base, clock), base, actions);
  }

  lemma {:induction false} SizesFact(w: World, base: Inventory)
    requires Inv(w, base)
    ensures |w.origin| == |w.db.orders| == |w.db.payments|
  {
  }

  // ---------------------------------------------------------------- the three phases

  /** Every hold of order o has one of two statuses. */
  predicate HoldsAre(holds: seq<Hold>, o: nat, s: HoldStatus) {
    forall i :: 0 <= i < |holds| && holds[i].order == o ==> holds[i].status == s || holds[i].status == Expired
  }

  /** The reason recorded is the one given, or the stock phrase if none was. */
  predicate Recorded(reason: Option<string>, given: Option<string>, phrase: string) {
    && (given.Some? && given.value != "" ==> reason == given)
    && (given == None || given == Some("") ==> reason == Some(phrase))
  }

  /** The key's row holds the 201 answer of order o. */
  predicate Answers(row: KeyRow, o: nat, order: Order, payment: Payment) {
    && row.status == Completed && row.code == Some(201) && row.order == Some(o)
    && row.body.Some? && BodyOf(row.body.value, o, order, payment)
  }

  /** What the rest of the database says about an order in each of its three phases. */
  predicate InPhase(w: World, o: nat, order: Order, payment: Payment, row: KeyRow) {
    var holds, events := w.db.books.holds, w.db.events;
    match order.status
    case Reserved =>
      && payment.status == PaymentPending && payment.reference == None
      && HoldsAre(holds, o, Active) && EventCount(events, o) == 0 && row.status == InProgress
    case Confirmed =>
      && payment.status == PaymentSucceeded && payment.reason == None
      && o in w.results && w.results[o].outcome == Succeeds && payment.reference == w.results[o].reference
      && HoldsAre(holds, o, Committed) && EventCount(events, o) == 1 && Answers(row, o, order, payment)
    case PaymentFailed =>
      && payment.status == PaymentDeclined && payment.reference == None
      && o in w.results && w.results[o].outcome == Declines && Recorded(payment.reason, w.results[o].reason, "declined")
      && HoldsAre(holds, o, Released) && EventCount(events, o) == 0
    case _ => false
  }

  /** Between transactions an order is in exactly one of three phases, in which its payment, its
      holds, its key and its events agree; `paid` and `pending` are never seen. */
  lemma {:induction false} OrderPhases(w: World, base: Inventory, o: nat)
    requires Reachable(w, base) && o < |w.db.orders|
    ensures o < |w.db.payments| && o < |w.origin| && w.origin[o] in w.db.keys
    ensures var order, payment := w.db.orders[o], w.db.payments[o];
            && payment.order == o && payment.amount == order.total > 0 && payment.currency == order.currency
            && InPhase(w, o, order, payment, w.db.keys[w.origin[o]])
  {
    hide Inv, Reachable, InPhase;
    ReachableInv(w, base);
    OrderFacts(w, base, o);
    PhaseOf(w, o);
  }

  lemma {:induction false} OrderFacts(w: World, base: Inventory, o: nat)
    requires Inv(w, base) && o < |w.db.orders|
    ensures |w.origin| == |w.db.orders| == |w.db.payments|
    ensures OrderOk(w.db.orders[o]) && PaymentOk(o, w.db.orders[o], w.db.payments[o])
    ensures OriginOk(o, w.db.orders[o], w.db.payments[o], w.origin[o], w.db.keys)
    ensures AnswerKept(o, w.db.orders[o], w.db.payments[o], w.results)
    ensures ResultFits(w.db.orders[o].status, w.results, o) && HoldStatusesOk(w.db.orders, w.db.books.holds)
    ensures EventCount(w.db.events, o) == if w.db.orders[o].status == Confirmed then 1 else 0
  {
    hide OrderOk, PaymentOk, OriginOk, AnswerKept, ResultFits, HoldStatusesOk;
  }

  lemma {:induction false} PhaseOf(w: World, o: nat)
    requires |w.origin| == |w.db.orders| == |w.db.payments| && o < |w.db.orders|
    requires OrderOk(w.db.orders[o]) && PaymentOk(o, w.db.orders[o], w.db.payments[o])
    requires OriginOk(o, w.db.orders[o], w.db.payments[o], w.origin[o], w.db.keys)
    requires AnswerKept(o, w.db.orders[o], w.db.payments[o], w.results)
    requires ResultFits(w.db.orders[o].status, w.results, o) && HoldStatusesOk(w.db.orders, w.db.books.holds)
    requires EventCount(w.db.events, o) == if w.db.orders[o].status == Confirmed then 1 else 0
    ensures InPhase(w, o, w.db.orders[o], w.db.payments[o], w.db.keys[w.origin[o]])
  {
    PhaseOfHolds(w.db.orders, w.db.books.holds, o);
    hide HoldsAre, HoldStatusesOk;
  }

  lemma {:induction false} PhaseOfHolds(orders: seq<Order>, holds: seq<Hold>, o: nat)
    requires HoldStatusesOk(orders, holds) && o < |orders|
    ensures orders[o].status == Reserved ==> HoldsAre(holds, o, Active)
    ensures orders[o].status == Confirmed ==> HoldsAre(holds, o, Committed)
    ensures orders[o].status == PaymentFailed ==> HoldsAre(holds, o, Released)
  {
  }

  // ---------------------------------------------------------------- charges

  /** Two orders that came from one key: the earlier one was declined. */
  lemma {:induction false} EarlierDeclined(w: World, base: Inventory, o: nat, later: nat)
    requires Inv(w, base) && o < later < |w.origin| && w.origin[o] == w.origin[later]
    ensures o < |w.db.orders| && w.db.orders[o].status == PaymentFailed
    ensures o in w.results && w.results[o].outcome == Declines
  {
    assert ResultFits(w.db.orders[o].status, w.results, o);
  }

  /** At most one saga is in flight for a key. */
  lemma {:induction false} OneSagaPerKey(w: World, base: Inventory, a: nat, b: nat)
    requires Reachable(w, base) && a in w.sagas && b in w.sagas && w.sagas[a].key == w.sagas[b].key
    ensures a == b
  {
    ReachableInv(w, base);
    assert SagaOk(a, w.sagas[a], w.db.orders, w.origin, w.results)
          && SagaOk(b, w.sagas[b], w.db.orders, w.origin, w.results);
    if a < b { EarlierDeclined(w, base, a, b); }
    if b < a { EarlierDeclined(w, base, b, a); }
  }

  lemma {:induction false} LoggedOrder(w: World, base: Inventory, i: nat)
    requires Inv(w, base) && i < |w.log|
    ensures w.log[i] < |w.origin| && w.log[i] in w.results
    ensures forall j :: 0 <= j < |w.log| && w.log[j] == w.log[i] ==> j == i
  {
    assert w.log[i] in w.results;
  }

  lemma {:induction false} UndeclinedOrder(w: World, base: Inventory, a: nat, b: nat)
    requires Inv(w, base) && a < |w.origin| && b < |w.origin| && w.origin[a] == w.origin[b] && a in w.results
    requires b in w.results
    requires w.results[a].outcome != Declines && w.results[b].outcome != Declines
    ensures a == b
  {
    if a < b { EarlierDeclined(w, base, a, b); }
    if b < a { EarlierDeclined(w, base, b, a); }
  }

  /** No order is charged twice, and of all the charges ever made for one key at most one was not
      a definite decline. */
  lemma {:induction false} OneUndeclinedChargePerKey(w: World, base: Inventory, i: nat, j: nat)
    requires Reachable(w, base) && i < |w.log| && j < |w.log|
    ensures w.log[i] < |w.origin| && w.log[j] < |w.origin| && w.log[i] in w.results && w.log[j] in w.results
    ensures w.log[i] == w.log[j] ==> i == j
    ensures var a, b := w.log[i], w.log[j];
            w.origin[a] == w.origin[b] && w.results[a].outcome != Declines && w.results[b].outcome != Declines ==>
                  i == j
  {
    ReachableInv(w, base);
    LoggedOrder(w, base, i);
    LoggedOrder(w, base, j);
    var a, b := w.log[i], w.log[j];
    if w.origin[a] == w.origin[b] && w.results[a].outcome != Declines && w.results[b].outcome != Declines {
      UndeclinedOrder(w, base, a, b);
    }
  }

  lemma {:induction false} OnlyChargesLog(w: World, a: Action)
    requires Next(w, a).log != w.log
    ensures a.Charge? && a.order in w.sagas && a.order !in w.results && Next(w, a).log == w.log + [a.order]
  {
  }

  lemma {:induction false} SagaIsPending(w: World, base: Inventory, o: nat)
    requires Inv(w, base) && o in w.sagas && o !in w.results
    ensures o !in w.log && o < |w.db.orders| && o < |w.db.payments| && w.db.orders[o].status == Reserved
    ensures var p := w.db.payments[o];
            p.order == o && p.status == PaymentPending && p.amount == w.db.orders[o].total > 0
  {
    assert SagaOk(o, w.sagas[o], w.db.orders, w.origin, w.results);
    assert OrderOk(w.db.orders[o]) && PaymentOk(o, w.db.orders[o], w.db.payments[o]);
  }

  /** The provider is charged only for an order whose pending payment, for the order's positive
      total, is already committed, and which was never charged before. */
  lemma {:induction false} ChargeFollowsPayment(w: World, base: Inventory, a: Action)
    requires Reachable(w, base) && Next(w, a).log != w.log
    ensures a.Charge? && Next(w, a).log == w.log + [a.order] && a.order !in w.log
    ensures a.order < |w.db.orders| && a.order < |w.db.payments| && w.db.orders[a.order].status == Reserved
    ensures var p := w.db.payments[a.order];
            p.order == a.order && p.status == PaymentPending && p.amount == w.db.orders[a.order].total > 0
  {
    OnlyChargesLog(w, a);
    ReachableInv(w, base);
    SagaIsPending(w, base, a.order);
  }

  // ---------------------------------------------------------------- what one step may write

  lemma {:induction false} PlaceKeeps(db: Tables, req: Request, shop: Shop, now: int)
    requires Place(db, req, shop, now).Ok?
    ensures var after := Place(db, req, shop, now).value;
            && after.keys == db.keys && after.events == db.events && db.orders <= after.orders
            && db.books.holds <= after.books.holds
            && forall i :: |db.books.holds| <= i < |after.books.holds| ==> after.books.holds[i].order == |db.orders|
  {
    var order := PlaceIsPlaced(db, req, shop, now);
    ReserveAppends(db.books, |db.orders|, order.warehouse, req.items, now + RESERVATION_TTL_SECONDS);
  }

  /** The world with the key taken, before tx1 has done anything else; `w` again when tx1 raised. */
  predicate Appended(w: World, keys: Keys, after: World) {
    && w.db.orders <= after.db.orders && w.db.books.holds <= after.db.books.holds
    && (after.db.keys == w.db.keys || after.db.keys == keys)
    && (forall i :: |w.db.books.holds| <= i < |after.db.books.holds| ==> after.db.books.holds[i].order == |w.db.orders|)
  }

  lemma {:induction false} Tx1Appends(w: World, keys: Keys, req: Request, shop: Shop, started: int)
    ensures Appended(w, keys, Tx1(w, keys, req, shop, started))
  {
    var db := w.db.(keys := keys);
    if Place(db, req, shop, started).Ok? {
      PlaceKeeps(db, req, shop, started);
    }
  }

  lemma {:induction false} ArriveAppends(w: World, a: Action) returns (keys: Keys)
    requires a.Arrive?
    ensures Appended(w, keys, Next(w, a))
    ensures forall k :: k in w.db.keys ==> k in keys && keys[k] == w.db.keys[k]
  {
    hide Tx1;
    keys := w.db.keys;
    var answer := ClaimKey(w.db.keys, a.req.key, a.req.hash);
    if answer.Taken? {
      keys := answer.keys;
      Tx1Appends(w, keys, a.req, a.shop, a.started);
    }
  }

  lemma {:induction false} RetryAppends(w: World, a: Action) returns (keys: Keys)
    requires a.Retry?
    ensures Appended(w, keys, Next(w, a))
    ensures forall k :: k in w.db.keys && w.db.keys[k].status != FailedKey ==> k in keys && keys[k] == w.db.keys[k]
    ensures forall k :: k in w.db.keys ==> k in keys && keys[k].hash == w.db.keys[k].hash
  {
    hide Tx1;
    keys := w.db.keys;
    if a.ticket in w.retries {
      var attempt := w.retries[a.ticket];
      var reclaimed := ReclaimFailed(w.db.keys, attempt.req.key);
      if reclaimed.Some? {
        keys := reclaimed.value;
        Tx1Appends(w.(retries := w.retries - {a.ticket}), keys, attempt.req, a.shop, attempt.started);
      }
    }
  }

  lemma {:induction false} SmallStep(w: World, a: Action)
    requires a.Charge? || a.Crash? || a.Sweep? || a.Relaying? || a.Tick?
    ensures var after := Next(w, a).db; after.keys == w.db.keys && after.orders == w.db.orders
  {
  }

  // ---------------------------------------------------------------- idempotency keys

  lemma {:induction false} SagaKeyInProgress(w: World, base: Inventory, o: nat)
    requires Inv(w, base) && o in w.sagas
    ensures w.sagas[o].key in w.db.keys && w.db.keys[w.sagas[o].key].status == InProgress
  {
    assert SagaOk(o, w.sagas[o], w.db.orders, w.origin, w.results);
    assert OriginOk(o, w.db.orders[o], w.db.payments[o], w.origin[o], w.db.keys);
  }

  lemma {:induction false} Settle2KeepsKey(w: World, o: nat, started: int, k: Key)
    requires MaySettle(w, o, started) && k in w.db.keys && k != w.sagas[o].key
    ensures var after := Next(w, Settle2(o, started)).db.keys; k in after && after[k] == w.db.keys[k]
  {
    Tx2KeepsKey(w.db, o, w.sagas[o].payment, w.sagas[o].key, w.sagas[o].charged.value, started, k);
    hide Tx2;
  }

  lemma {:induction false} Tx2KeepsKey(db: Tables, o: nat, payment: nat, key: Key, result: PaymentResult, now: int,
          k: Key)
    requires k in db.keys && k != key
    ensures var r := Tx2(db, o, payment, key, result, now); r.Ok? ==> k in r.value.keys && r.value.keys[k] == db.keys[k]
  {
  }

  lemma {:induction false} OthersKeepKey(w: World, a: Action, k: Key)
    requires !a.Settle2? && k in w.db.keys && w.db.keys[k].status != FailedKey
    ensures k in Next(w, a).db.keys && Next(w, a).db.keys[k] == w.db.keys[k]
  {
    hide Next;
    if a.Arrive? {
      var keys := ArriveAppends(w, a);
    } else if a.Retry? {
      var keys := RetryAppends(w, a);
    } else {
      SmallStep(w, a);
    }
  }

  lemma {:induction false} IdleSettle(w: World, o: nat, started: int)
    requires !MaySettle(w, o, started)
    ensures Next(w, Settle2(o, started)) == w
  {
  }

  /** No step touches a completed key: tx1 takes only fresh or failed keys, and a saga's own key is
      still in progress when its tx2 writes it. */
  lemma {:induction false} CompletedKeyStep(w: World, base: Inventory, a: Action, k: Key)
    requires Inv(w, base) && k in w.db.keys && w.db.keys[k].status == Completed
    ensures k in Next(w, a).db.keys && Next(w, a).db.keys[k] == w.db.keys[k]
  {
    hide Next, Inv;
    if !a.Settle2? {
      OthersKeepKey(w, a, k);
    } else if MaySettle(w, a.order, a.started) {
      SagaKeyInProgress(w, base, a.order);
      Settle2KeepsKey(w, a.order, a.started, k);
    } else {
      IdleSettle(w, a.order, a.started);
    }
  }

  lemma {:induction false} CompletedKeyIsFinal(w: World, base: Inventory, actions: seq<Action>, k: Key)
    requires Inv(w, base) && k in w.db.keys && w.db.keys[k].status == Completed
    ensures k in Run(w, actions).db.keys && Run(w, actions).db.keys[k] == w.db.keys[k]
  {
    hide Next, Inv;
    if actions != [] {
      var init := actions[..|actions| - 1];
      CompletedKeyIsFinal(w, base, init, k);
      RunKeeps(w, base, init);
      CompletedKeyStep(Run(w, init), base, actions[|actions| - 1], k);
    }
  }

  lemma {:induction false} ConfirmedKey(w: World, base: Inventory, o: nat)
    requires Inv(w, base) && o < |w.db.orders| && w.db.orders[o].status == Confirmed
    ensures o < |w.db.payments| && o < |w.origin| && w.origin[o] in w.db.keys
    ensures var row := w.db.keys[w.origin[o]];
            row == KeyRow(row.hash, Completed, Some(Render(o, w.db.orders[o], w.db.payments[o].reference)), Some(201),
                  Some(o))
  {
    assert OriginOk(o, w.db.orders[o], w.db.payments[o], w.origin[o], w.db.keys);
  }

  lemma {:induction false} RefusedIsNothing(w: World, a: Action)
    requires a.Arrive? && ClaimKey(w.db.keys, a.req.key, a.req.hash).Refused?
    ensures Next(w, a) == w
  {
  }

  /** Once an order is confirmed, then whatever happens afterwards, its key answers every request
      with the same hash by replaying that order's 201 body, refuses every other hash, and neither
      request changes anything. */
  lemma {:induction false} CompletedKeyReplays(w: World, base: Inventory, o: nat, actions: seq<Action>, a: Action)
    returns (body: Body)
    requires Reachable(w, base) && o < |w.db.orders| && o < |w.db.payments| && o < |w.origin|
    requires w.db.orders[o].status == Confirmed && a.Arrive? && a.req.key == w.origin[o]
    ensures BodyOf(body, o, w.db.orders[o], w.db.payments[o])
    ensures a.req.key in w.db.keys
    ensures var later := Run(w, actions);
            && ClaimKey(later.db.keys, a.req.key, a.req.hash) ==
               Refused(if a.req.hash == w.db.keys[a.req.key].hash then ReplayedResponse(Some(body), 201)
                       else IdempotencyKeyReuse)
            && Next(later, a) == later
  {
    hide Next, Inv;
    ReachableInv(w, base);
    ConfirmedKey(w, base, o);
    body := Render(o, w.db.orders[o], w.db.payments[o].reference);
    CompletedKeyIsFinal(w, base, actions, a.req.key);
    RefusedIsNothing(Run(w, actions), a);
  }

  // ---------------------------------------------------------------- orders

  /** Whom tx2 moves: at most the order of its own saga. */
  predicate SagaMoved(outcome: Checkout.Outcome, before: Order, moved: Order, started: int) {
    match outcome
    case Succeeds => Moved(before, moved, Confirmed, started)
    case Declines => Moved(before, moved, PaymentFailed, started)
    case Unknown => moved == before
  }

  lemma {:induction false} Tx2Orders(w: World, base: Inventory, s: nat, started: int) returns (moved: Order)
    requires Inv(w, base) && MaySettle(w, s, started)
    ensures Tx2Of(w, s, started).Ok? && s < |w.db.orders|
    ensures Tx2Of(w, s, started).value.orders == w.db.orders[s := moved]
    ensures SagaMoved(w.sagas[s].charged.value.outcome, w.db.orders[s], moved, started)
  {
    hide Inv, BooksOk;
    SagaFacts(w, base, s);
    match w.sagas[s].charged.value.outcome
    case Succeeds =>
      var after, payment, row := CompleteEnds(w, base, s, started);
      moved := after;
    case Declines =>
      var after, payment, row := CompensateEnds(w, base, s, started);
      moved := after;
    case Unknown =>
      moved := w.db.orders[s];
  }

  lemma {:induction false} Settle2Orders(w: World, base: Inventory, s: nat, started: int) returns (moved: Order)
    requires Inv(w, base) && MaySettle(w, s, started)
    ensures s < |w.db.orders| && Next(w, Settle2(s, started)).db.orders == w.db.orders[s := moved]
    ensures SagaMoved(w.sagas[s].charged.value.outcome, w.db.orders[s], moved, started)
  {
    hide Inv, Next, Tx2Of, SagaMoved;
    moved := Tx2Orders(w, base, s, started);
    Settle2Is(w, s, started);
  }

  /** The step leaves order o as it was, or moves it from reserved to its end. */
  predicate Stepped(w: World, a: Action, o: nat, before: Order, after: Order) {
    || after == before
    || (a.Settle2? && a.order == o && MaySettle(w, o, a.started) &&
        (Moved(before, after, Confirmed, a.started) || Moved(before, after, PaymentFailed, a.started)))
  }

  lemma {:induction false} OthersKeepOrders(w: World, a: Action)
    requires !a.Settle2?
    ensures w.db.orders <= Next(w, a).db.orders
  {
    hide Next;
    if a.Arrive? {
      var keys := ArriveAppends(w, a);
    } else if a.Retry? {
      var keys := RetryAppends(w, a);
    } else {
      SmallStep(w, a);
    }
  }

  /** Only the second transaction of an order's own saga moves the order. */
  lemma {:induction false} OrderStep(w: World, base: Inventory, a: Action, o: nat)
    requires Inv(w, base) && o < |w.db.orders|
    ensures o < |Next(w, a).db.orders| && Stepped(w, a, o, w.db.orders[o], Next(w, a).db.orders[o])
  {
    hide Inv, Next;
    if !a.Settle2? {
      OthersKeepOrders(w, a);
    } else if MaySettle(w, a.order, a.started) {
      var moved := Settle2Orders(w, base, a.order, a.started);
    } else {
      IdleSettle(w, a.order, a.started);
    }
  }

  /** What later transactions may make of an order. */
  predicate Evolves(before: Order, after: Order) {
    && Timeline(after.history) && Current(after.history) == after.status && before.history <= after.history
    && after == before.(status := after.status, history := after.history, updatedAt := after.updatedAt)
    && (before.status in TERMINAL ==> after == before)
  }

  lemma {:induction false} EvolvesOn(before: Order, mid: Order, after: Order, w: World, a: Action, o: nat)
    requires Evolves(before, mid) && Stepped(w, a, o, mid, after)
    ensures Evolves(before, after)
  {
  }

  lemma {:induction false} OrderFact(w: World, base: Inventory, o: nat)
    requires Inv(w, base) && o < |w.db.orders|
    ensures OrderOk(w.db.orders[o])
  {
  }

  /** Over any continuation an order keeps its customer, warehouse, lines and total, its history
      only grows by allowed moves, and a terminal order never changes again. */
  lemma {:induction false} OrderHistoryGrows(w: World, base: Inventory, actions: seq<Action>, o: nat)
    requires Inv(w, base) && o < |w.db.orders|
    ensures o < |Run(w, actions).db.orders| && Evolves(w.db.orders[o], Run(w, actions).db.orders[o])
  {
    hide Inv, Next;
    if actions == [] {
      OrderFact(w, base, o);
    } else {
      var init, a := actions[..|actions| - 1], actions[|actions| - 1];
      var mid := Run(w, init);
      OrderHistoryGrows(w, base, init, o);
      RunKeeps(w, base, init);
      OrderStep(mid, base, a, o);
      EvolvesOn(w.db.orders[o], mid.db.orders[o], Next(mid, a).db.orders[o], mid, a, o);
    }
  }

  /** A confirmed order went pending, reserved, paid, confirmed, and no other way. */
  lemma {:induction false} ConfirmedHistory(w: World, base: Inventory, o: nat)
    requires Reachable(w, base) && o < |w.db.orders| && w.db.orders[o].status == Confirmed
    ensures w.db.orders[o].history ==
            [Move(None, Pending), Move(Some(Pending), Reserved), Move(Some(Reserved), Paid),
                  Move(Some(Paid), Confirmed)]
  {
    hide Inv;
    ReachableInv(w, base);
    OrderFact(w, base, o);
    OnlyWayToConfirmed(w.db.orders[o].history);
  }

  /** The owning saga is the only mover: in a reachable world no tx2 raises. */
  lemma {:induction false} NoTx2Raises(w: World, base: Inventory, o: nat, started: int)
    requires Reachable(w, base) && o in w.sagas && w.sagas[o].charged.Some?
    ensures Tx2Of(w, o, started).Ok?
  {
    ReachableInv(w, base);
    Tx2NeverRaises(w, base, o, started);
  }

  // ---------------------------------------------------------------- stock

  /** In every reachable world a row's `reserved` is what it started with plus what the active and
      committed holds keep of it, and it stays between zero and what is on hand. */
  lemma {:induction false} StockConserved(w: World, base: Inventory, k: Sku)
    requires Reachable(w, base) && k in base
    ensures k in w.db.books.inventory
    ensures var stock := w.db.books.inventory[k];
            && stock.onHand == base[k].onHand && 0 <= stock.reserved <= stock.onHand
            && stock.reserved == base[k].reserved + Held(w.db.books.holds, k)
  {
    ReachableInv(w, base);
    ReservedInRange(w.db.books, base, k);
  }

  predicate AllHolds(holds: seq<Hold>, o: nat, s: HoldStatus) {
    forall i :: 0 <= i < |holds| && holds[i].order == o ==> holds[i].status == s
  }

  /** Holds of order o are as they were, and there are no new ones. */
  predicate SameHolds(before: seq<Hold>, after: seq<Hold>, o: nat) {
    && |before| <= |after|
    && (forall i :: 0 <= i < |before| && before[i].order == o ==> after[i] == before[i])
    && (forall i :: 0 <= i < |before| ==> after[i].order == before[i].order)
    && (forall i :: |before| <= i < |after| ==> after[i].order != o)
  }

  lemma {:induction false} SameHoldsOn(before: seq<Hold>, mid: seq<Hold>, after: seq<Hold>, o: nat)
    requires SameHolds(before, mid, o) && SameHolds(mid, after, o)
    ensures SameHolds(before, after, o)
  {
    forall i | |before| <= i < |after| ensures after[i].order != o {
      if i < |mid| { assert mid[i].order != o; }
    }
  }

  lemma {:induction false} SameHoldsAgree(before: seq<Hold>, after: seq<Hold>, o: nat, s: HoldStatus)
    requires SameHolds(before, after, o)
    ensures AllHolds(after, o, s) <==> AllHolds(before, o, s)
  {
    if AllHolds(after, o, s) {
      forall i | 0 <= i < |before| && before[i].order == o ensures before[i].status == s {
        assert after[i] == before[i];
      }
    }
  }

  lemma {:induction false} MarkedOthers(holds: seq<Hold>, ids: set<nat>, status: HoldStatus, now: int, o: nat)
    requires forall i :: i in ids && i < |holds| ==> holds[i].order != o
    ensures SameHolds(holds, Mark(holds, ids, status, now), o)
  {
  }

  lemma {:induction false} DueElsewhere(orders: seq<Order>, holds: seq<Hold>, started: int, o: nat)
    requires HoldStatusesOk(orders, holds) && o < |orders| && orders[o].status != Reserved
    ensures forall i :: i in ExpiredBy(holds, started) ==> holds[i].order != o
  {
  }

  lemma {:induction false} SweepMarks(w: World, a: Action)
    requires a.Sweep?
    ensures var holds, after := w.db.books.holds, Next(w, a).db.books.holds;
            after == holds ||
            (a.chosen <= ExpiredBy(holds, a.started)
                  && after == Mark(holds, StillActive(holds, a.chosen), Expired, a.started))
  {
  }

  lemma {:induction false} StatusesFact(w: World, base: Inventory)
    requires Inv(w, base)
    ensures HoldStatusesOk(w.db.orders, w.db.books.holds)
  {
  }

  lemma {:induction false} SweepSameHolds(w: World, base: Inventory, a: Action, o: nat)
    requires Inv(w, base) && a.Sweep? && o < |w.db.orders| && w.db.orders[o].status != Reserved
    ensures SameHolds(w.db.books.holds, Next(w, a).db.books.holds, o)
  {
    hide Inv, Next;
    var holds := w.db.books.holds;
    StatusesFact(w, base);
    DueElsewhere(w.db.orders, holds, a.started, o);
    SweepMarks(w, a);
    hide HoldStatusesOk;
    if Next(w, a).db.books.holds != holds {
      MarkedOthers(holds, StillActive(holds, a.chosen), Expired, a.started, o);
    }
  }

  lemma {:induction false} Tx2Holds(db: Tables, s: nat, payment: nat, key: Key, result: PaymentResult, now: int, o: nat)
    requires s != o && Tx2(db, s, payment, key, result, now).Ok?
    ensures SameHolds(db.books.holds, Tx2(db, s, payment, key, result, now).value.books.holds, o)
  {
    var holds := db.books.holds;
    MarkedOthers(holds, ActiveOf(holds, s), Committed, now, o);
    MarkedOthers(holds, StillActive(holds, ActiveOf(holds, s)), Released, now, o);
  }

  lemma {:induction false} NotItsSaga(w: World, base: Inventory, o: nat)
    requires Inv(w, base) && o < |w.db.orders| && w.db.orders[o].status != Reserved
    ensures o !in w.sagas
  {
  }

  lemma {:induction false} OthersSameHolds(w: World, a: Action, o: nat)
    requires !a.Settle2? && !a.Sweep? && o < |w.db.orders|
    ensures SameHolds(w.db.books.holds, Next(w, a).db.books.holds, o)
  {
    hide Next;
    if a.Arrive? {
      var keys := ArriveAppends(w, a);
    } else if a.Retry? {
      var keys := RetryAppends(w, a);
    } else {
      QuietStep(w, a);
    }
  }

  lemma {:induction false} QuietStep(w: World, a: Action)
    requires a.Charge? || a.Crash? || a.Relaying? || a.Tick?
    ensures Next(w, a).db.books == w.db.books
  {
  }

  lemma {:induction false} Settle2SameHolds(w: World, a: Action, o: nat)
    requires a.Settle2? && a.order != o
    ensures SameHolds(w.db.books.holds, Next(w, a).db.books.holds, o)
  {
    if MaySettle(w, a.order, a.started) && Tx2Of(w, a.order, a.started).Ok? {
      var saga := w.sagas[a.order];
      Tx2Holds(w.db, a.order, saga.payment, saga.key, saga.charged.value, a.started, o);
      Settle2Is(w, a.order, a.started);
      hide Tx2, Next;
    }
  }

  /** Nothing touches the holds of an order that has ended. */
  lemma {:induction false} EndedHoldsStep(w: World, base: Inventory, a: Action, o: nat)
    requires Inv(w, base) && o < |w.db.orders| && w.db.orders[o].status != Reserved
    ensures SameHolds(w.db.books.holds, Next(w, a).db.books.holds, o)
  {
    hide Inv, Next;
    if a.Sweep? {
      SweepSameHolds(w, base, a, o);
    } else if !a.Settle2? {
      OthersSameHolds(w, a, o);
    } else if a.order != o {
      Settle2SameHolds(w, a, o);
    } else {
      NotItsSaga(w, base, o);
      IdleSettle(w, o, a.started);
    }
  }

  lemma {:induction false} EndedHoldsAreFinal(w: World, base: Inventory, actions: seq<Action>, o: nat)
    requires Inv(w, base) && o < |w.db.orders| && w.db.orders[o].status != Reserved
    ensures SameHolds(w.db.books.holds, Run(w, actions).db.books.holds, o)
  {
    hide Inv, Next;
    if actions != [] {
      var init, a := actions[..|actions| - 1], actions[|actions| - 1];
      var mid := Run(w, init);
      EndedHoldsAreFinal(w, base, init, o);
      RunKeeps(w, base, init);
      OrderHistoryGrows(w, base, init, o);
      OrderFact(w, base, o);
      EndedHoldsStep(mid, base, a, o);
      SameHoldsOn(w.db.books.holds, mid.db.books.holds, Next(mid, a).db.books.holds, o);
    }
  }

  lemma {:induction false} CompletedBooks(w: World, base: Inventory, o: nat, started: int)
    requires Inv(w, base) && MaySettle(w, o, started) && w.sagas[o].charged.value.outcome == Succeeds
    ensures Next(w, Settle2(o, started)).db.books == CommitHolds(w.db.books, o, started)
    ensures Next(w, Settle2(o, started)).settled == w.settled[o := w.clock]
  {
    hide Inv, Next;
    Tx2NeverRaises(w, base, o, started);
    Settle2Is(w, o, started);
    var after, payment, row := CompleteEnds(w, base, o, started);
  }

  lemma {:induction false} CommitsAllIff(orders: seq<Order>, books: Books, o: nat, now: int)
    requires HoldStatusesOk(orders, books.holds) && o < |orders| && orders[o].status == Reserved
    ensures AllHolds(CommitHolds(books, o, now).holds, o, Committed) <==> AllHolds(books.holds, o, Active)
  {
  }

  lemma {:induction false} TablesFact(w: World, base: Inventory)
    requires Inv(w, base)
    ensures HoldStatusesOk(w.db.orders, w.db.books.holds) && SagasOk(w.sagas, w.db.orders, w.origin, w.results)
    ensures ExpiryOk(w.db.orders, w.db.books.holds, w.settled, w.clock)
  {
    hide HoldStatusesOk, SagasOk, ExpiryOk;
  }

  lemma {:induction false} HoldsFact(w: World, base: Inventory, o: nat)
    requires Inv(w, base) && o in w.sagas
    ensures HoldStatusesOk(w.db.orders, w.db.books.holds) && o < |w.db.orders| && w.db.orders[o].status == Reserved
    ensures WithinExpiry(w.db.books.holds, o, w.clock) ==> AllHolds(w.db.books.holds, o, Active)
  {
    hide Inv, HoldStatusesOk, ExpiryOk, WithinExpiry, AllHolds;
    TablesFact(w, base);
    assert SagaOk(o, w.sagas[o], w.db.orders, w.origin, w.results);
    InTimeIsActive(w.db.orders, w.db.books.holds, w.settled, w.clock, o);
  }

  lemma {:induction false} InTimeIsActive(orders: seq<Order>, holds: seq<Hold>, settled: map<nat, int>, clock: int,
          o: nat)
    requires HoldStatusesOk(orders, holds) && ExpiryOk(orders, holds, settled, clock)
    requires o < |orders| && orders[o].status == Reserved
    ensures WithinExpiry(holds, o, clock) ==> AllHolds(holds, o, Active)
  {
    forall i | 0 <= i < |holds| && holds[i].order == o && holds[i].status == Expired
      ensures holds[i].expiresAt < clock
    {
      assert TimesOk(holds[i], orders, settled, clock);
    }
  }

  /** At this instant no hold of order o is past its expiry. */
  predicate WithinExpiry(holds: seq<Hold>, o: nat, instant: int) {
    forall i :: 0 <= i < |holds| && holds[i].order == o ==> instant <= holds[i].expiresAt
  }

  /** The successful tx2 does not look at how many holds it settles: it confirms the order whatever
      became of them. They are all committed, then and for ever after, exactly when all were still
      active at the instant tx2 took effect; which is so if none was past its expiry at that instant. */
  lemma {:induction false} CompletionCommitsIff(w: World, base: Inventory, o: nat, started: int, actions: seq<Action>)
    requires Reachable(w, base) && MaySettle(w, o, started) && w.sagas[o].charged.value.outcome == Succeeds
    ensures var confirmed := Next(w, Settle2(o, started));
            && o < |confirmed.db.orders| && confirmed.db.orders[o].status == Confirmed
            && confirmed.db.orders[o].updatedAt == started && confirmed.settled == w.settled[o := w.clock]
            && (AllHolds(Run(confirmed, actions).db.books.holds, o, Committed) <==>
                 AllHolds(w.db.books.holds, o, Active))
    ensures WithinExpiry(w.db.books.holds, o, w.clock) ==> AllHolds(w.db.books.holds, o, Active)
  {
    hide Inv, Next;
    ReachableInv(w, base);
    HoldsFact(w, base, o);
    var confirmed := Next(w, Settle2(o, started));
    var moved := Settle2Orders(w, base, o, started);
    CompletedBooks(w, base, o, started);
    CommitsAllIff(w.db.orders, w.db.books, o, started);
    StepKeeps(w, base, Settle2(o, started));
    EndedHoldsAreFinal(confirmed, base, actions, o);
    SameHoldsAgree(confirmed.db.books.holds, Run(confirmed, actions).db.books.holds, o, Committed);
  }

  /** An order whose confirmation took effect no later than its holds' expiry has exactly its lines
      committed: one hold per line, at the order's warehouse, for the line's quantity. The order's own
      time stamp will not do: it is when the confirming transaction started. */
  lemma {:induction false} ConfirmedInTimeIsCommitted(w: World, base: Inventory, o: nat)
    requires Reachable(w, base) && o < |w.db.orders| && w.db.orders[o].status == Confirmed
    ensures o in w.settled && w.db.orders[o].updatedAt <= w.settled[o]
    ensures WithinExpiry(w.db.books.holds, o, w.settled[o]) ==> AllHolds(w.db.books.holds, o, Committed)
    ensures EntryBag(w.db.books.holds, o) == multiset(LineEntries(w.db.orders[o]))
  {
    ReachableInv(w, base);
    assert InstantOk(o, w.db.orders[o], w.settled, w.clock);
    InTime(w.db.orders, w.db.books.holds, w.settled, o, w.clock);
  }

  lemma {:induction false} InTime(orders: seq<Order>, holds: seq<Hold>, settled: map<nat, int>, o: nat, clock: int)
    requires HoldStatusesOk(orders, holds) && ExpiryOk(orders, holds, settled, clock) && o < |orders|
    requires orders[o].status == Confirmed && o in settled
    ensures WithinExpiry(holds, o, settled[o]) ==> AllHolds(holds, o, Committed)
  {
    forall i | 0 <= i < |holds| && holds[i].order == o
      ensures holds[i].status == Committed || holds[i].expiresAt < settled[o]
    {
      assert TimesOk(holds[i], orders, settled, clock);
    }
  }

  // ---------------------------------------------------------------- events

  /** The relays see the events the checkouts wrote: open batches never share an event, a processed
      event was delivered once plus once for every relay that died after publishing it, and
      `attempts` says processed or not. */
  lemma {:induction false} EventsDelivered(w: World, base: Inventory, e: nat)
    requires Reachable(w, base) && e < |w.db.events|
    ensures BatchesDisjoint(w.wire.relays)
    ensures w.db.events[e].attempts == Count(w.db.events[e].processedAt.Some?)
    ensures w.db.events[e].processedAt.Some? ==> w.wire.delivered[e] == 1 + w.wire.lost[e]
  {
    ReachableInv(w, base);
    AtLeastOnce(Desk(w.db.events, w.wire), e);
  }

  lemma {:induction false} Tx2Events(db: Tables, o: nat, payment: nat, key: Key, result: PaymentResult, now: int)
    requires Tx2(db, o, payment, key, result, now).Ok?
    ensures db.events <= Tx2(db, o, payment, key, result, now).value.events
  {
  }

  lemma {:induction false} Settle2Events(w: World, a: Action)
    requires a.Settle2?
    ensures w.db.events <= Next(w, a).db.events && Next(w, a).wire == w.wire
  {
    if MaySettle(w, a.order, a.started) && Tx2Of(w, a.order, a.started).Ok? {
      var saga := w.sagas[a.order];
      Tx2Events(w.db, a.order, saga.payment, saga.key, saga.charged.value, a.started);
      Settle2Is(w, a.order, a.started);
      hide Next, Tx2;
    }
  }

  lemma {:induction false} Tx1Events(w: World, keys: Keys, req: Request, shop: Shop, started: int)
    ensures var after := Tx1(w, keys, req, shop, started); after.db.events == w.db.events && after.wire == w.wire
  {
    if Place(w.db.(keys := keys), req, shop, started).Ok? {
      PlaceKeeps(w.db.(keys := keys), req, shop, started);
    }
    hide Place;
  }

  lemma {:induction false} ArrivalEvents(w: World, a: Action)
    requires a.Arrive? || a.Retry?
    ensures Next(w, a).db.events == w.db.events && Next(w, a).wire == w.wire
  {
    hide Tx1;
    if a.Arrive? {
      var answer := ClaimKey(w.db.keys, a.req.key, a.req.hash);
      if answer.Taken? { Tx1Events(w, answer.keys, a.req, a.shop, a.started); }
    } else if a.ticket in w.retries {
      var attempt := w.retries[a.ticket];
      var keys := ReclaimFailed(w.db.keys, attempt.req.key);
      if keys.Some? {
        Tx1Events(w.(retries := w.retries - {a.ticket}), keys.value, attempt.req, a.shop, attempt.started);
      }
    }
  }

  lemma {:induction false} ProcessedStep(w: World, base: Inventory, a: Action, e: nat)
    requires Inv(w, base) && e < |w.db.events| && w.db.events[e].processedAt.Some?
    ensures var after := Next(w, a);
            && e < |after.db.events| && after.db.events[e] == w.db.events[e]
            && after.wire.delivered[e] == w.wire.delivered[e]
  {
    DeskFact(w, base);
    hide Inv, Next, DeskInv, RelayNext;
    match a
    case Arrive(_, _, _, _) => ArrivalEvents(w, a);
    case Retry(_, _) => ArrivalEvents(w, a);
    case Settle2(_, _) => Settle2Events(w, a);
    case Relaying(step) =>
      RelayingIs(w, step);
      ProcessedStays(Desk(w.db.events, w.wire), step, e);
    case _ => OthersEvents(w, a);
  }

  lemma {:induction false} DeskFact(w: World, base: Inventory)
    requires Inv(w, base)
    ensures DeskInv(Desk(w.db.events, w.wire))
  {
    hide DeskInv;
  }

  lemma {:induction false} RelayingIs(w: World, step: RelayAction)
    ensures var after := Next(w, Relaying(step));
            Desk(after.db.events, after.wire) == RelayNext(Desk(w.db.events, w.wire), step)
  {
    hide RelayNext;
  }

  lemma {:induction false} OthersEvents(w: World, a: Action)
    requires a.Charge? || a.Crash? || a.Sweep? || a.Tick?
    ensures Next(w, a).db.events == w.db.events && Next(w, a).wire == w.wire
  {
  }

  /** An event that has been processed is over with: in every continuation its row stays as it is and
      it is never delivered again. */
  lemma {:induction false} ProcessedIsFinal(w: World, base: Inventory, actions: seq<Action>, e: nat)
    requires Inv(w, base) && e < |w.db.events| && w.db.events[e].processedAt.Some?
    ensures var later := Run(w, actions);
            && e < |later.db.events| && later.db.events[e] == w.db.events[e]
            && later.wire.delivered[e] == w.wire.delivered[e]
  {
    hide Inv, Next;
    if actions != [] {
      var init := actions[..|actions| - 1];
      ProcessedIsFinal(w, base, init, e);
      RunKeeps(w, base, init);
      ProcessedStep(Run(w, init), base, actions[|actions| - 1], e);
    }
  }

  lemma {:induction false} EventOf(events: seq<Event>, o: nat) returns (e: nat)
    requires EventCount(events, o) > 0
    ensures e < |events| && events[e].payload.order == o
  {
    if events[|events| - 1].payload.order == o {
      e := |events| - 1;
    } else {
      e := EventOf(events[..|events| - 1], o);
    }
  }

  lemma {:induction false} TwoEvents(events: seq<Event>, o: nat, d: nat, e: nat)
    requires d < e < |events| && events[d].payload.order == o && events[e].payload.order == o
    ensures EventCount(events, o) >= 2
  {
    if e == |events| - 1 {
      CountedEvent(events[..e], d);
    } else {
      TwoEvents(events[..|events| - 1], o, d, e);
    }
  }

  /** Every confirmed order is announced by one event, written by the confirming transaction, which
      says what the order and its payment say; no other event names the order. */
  lemma {:induction false} AnnouncedOnce(w: World, base: Inventory, o: nat) returns (e: nat)
    requires Reachable(w, base) && o < |w.db.orders| && w.db.orders[o].status == Confirmed
    ensures e < |w.db.events| && o < |w.db.payments|
    ensures PayloadOf(w.db.events[e].payload, o, w.db.orders[o], w.db.payments[o])
    ensures w.db.events[e].createdAt == w.db.orders[o].updatedAt
    ensures forall d :: 0 <= d < |w.db.events| && w.db.events[d].payload.order == o ==> d == e
  {
    ReachableInv(w, base);
    e := EventOf(w.db.events, o);
    forall d: nat | d < |w.db.events| && w.db.events[d].payload.order == o ensures d == e {
      if d < e { TwoEvents(w.db.events, o, d, e); }
      if e < d { TwoEvents(w.db.events, o, e, d); }
    }
  }

  /** Every event announces a confirmed order. */
  lemma {:induction false} NothingElseAnnounced(w: World, base: Inventory, e: nat)
    requires Reachable(w, base) && e < |w.db.events|
    ensures var o := w.db.events[e].payload.order; o < |w.db.orders| && w.db.orders[o].status == Confirmed
  {
    ReachableInv(w, base);
    CountedEvent(w.db.events, e);
  }

  // ---------------------------------------------------------------- time stamps

  /** In every reachable world a hold is open exactly while it is active; an expired one was ended by a
      sweep that started after its time; one that was committed or released carries the time stamp its
      order got in the same transaction. */
  lemma {:induction false} HoldStamps(w: World, base: Inventory, i: nat)
    requires Reachable(w, base) && i < |w.db.books.holds|
    ensures var h := w.db.books.holds[i];
            && h.order < |w.db.orders| && (h.releasedAt == None <==> h.status == Active)
            && (h.status == Expired ==> h.expiresAt < h.releasedAt.value <= w.clock)
            && (h.status == Committed || h.status == Released ==> h.releasedAt == Some(w.db.orders[h.order].updatedAt))
  {
    ReachableInv(w, base);
    assert TimesOk(w.db.books.holds[i], w.db.orders, w.settled, w.clock);
  }
}
