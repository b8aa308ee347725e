/** tx2 keeps the invariant, and in a reachable state never raises. */
module CheckoutTx2 {
  import opened Common
  import opened Ledger
  import opened Settlement
  import opened OrderState
  import opened Outbox
  import opened Checkout
  import opened CheckoutInvariant

  /** A reserved order moved to its end: nothing but status, history and time changed. */
  predicate Moved(order: Order, after: Order, to: OrderStatus, now: int) {
    && order.status == Reserved && (to == Confirmed || to == PaymentFailed)
    && after == order.(status := to, history := after.history, updatedAt := now)
    && OrderOk(after) && order.history <= after.history
  }

  lemma {:induction false} ConfirmedMove(order: Order, now: int)
    requires OrderOk(order) && order.status == Reserved
    ensures var history := order.history + [Move(Some(Reserved), Paid)] + [Move(Some(Paid), Confirmed)];
            Moved(order, order.(status := Confirmed, history := history, updatedAt := now), Confirmed, now)
  {
  }

  lemma {:induction false} FailedMove(order: Order, now: int)
    requires OrderOk(order) && order.status == Reserved
    ensures var history := order.history + [Move(Some(Reserved), PaymentFailed)];
            Moved(order, order.(status := PaymentFailed, history := history, updatedAt := now), PaymentFailed, now)
  {
  }

  // ---------------------------------------------------------------- table by table

  lemma {:induction false} MovedOrders(orders: seq<Order>, payments: seq<Payment>, o: nat, after: Order,
          payment: Payment, to: OrderStatus, now: int)
    requires OrdersOk(orders, payments) && o < |orders| && Moved(orders[o], after, to, now)
    requires payment == payments[o].(status := payment.status, reference := payment.reference, reason := payment.reason)
    requires PaymentFits(to, payment.status)
    ensures OrdersOk(orders[o := after], payments[o := payment])
  {
  }

  lemma {:induction false} MovedHolds(orders: seq<Order>, holds: seq<Hold>, settled: map<nat, int>, o: nat,
          after: Order, to: OrderStatus, end: HoldStatus, now: int, clock: int)
    requires HoldStatusesOk(orders, holds) && ExpiryOk(orders, holds, settled, clock)
    requires o < |orders| && Moved(orders[o], after, to, now) && now <= clock
    requires (to == Confirmed && end == Committed) || (to == PaymentFailed && end == Released)
    ensures var marked := Mark(holds, ActiveOf(holds, o), end, now);
            HoldStatusesOk(orders[o := after], marked)
                  && ExpiryOk(orders[o := after], marked, settled[o := clock], clock)
  {
    var marked, moved, instants := Mark(holds, ActiveOf(holds, o), end, now), orders[o := after], settled[o := clock];
    forall i | 0 <= i < |marked| ensures TimesOk(marked[i], moved, instants, clock) {
      assert TimesOk(holds[i], orders, settled, clock);
    }
    forall p | 0 <= p < |moved| ensures InstantOk(p, moved[p], instants, clock) {
      assert InstantOk(p, orders[p], settled, clock);
    }
  }

  lemma {:induction false} MovedLines(orders: seq<Order>, holds: seq<Hold>, o: nat, after: Order, to: OrderStatus,
          now: int)
    requires HoldsCoverLines(orders, holds) && o < |orders| && Moved(orders[o], after, to, now)
    ensures HoldsCoverLines(orders[o := after], holds)
  {
  }

  lemma {:induction false} MovedCharges(log: seq<nat>, results: map<nat, PaymentResult>, orders: seq<Order>, o: nat,
          after: Order)
    requires ChargesOk(log, results, orders) && o < |orders| && ResultFits(after.status, results, o)
    ensures ChargesOk(log, results, orders[o := after])
  {
  }

  lemma {:induction false} MovedSagas(sagas: map<nat, Saga>, orders: seq<Order>, origin: seq<Key>,
          results: map<nat, PaymentResult>, o: nat, after: Order)
    requires SagasOk(sagas, orders, origin, results) && o < |orders|
    ensures SagasOk(sagas - {o}, orders[o := after], origin, results)
  {
  }

  lemma {:induction false} MovedAnswers(orders: seq<Order>, payments: seq<Payment>, results: map<nat, PaymentResult>,
          o: nat, after: Order, payment: Payment)
    requires AnswersOk(orders, payments, results) && o < |orders| && AnswerKept(o, after, payment, results)
    ensures AnswersOk(orders[o := after], payments[o := payment], results)
  {
    var moved, paid := orders[o := after], payments[o := payment];
    forall p | 0 <= p < |orders| ensures AnswerKept(p, moved[p], paid[p], results) {
      assert AnswerKept(p, orders[p], payments[p], results);
    }
  }

  /** The saga's key after tx2: completed with this order's answer, or failed. */
  predicate KeyAfter(row: KeyRow, after: KeyRow, o: nat, order: Order, payment: Payment) {
    && after.hash == row.hash && after.order == Some(o)
    && (order.status == Confirmed ==>
          after == KeyRow(row.hash, Completed, Some(Render(o, order, payment.reference)), Some(201), Some(o)))
    && (order.status == PaymentFailed ==> after.status == FailedKey && after.body == None && after.code == None)
  }

  lemma {:induction false} MovedKeys(keys: Keys, orders: seq<Order>, payments: seq<Payment>, origin: seq<Key>, o: nat,
          after: Order, payment: Payment, row: KeyRow, to: OrderStatus, now: int)
    requires KeysOk(keys, orders, payments, origin) && o < |orders| && Moved(orders[o], after, to, now)
    requires KeyAfter(keys[origin[o]], row, o, after, payment)
    ensures KeysOk(keys[origin[o] := row], orders[o := after], payments[o := payment], origin)
  {
  }

  /** No event names an order that is not confirmed. */
  lemma {:induction false} UnannouncedOrder(events: seq<Event>, orders: seq<Order>, payments: seq<Payment>, o: nat,
          e: nat)
    requires EventsOk(events, orders, payments) && o < |orders| && orders[o].status != Confirmed && e < |events|
    ensures events[e].payload.order != o
  {
    CountedEvent(events, e);
  }

  /** Moving an order no event names leaves the events right about every other order. */
  lemma {:induction false} UnannouncedMove(events: seq<Event>, orders: seq<Order>, payments: seq<Payment>, o: nat,
          after: Order, payment: Payment)
    requires EventsOk(events, orders, payments) && o < |orders| && orders[o].status != Confirmed
    ensures forall e :: 0 <= e < |events| ==>
              var p := events[e].payload.order;
              && p < |orders| && p != o && events[e].createdAt == orders[o := after][p].updatedAt
              && events[e].payload == Announcement(p, orders[o := after][p], payments[o := payment][p].reference)
    ensures forall p :: 0 <= p < |orders| && p != o ==>
          EventCount(events, p) == if orders[o := after][p].status == Confirmed then 1 else 0
    ensures EventCount(events, o) == 0
  {
    forall e | 0 <= e < |events| ensures events[e].payload.order != o {
      UnannouncedOrder(events, orders, payments, o, e);
    }
  }

  lemma {:induction false} FailedEvents(events: seq<Event>, orders: seq<Order>, payments: seq<Payment>, o: nat,
          after: Order, payment: Payment)
    requires EventsOk(events, orders, payments) && o < |orders| && orders[o].status != Confirmed
    requires after.status != Confirmed
    ensures EventsOk(events, orders[o := after], payments[o := payment])
  {
    UnannouncedMove(events, orders, payments, o, after, payment);
  }

  lemma {:induction false} ConfirmedEvents(events: seq<Event>, orders: seq<Order>, payments: seq<Payment>, o: nat,
          after: Order, payment: Payment, now: int)
    requires EventsOk(events, orders, payments) && o < |orders| && orders[o].status != Confirmed
    requires after.status == Confirmed && after.updatedAt == now
    ensures EventsOk(Add(events, Announcement(o, after, payment.reference), now), orders[o := after],
          payments[o := payment])
  {
    var more := Add(events, Announcement(o, after, payment.reference), now);
    UnannouncedMove(events, orders, payments, o, after, payment);
    assert more[..|more| - 1] == events;
  }

  lemma {:induction false} CountedEvent(events: seq<Event>, e: nat)
    requires e < |events|
    ensures EventCount(events, events[e].payload.order) > 0
  {
    if e < |events| - 1 {
      CountedEvent(events[..|events| - 1], e);
    }
  }

  // ---------------------------------------------------------------- the three outcomes

  /** Complete, in a reachable state: both transitions match and every table takes its new row. */
  lemma {:induction false} CompleteIs(db: Tables, o: nat, key: Key, result: PaymentResult, now: int)
    returns (after: Order, payment: Payment)
    requires OrdersOk(db.orders, db.payments) && o < |db.orders| && db.orders[o].status == Reserved && key in db.keys
    ensures Moved(db.orders[o], after, Confirmed, now)
    ensures payment == db.payments[o].(status := PaymentSucceeded, reference := result.reference)
    ensures Complete(db, o, o, key, result, now) ==
            Ok(Tables(CommitHolds(db.books, o, now),
                      db.keys[key := KeyRow(db.keys[key].hash, Completed, Some(Render(o, after, result.reference)),
                            Some(201), Some(o))],
                      db.orders[o := after], db.payments[o := payment],
                      Add(db.events, Announcement(o, after, result.reference), now)))
  {
    var order := db.orders[o];
    ConfirmedMove(order, now);
    var history := order.history + [Move(Some(Reserved), Paid)] + [Move(Some(Paid), Confirmed)];
    after := order.(status := Confirmed, history := history, updatedAt := now);
    payment := db.payments[o].(status := PaymentSucceeded, reference := result.reference);
    var paid := Transition(db.orders, o, Reserved, Paid, now);
    assert paid.Ok? && paid.value[o].status == Paid;
    assert paid.value[o := after] == db.orders[o := after];
    assert Transition(paid.value, o, Paid, Confirmed, now) == Ok(paid.value[o := after]);
  }

  lemma {:induction false} CompensateIs(db: Tables, base: Inventory, o: nat, key: Key, result: PaymentResult,
          now: int)
    returns (after: Order, payment: Payment)
    requires Conserved(db.books, base)
    requires OrdersOk(db.orders, db.payments) && o < |db.orders| && db.orders[o].status == Reserved && key in db.keys
    ensures Moved(db.orders[o], after, PaymentFailed, now)
    ensures payment == db.payments[o].(status := PaymentDeclined, reason := Some(ReasonOr(result.reason, "declined")))
    ensures Release(db.books, o, now).Ok?
    ensures Compensate(db, o, o, key, result, now) ==
            Ok(Tables(Release(db.books, o, now).value,
                      db.keys[key := db.keys[key].(status := FailedKey, body := None, code := None, order := Some(o))],
                      db.orders[o := after], db.payments[o := payment], db.events))
  {
    var order := db.orders[o];
    FailedMove(order, now);
    SettleNeverRaises(db.books, base, ActiveOf(db.books.holds, o), Released, now);
    var history := order.history + [Move(Some(Reserved), PaymentFailed)];
    after := order.(status := PaymentFailed, history := history, updatedAt := now);
    payment := db.payments[o].(status := PaymentDeclined, reason := Some(ReasonOr(result.reason, "declined")));
    assert Transition(db.orders, o, Reserved, PaymentFailed, now) == Ok(db.orders[o := after]);
  }

  lemma {:induction false} AnnotatedOk(db: Tables, origin: seq<Key>, results: map<nat, PaymentResult>, o: nat)
    requires OrdersOk(db.orders, db.payments) && KeysOk(db.keys, db.orders, db.payments, origin)
    requires EventsOk(db.events, db.orders, db.payments) && AnswersOk(db.orders, db.payments, results)
    requires o < |db.orders| && db.orders[o].status == Reserved && o in results && results[o].outcome == Unknown
    ensures var payments := AnnotatePayment(db.payments, o, ReasonOr(results[o].reason, "unknown"));
            && OrdersOk(db.orders, payments) && KeysOk(db.keys, db.orders, payments, origin)
            && EventsOk(db.events, db.orders, payments) && AnswersOk(db.orders, payments, results)
  {
    var payments := AnnotatePayment(db.payments, o, ReasonOr(results[o].reason, "unknown"));
    forall p | 0 <= p < |db.orders|
      ensures OriginOk(p, db.orders[p], payments[p], origin[p], db.keys)
      ensures AnswerKept(p, db.orders[p], payments[p], results)
    {
      assert OriginOk(p, db.orders[p], db.payments[p], origin[p], db.keys);
      assert AnswerKept(p, db.orders[p], db.payments[p], results);
    }
  }

  /** tx2 never raises in a state that satisfies the invariant: every compare-and-swap it makes
      finds the status it expects, and the hand-back finds the stock. */
  lemma {:induction false} Tx2NeverRaises(w: World, base: Inventory, o: nat, started: int)
    requires Inv(w, base) && o in w.sagas && w.sagas[o].charged.Some?
    ensures Tx2Of(w, o, started).Ok?
  {
    var saga := w.sagas[o];
    assert SagaOk(o, saga, w.db.orders, w.origin, w.results);
    assert OriginOk(o, w.db.orders[o], w.db.payments[o], w.origin[o], w.db.keys);
    match saga.charged.value.outcome
    case Succeeds => var _, _ := CompleteIs(w.db, o, saga.key, saga.charged.value, started);
    case Declines => var _, _ := CompensateIs(w.db, base, o, saga.key, saga.charged.value, started);
    case Unknown =>
  }

  ghost predicate BooksOk(books: Books, base: Inventory, orders: seq<Order>, settled: map<nat, int>, clock: int) {
    && Conserved(books, base) && UniqueHolds(books.holds)
    && HoldStatusesOk(orders, books.holds) && HoldsCoverLines(orders, books.holds)
    && ExpiryOk(orders, books.holds, settled, clock)
  }

  lemma {:induction false} MarkedBooks(orders: seq<Order>, holds: seq<Hold>, settled: map<nat, int>, o: nat,
          after: Order, to: OrderStatus, end: HoldStatus, now: int, clock: int)
    requires UniqueHolds(holds) && HoldStatusesOk(orders, holds) && HoldsCoverLines(orders, holds)
    requires ExpiryOk(orders, holds, settled, clock) && now <= clock
    requires o < |orders| && Moved(orders[o], after, to, now)
    requires (to == Confirmed && end == Committed) || (to == PaymentFailed && end == Released)
    ensures var marked := Mark(holds, ActiveOf(holds, o), end, now);
            && UniqueHolds(marked) && HoldStatusesOk(orders[o := after], marked)
            && HoldsCoverLines(orders[o := after], marked)
            && ExpiryOk(orders[o := after], marked, settled[o := clock], clock)
  {
    MarkedCoverLines(orders, holds, ActiveOf(holds, o), end, now);
    MovedLines(orders, Mark(holds, ActiveOf(holds, o), end, now), o, after, to, now);
    MovedHolds(orders, holds, settled, o, after, to, end, now, clock);
  }

  lemma {:induction false} CommittedBooks(books: Books, base: Inventory, orders: seq<Order>, settled: map<nat, int>,
          o: nat, after: Order, now: int, clock: int)
    requires BooksOk(books, base, orders, settled, clock) && now <= clock
    requires o < |orders| && Moved(orders[o], after, Confirmed, now)
    ensures BooksOk(CommitHolds(books, o, now), base, orders[o := after], settled[o := clock], clock)
  {
    CommitConserves(books, base, o, now);
    MarkedBooks(orders, books.holds, settled, o, after, Confirmed, Committed, now, clock);
  }

  lemma {:induction false} ReleasedStock(books: Books, base: Inventory, o: nat, now: int)
    requires Conserved(books, base)
    ensures Release(books, o, now).Ok? && Conserved(Release(books, o, now).value, base)
    ensures Release(books, o, now).value.holds == Mark(books.holds, ActiveOf(books.holds, o), Released, now)
  {
    SettleConserves(books, base, ActiveOf(books.holds, o), Released, now);
    assert StillActive(books.holds, ActiveOf(books.holds, o)) == ActiveOf(books.holds, o);
  }

  lemma {:induction false} ReleasedBooks(books: Books, base: Inventory, orders: seq<Order>, settled: map<nat, int>,
          o: nat, after: Order, now: int, clock: int)
    requires BooksOk(books, base, orders, settled, clock) && now <= clock
    requires o < |orders| && Moved(orders[o], after, PaymentFailed, now)
    ensures Release(books, o, now).Ok?
    ensures BooksOk(Release(books, o, now).value, base, orders[o := after], settled[o := clock], clock)
  {
    ReleasedStock(books, base, o, now);
    MarkedBooks(orders, books.holds, settled, o, after, PaymentFailed, Released, now, clock);
  }

  /** The rows tx2 writes when it moves order o to its end, in a transaction started at `started`. */
  ghost predicate Ends(w: World, o: nat, started: int, after: Order, payment: Payment, row: KeyRow, to: OrderStatus) {
    && o in w.sagas && o < |w.db.orders| && o < |w.db.payments| && o < |w.origin| && w.origin[o] in w.db.keys
    && Moved(w.db.orders[o], after, to, started)
    && payment == w.db.payments[o].(status := payment.status, reference := payment.reference, reason := payment.reason)
    && PaymentFits(to, payment.status) && ResultFits(to, w.results, o) && AnswerKept(o, after, payment, w.results)
    && KeyAfter(w.db.keys[w.origin[o]], row, o, after, payment)
  }

  /** The rows of the order, its payment, its key and its saga at the end of the saga. */
  lemma {:induction false} MovedRows(w: World, base: Inventory, o: nat, started: int, after: Order, payment: Payment,
          row: KeyRow, to: OrderStatus)
    requires Inv(w, base) && Ends(w, o, started, after, payment, row, to)
    ensures var orders, payments, keys := w.db.orders[o := after], w.db.payments[o := payment],
          w.db.keys[w.origin[o] := row];
            && OrdersOk(orders, payments) && KeysOk(keys, orders, payments, w.origin)
            && ChargesOk(w.log, w.results, orders) && AnswersOk(orders, payments, w.results)
            && SagasOk(w.sagas - {o}, orders, w.origin, w.results)
  {
    MovedOrders(w.db.orders, w.db.payments, o, after, payment, to, started);
    MovedKeys(w.db.keys, w.db.orders, w.db.payments, w.origin, o, after, payment, row, to, started);
    MovedCharges(w.log, w.results, w.db.orders, o, after);
    MovedAnswers(w.db.orders, w.db.payments, w.results, o, after, payment);
    MovedSagas(w.sagas, w.db.orders, w.origin, w.results, o, after);
  }

  /** The world when saga o has ended, leaving `db`. */
  function Settled(w: World, o: nat, db: Tables): World {
    w.(sagas := w.sagas - {o}, settled := w.settled[o := w.clock], db := db)
  }

  /** What tx2 must leave behind. */
  ghost predicate Finished(w: World, base: Inventory, o: nat, db: Tables) {
    && BooksOk(db.books, base, db.orders, w.settled[o := w.clock], w.clock)
    && OrdersOk(db.orders, db.payments) && KeysOk(db.keys, db.orders, db.payments, w.origin)
    && ChargesOk(w.log, w.results, db.orders) && AnswersOk(db.orders, db.payments, w.results)
    && SagasOk(w.sagas - {o}, db.orders, w.origin, w.results)
    && EventsOk(db.events, db.orders, db.payments) && DeskInv(Desk(db.events, w.wire))
    && forall k :: k in w.db.keys ==> k in db.keys && db.keys[k].hash == w.db.keys[k].hash
  }

  lemma {:induction false} FinishedKeeps(w: World, base: Inventory, o: nat, db: Tables)
    requires RetriesOk(w.retries, w.db.keys, w.clock) && Finished(w, base, o, db)
    ensures Inv(Settled(w, o, db), base)
  {
  }

  /** What the invariant says about a saga that is about to end. */
  lemma {:induction false} SagaFacts(w: World, base: Inventory, o: nat)
    requires Inv(w, base) && o in w.sagas && w.sagas[o].charged.Some?
    ensures o < |w.db.orders| == |w.db.payments| == |w.origin| && w.db.orders[o].status == Reserved
    ensures w.sagas[o].payment == o && w.sagas[o].key == w.origin[o] && w.origin[o] in w.db.keys
    ensures o in w.results && w.results[o] == w.sagas[o].charged.value
    ensures w.db.payments[o].reference == None && (w.results[o].outcome != Unknown ==> w.db.payments[o].reason == None)
    ensures BooksOk(w.db.books, base, w.db.orders, w.settled, w.clock)
    ensures Conserved(w.db.books, base) && OrdersOk(w.db.orders, w.db.payments)
  {
    assert SagaOk(o, w.sagas[o], w.db.orders, w.origin, w.results);
    assert OriginOk(o, w.db.orders[o], w.db.payments[o], w.origin[o], w.db.keys);
    assert AnswerKept(o, w.db.orders[o], w.db.payments[o], w.results);
  }

  ghost function Ended(w: World, o: nat, after: Order, payment: Payment, row: KeyRow, books: Books,
          events: seq<Event>): Tables
    requires o < |w.db.orders| && o < |w.db.payments| && o < |w.origin|
  {
    Tables(books, w.db.keys[w.origin[o] := row], w.db.orders[o := after], w.db.payments[o := payment], events)
  }

  lemma {:induction false} EndedFinishes(w: World, base: Inventory, o: nat, started: int, after: Order,
          payment: Payment, row: KeyRow, to: OrderStatus, books: Books, events: seq<Event>)
    requires Inv(w, base) && Ends(w, o, started, after, payment, row, to)
    requires BooksOk(books, base, w.db.orders[o := after], w.settled[o := w.clock], w.clock)
    requires EventsOk(events, w.db.orders[o := after], w.db.payments[o := payment]) && DeskInv(Desk(events, w.wire))
    ensures Finished(w, base, o, Ended(w, o, after, payment, row, books, events))
  {
    hide BooksOk, EventsOk, DeskInv, Inv;
    MovedRows(w, base, o, started, after, payment, row, to);
  }

  /** The saga of order o has the given answer, and a tx2 that started at `started` may end it. */
  ghost predicate Ending(w: World, base: Inventory, o: nat, started: int, outcome: Checkout.Outcome) {
    && Inv(w, base) && o in w.sagas && w.sagas[o].charged.Some? && w.sagas[o].charged.value.outcome == outcome
    && started <= w.clock
  }

  /** What Complete leaves. */
  ghost function CompletedDb(w: World, o: nat, started: int, after: Order, payment: Payment, row: KeyRow): Tables
    requires o < |w.db.orders| && o < |w.db.payments| && o < |w.origin|
  {
    Ended(w, o, after, payment, row, CommitHolds(w.db.books, o, started),
          Add(w.db.events, Announcement(o, after, payment.reference), started))
  }

  lemma {:induction false} CompleteEnds(w: World, base: Inventory, o: nat, started: int)
    returns (after: Order, payment: Payment, row: KeyRow)
    requires Ending(w, base, o, started, Succeeds)
    ensures Ends(w, o, started, after, payment, row, Confirmed)
    ensures Tx2Of(w, o, started) == Ok(CompletedDb(w, o, started, after, payment, row))
  {
    hide Inv, BooksOk, Conserved, OrdersOk, Complete;
    SagaFacts(w, base, o);
    var saga, result := w.sagas[o], w.sagas[o].charged.value;
    after, payment := CompleteIs(w.db, o, saga.key, result, started);
    row := KeyRow(w.db.keys[saga.key].hash, Completed, Some(Render(o, after, result.reference)), Some(201), Some(o));
  }

  lemma {:induction false} CompensateEnds(w: World, base: Inventory, o: nat, started: int)
    returns (after: Order, payment: Payment, row: KeyRow)
    requires Ending(w, base, o, started, Declines)
    ensures Ends(w, o, started, after, payment, row, PaymentFailed)
    ensures Release(w.db.books, o, started).Ok?
    ensures Tx2Of(w, o, started) ==
            Ok(Ended(w, o, after, payment, row, Release(w.db.books, o, started).value, w.db.events))
  {
    hide Inv, BooksOk, Conserved, OrdersOk, Compensate, Release;
    SagaFacts(w, base, o);
    var saga, result := w.sagas[o], w.sagas[o].charged.value;
    after, payment := CompensateIs(w.db, base, o, saga.key, result, started);
    row := w.db.keys[saga.key].(status := FailedKey, body := None, code := None, order := Some(o));
  }

  lemma {:induction false} CompletedTables(w: World, base: Inventory, o: nat, started: int, after: Order,
          payment: Payment, row: KeyRow)
    requires Inv(w, base) && Ends(w, o, started, after, payment, row, Confirmed) && started <= w.clock
    ensures Finished(w, base, o, CompletedDb(w, o, started, after, payment, row))
  {
    var books, events := CommitHolds(w.db.books, o, started),
          Add(w.db.events, Announcement(o, after, payment.reference), started);
    CommittedBooks(w.db.books, base, w.db.orders, w.settled, o, after, started, w.clock);
    ConfirmedEvents(w.db.events, w.db.orders, w.db.payments, o, after, payment, started);
    AddKeeps(Desk(w.db.events, w.wire), Announcement(o, after, payment.reference), started);
    EndedFinishes(w, base, o, started, after, payment, row, Confirmed, books, events);
  }

  lemma {:induction false} CompensatedTables(w: World, base: Inventory, o: nat, started: int, after: Order,
          payment: Payment, row: KeyRow)
    requires Inv(w, base) && Ends(w, o, started, after, payment, row, PaymentFailed) && started <= w.clock
    ensures Release(w.db.books, o, started).Ok?
    ensures Finished(w, base, o, Ended(w, o, after, payment, row, Release(w.db.books, o, started).value, w.db.events))
  {
    ReleasedBooks(w.db.books, base, w.db.orders, w.settled, o, after, started, w.clock);
    FailedEvents(w.db.events, w.db.orders, w.db.payments, o, after, payment);
    EndedFinishes(w, base, o, started, after, payment, row, PaymentFailed, Release(w.db.books, o, started).value,
          w.db.events);
  }

  lemma {:induction false} UnresolvedRest(w: World, base: Inventory, o: nat)
    requires Inv(w, base) && o < |w.db.orders| && w.db.orders[o].status == Reserved
    ensures SagasOk(w.sagas - {o}, w.db.orders, w.origin, w.results)
    ensures ExpiryOk(w.db.orders, w.db.books.holds, w.settled[o := w.clock], w.clock)
    ensures ChargesOk(w.log, w.results, w.db.orders) && DeskInv(Desk(w.db.events, w.wire))
  {
    var instants := w.settled[o := w.clock];
    forall p | 0 <= p < |w.db.orders| ensures InstantOk(p, w.db.orders[p], instants, w.clock) {
      assert InstantOk(p, w.db.orders[p], w.settled, w.clock);
    }
    forall i | 0 <= i < |w.db.books.holds| ensures TimesOk(w.db.books.holds[i], w.db.orders, instants, w.clock) {
      assert TimesOk(w.db.books.holds[i], w.db.orders, w.settled, w.clock);
    }
  }

  lemma {:induction false} RowsFact(w: World, base: Inventory)
    requires Inv(w, base)
    ensures OrdersOk(w.db.orders, w.db.payments) && KeysOk(w.db.keys, w.db.orders, w.db.payments, w.origin)
    ensures EventsOk(w.db.events, w.db.orders, w.db.payments) && AnswersOk(w.db.orders, w.db.payments, w.results)
  {
  }

  lemma {:induction false} UnresolvedFinishes(w: World, base: Inventory, o: nat, started: int)
    requires Ending(w, base, o, started, Unknown)
    ensures Tx2Of(w, o, started).Ok? && Finished(w, base, o, Tx2Of(w, o, started).value)
  {
    hide Inv, OrdersOk, KeysOk, EventsOk, AnswersOk, ExpiryOk, SagasOk, ChargesOk, DeskInv, HoldStatusesOk,
          HoldsCoverLines, Conserved;
    SagaFacts(w, base, o);
    RowsFact(w, base);
    AnnotatedOk(w.db, w.origin, w.results, o);
    UnresolvedRest(w, base, o);
  }

  /** Whatever the provider answered, tx2 ends well. */
  lemma {:induction false} Tx2Finishes(w: World, base: Inventory, o: nat, started: int)
    requires Inv(w, base) && o in w.sagas && w.sagas[o].charged.Some? && started <= w.clock
    ensures Tx2Of(w, o, started).Ok? && Finished(w, base, o, Tx2Of(w, o, started).value)
  {
    hide Finished, Inv, Tx2Of, Ends, Ended, CompletedDb;
    match w.sagas[o].charged.value.outcome
    case Succeeds =>
      var after, payment, row := CompleteEnds(w, base, o, started);
      CompletedTables(w, base, o, started, after, payment, row);
    case Declines =>
      var after, payment, row := CompensateEnds(w, base, o, started);
      CompensatedTables(w, base, o, started, after, payment, row);
    case Unknown => UnresolvedFinishes(w, base, o, started);
  }

  lemma {:induction false} Settle2Is(w: World, o: nat, started: int)
    requires MaySettle(w, o, started) && Tx2Of(w, o, started).Ok?
    ensures Next(w, Settle2(o, started)) == Settled(w, o, Tx2Of(w, o, started).value)
  {
  }

  lemma {:induction false} RetriesFact(w: World, base: Inventory)
    requires Inv(w, base)
    ensures RetriesOk(w.retries, w.db.keys, w.clock)
  {
  }

  lemma {:induction false} Settle2Keeps(w: World, base: Inventory, a: Action)
    requires Inv(w, base) && a.Settle2?
    ensures Inv(Next(w, a), base)
  {
    hide Inv, Finished, Tx2Of;
    if MaySettle(w, a.order, a.started) {
      Tx2Finishes(w, base, a.order, a.started);
      Settle2Is(w, a.order, a.started);
      RetriesFact(w, base);
      FinishedKeeps(w, base, a.order, Tx2Of(w, a.order, a.started).value);
    }
  }
}
