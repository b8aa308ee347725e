/** What holds of the database, the sagas and the provider at every commit point. */
module CheckoutInvariant {
  import opened Common
  import opened Ledger
  import opened Settlement
  import opened OrderState
  import opened Selection
  import opened Outbox
  import opened Checkout

  // ---------------------------------------------------------------- the invariant, table by table

  predicate PaymentFits(o: OrderStatus, p: PaymentStatus) {
    || (o == Reserved && p == PaymentPending)
    || (o == Confirmed && p == PaymentSucceeded)
    || (o == PaymentFailed && p == PaymentDeclined)
  }

  /** At a commit point an order is reserved, confirmed or payment_failed; `paid` is never seen. */
  predicate OrderOk(order: Order) {
    && Timeline(order.history) && Current(order.history) == order.status
    && (order.status == Reserved || order.status == Confirmed || order.status == PaymentFailed)
    && order.total == LinesTotal(order.lines) && order.total > 0
    && forall l :: 0 <= l < |order.lines| ==> order.lines[l].currency == order.currency
  }

  predicate PaymentOk(id: nat, order: Order, payment: Payment) {
    && payment.order == id && payment.amount == order.total && payment.currency == order.currency
    && PaymentFits(order.status, payment.status)
  }

  predicate OrdersOk(orders: seq<Order>, payments: seq<Payment>) {
    && |payments| == |orders|
    && forall o :: 0 <= o < |orders| ==> OrderOk(orders[o]) && PaymentOk(o, orders[o], payments[o])
  }

  predicate HoldFits(o: OrderStatus, h: HoldStatus) {
    || h == Expired
    || (o == Reserved && h == Active)
    || (o == Confirmed && h == Committed)
    || (o == PaymentFailed && h == Released)
  }

  function LineEntries(order: Order): (es: seq<Update>)
    ensures |es| == |order.lines|
    ensures forall l :: 0 <= l < |es| ==>
          es[l] == Update(Sku(order.warehouse, order.lines[l].product), order.lines[l].quantity)
  {
    seq(|order.lines|, l requires 0 <= l < |order.lines| =>
      Update(Sku(order.warehouse, order.lines[l].product), order.lines[l].quantity))
  }

  predicate HoldStatusesOk(orders: seq<Order>, holds: seq<Hold>) {
    forall i :: 0 <= i < |holds| ==>
          holds[i].order < |orders| && HoldFits(orders[holds[i].order].status, holds[i].status)
  }

  /** Each order has one hold per line, for the line's quantity, at the order's warehouse. */
  predicate HoldsCoverLines(orders: seq<Order>, holds: seq<Hold>) {
    forall o :: 0 <= o < |orders| ==> EntryBag(holds, o) == multiset(LineEntries(orders[o]))
  }

  /** An order is stamped with the start of the transaction that last moved it, which is no later than
      the instant that transaction took effect. */
  predicate InstantOk(id: nat, order: Order, settled: map<nat, int>, clock: int) {
    && order.updatedAt <= clock
    && (order.status != Reserved ==> id in settled && order.updatedAt <= settled[id] <= clock)
  }

  /** An active hold has no end yet. A hold expires only after its time, by a sweep that started after
      it; once its order has moved on, that was before the move took effect. A hold that was committed
      or released carries the stamp of its order's last move. */
  predicate TimesOk(h: Hold, orders: seq<Order>, settled: map<nat, int>, clock: int) {
    h.order < |orders| ==>
      match h.status
      case Active => h.releasedAt == None
      case Expired =>
        && h.releasedAt.Some? && h.expiresAt < h.releasedAt.value <= clock
        && (orders[h.order].status != Reserved ==> h.order in settled && h.expiresAt < settled[h.order])
      case _ => h.releasedAt == Some(orders[h.order].updatedAt)
  }

  predicate ExpiryOk(orders: seq<Order>, holds: seq<Hold>, settled: map<nat, int>, clock: int) {
    && (forall o :: 0 <= o < |orders| ==> InstantOk(o, orders[o], settled, clock))
    && forall i :: 0 <= i < |holds| ==> TimesOk(holds[i], orders, settled, clock)
  }

  predicate KeyRowOk(key: Key, row: KeyRow, orders: seq<Order>, origin: seq<Key>) {
    if row.status == Completed then
      row.order.Some? && row.order.value < |orders| && row.order.value < |origin| &&
      origin[row.order.value] == key && orders[row.order.value].status == Confirmed
    else row.body == None && row.code == None
  }

  /** What an order's status says about the key it came from. */
  predicate OriginOk(id: nat, order: Order, payment: Payment, key: Key, keys: Keys) {
    && key in keys
    && (order.status == Reserved ==> keys[key].status == InProgress)
    && (order.status == Confirmed ==>
          keys[key] == KeyRow(keys[key].hash, Completed, Some(Render(id, order, payment.reference)), Some(201),
                Some(id)))
  }

  predicate KeysOk(keys: Keys, orders: seq<Order>, payments: seq<Payment>, origin: seq<Key>) {
    && |origin| == |orders| == |payments|
    && (forall k :: k in keys ==> KeyRowOk(k, keys[k], orders, origin))
    && (forall o :: 0 <= o < |orders| ==> OriginOk(o, orders[o], payments[o], origin[o], keys))
    && forall o, later :: 0 <= o < later < |orders| && origin[o] == origin[later] ==> orders[o].status == PaymentFailed
  }

  function EventCount(events: seq<Event>, o: nat): nat {
    if events == [] then 0
    else EventCount(events[..|events| - 1], o) + if events[|events| - 1].payload.order == o then 1 else 0
  }

  predicate EventsOk(events: seq<Event>, orders: seq<Order>, payments: seq<Payment>) {
    && |payments| == |orders|
    && (forall e :: 0 <= e < |events| ==>
          var o := events[e].payload.order;
          && o < |orders| && events[e].payload == Announcement(o, orders[o], payments[o].reference)
          && events[e].createdAt == orders[o].updatedAt)
    && forall o :: 0 <= o < |orders| ==> EventCount(events, o) == if orders[o].status == Confirmed then 1 else 0
  }

  predicate ResultFits(o: OrderStatus, results: map<nat, PaymentResult>, id: nat) {
    && (o == Confirmed ==> id in results && results[id].outcome == Succeeds)
    && (o == PaymentFailed ==> id in results && results[id].outcome == Declines)
  }

  predicate ChargesOk(log: seq<nat>, results: map<nat, PaymentResult>, orders: seq<Order>) {
    && (forall i :: 0 <= i < |log| ==> log[i] in results)
    && (forall o :: o in results ==> o in log && o < |orders|)
    && (forall i, j :: 0 <= i < j < |log| ==> log[i] != log[j])
    && forall o :: 0 <= o < |orders| ==> ResultFits(orders[o].status, results, o)
  }

  /** A payment records what the provider answered, and nothing before it has. */
  predicate AnswerKept(id: nat, order: Order, payment: Payment, results: map<nat, PaymentResult>) {
    && (order.status == Confirmed ==>
          id in results && payment.reference == results[id].reference && payment.reason == None)
    && (order.status == PaymentFailed ==>
          && id in results && payment.reference == None
          && payment.reason == Some(ReasonOr(results[id].reason, "declined")))
    && (order.status == Reserved ==>
          payment.reference == None && (payment.reason == None || LeftUnknown(id, payment, results)))
  }

  /** The provider never said what became of the charge, and the payment says that much. */
  predicate LeftUnknown(id: nat, payment: Payment, results: map<nat, PaymentResult>) {
    && id in results && results[id].outcome == Unknown
    && payment.reason == Some(ReasonOr(results[id].reason, "unknown"))
  }

  predicate AnswersOk(orders: seq<Order>, payments: seq<Payment>, results: map<nat, PaymentResult>) {
    |payments| == |orders| && forall o :: 0 <= o < |orders| ==> AnswerKept(o, orders[o], payments[o], results)
  }

  predicate SagaOk(id: nat, saga: Saga, orders: seq<Order>, origin: seq<Key>, results: map<nat, PaymentResult>) {
    && id < |orders| && id < |origin| && orders[id].status == Reserved
    && saga.key == origin[id] && saga.payment == id
    && (saga.charged.None? ==> id !in results)
    && (saga.charged.Some? ==> id in results && results[id] == saga.charged.value)
  }

  predicate SagasOk(sagas: map<nat, Saga>, orders: seq<Order>, origin: seq<Key>, results: map<nat, PaymentResult>) {
    forall id :: id in sagas ==> SagaOk(id, sagas[id], orders, origin, results)
  }

  predicate RetriesOk(retries: map<nat, Attempt>, keys: Keys, clock: int) {
    forall t :: t in retries ==>
      var req := retries[t].req;
      req.key in keys && keys[req.key].hash == req.hash && DistinctProducts(req.items) && retries[t].started <= clock
  }

  ghost predicate Inv(w: World, base: Inventory) {
    && Conserved(w.db.books, base) && UniqueHolds(w.db.books.holds)
    && OrdersOk(w.db.orders, w.db.payments)
    && HoldStatusesOk(w.db.orders, w.db.books.holds)
    && HoldsCoverLines(w.db.orders, w.db.books.holds)
    && ExpiryOk(w.db.orders, w.db.books.holds, w.settled, w.clock)
    && KeysOk(w.db.keys, w.db.orders, w.db.payments, w.origin)
    && EventsOk(w.db.events, w.db.orders, w.db.payments)
    && ChargesOk(w.log, w.results, w.db.orders)
    && AnswersOk(w.db.orders, w.db.payments, w.results)
    && SagasOk(w.sagas, w.db.orders, w.origin, w.results)
    && RetriesOk(w.retries, w.db.keys, w.clock)
    && DeskInv(Desk(w.db.events, w.wire))
  }

  // ---------------------------------------------------------------- placing an order

  /** What a successful tx1 appends. */
  ghost predicate Placed(db: Tables, after: Tables, req: Request, order: Order, now: int) {
    && OrderOk(order) && order.status == Reserved && order.updatedAt == now
    && LineEntries(order) == Takes(order.warehouse, req.items)
    && after.orders == db.orders + [order]
    && after.payments == db.payments + [Payment(|db.orders|, PaymentPending, order.total, order.currency, None, None)]
    && Reserve(db.books, |db.orders|, order.warehouse, req.items, now + RESERVATION_TTL_SECONDS) == Ok(after.books)
    && after.keys == db.keys && after.events == db.events
  }

  lemma {:induction false} OneCurrency(products: map<int, Product>, items: seq<RequestedItem>, i: nat)
    requires items != [] && i < |items| && forall j :: 0 <= j < |items| ==> items[j].product in products
    requires |Currencies(products, items)| <= 1
    ensures products[items[i].product].currency == products[items[0].product].currency
  {
    var cs := Currencies(products, items);
    var a, b := products[items[0].product].currency, products[items[i].product].currency;
    assert a in cs && b in cs;
    if a != b {
      assert {a, b} <= cs;
      SubsetSize({a, b}, cs);
    }
  }

  lemma {:induction false} PlaceAtIsPlaced(db: Tables, req: Request, shop: Shop, warehouse: int, now: int)
    returns (order: Order)
    requires req.items != [] && forall i :: 0 <= i < |req.items| ==> req.items[i].product in shop.products
    requires |Currencies(shop.products, req.items)| <= 1
    requires PlaceAt(db, req, shop, warehouse, now).Ok?
    ensures Placed(db, PlaceAt(db, req, shop, warehouse, now).value, req, order, now)
    ensures order.customer == req.customer && order.warehouse == warehouse
    ensures order.lines == Lines(shop.products, req.items)
  {
    var lines := Lines(shop.products, req.items);
    var currency := shop.products[req.items[0].product].currency;
    var created := NewOrder(req, shop.products, warehouse, now);
    order := created.(status := Reserved, history := created.history + [Move(Some(Pending), Reserved)]);
    assert (db.orders + [created])[|db.orders| := order] == db.orders + [order];
    assert LineEntries(order) == Takes(warehouse, req.items);
    forall l | 0 <= l < |lines| ensures lines[l].currency == currency { OneCurrency(shop.products, req.items, l); }
    TimelineExtends([Move(None, Pending)], Move(Some(Pending), Reserved));
  }

  lemma {:induction false} PlaceIsPlaced(db: Tables, req: Request, shop: Shop, now: int) returns (order: Order)
    requires Place(db, req, shop, now).Ok?
    ensures Placed(db, Place(db, req, shop, now).value, req, order, now)
    ensures req.items != [] && forall i :: 0 <= i < |req.items| ==> req.items[i].product in shop.products
    ensures order.customer == req.customer && order.lines == Lines(shop.products, req.items)
    ensures Select(shop.products.Keys, shop.seen, shop.warehouses, shop.distance, req.items).Ok?
    ensures order.warehouse == Select(shop.products.Keys, shop.seen, shop.warehouses, shop.distance, req.items).value.id
  {
    var w := Select(shop.products.Keys, shop.seen, shop.warehouses, shop.distance, req.items).value;
    SelectedAreKnown(shop, req.items);
    order := PlaceAtIsPlaced(db, req, shop, w.id, now);
  }

  lemma {:induction false} PlacedHolds(db: Tables, after: Tables, req: Request, order: Order, now: int)
    requires Placed(db, after, req, order, now)
    requires HoldStatusesOk(db.orders, db.books.holds) && HoldsCoverLines(db.orders, db.books.holds)
    ensures HoldStatusesOk(after.orders, after.books.holds) && HoldsCoverLines(after.orders, after.books.holds)
  {
    var n, ttl := |db.orders|, now + RESERVATION_TTL_SECONDS;
    assert FreshOrder(db.books.holds, n);
    ReserveAppends(db.books, n, order.warehouse, req.items, ttl);
    forall i | 0 <= i < |after.books.holds|
      ensures after.books.holds[i].order < |after.orders|
      ensures HoldFits(after.orders[after.books.holds[i].order].status, after.books.holds[i].status)
    {
      if i < |db.books.holds| { assert after.books.holds[i] == db.books.holds[i]; }
    }
    forall o | 0 <= o < |after.orders|
      ensures EntryBag(after.books.holds, o) == multiset(LineEntries(after.orders[o]))
    {
      ReserveAddsHolds(db.books, n, order.warehouse, req.items, ttl, o);
    }
  }

  lemma {:induction false} PlacedExpiry(db: Tables, after: Tables, req: Request, order: Order, now: int,
          settled: map<nat, int>, clock: int)
    requires Placed(db, after, req, order, now) && now <= clock
    requires HoldStatusesOk(db.orders, db.books.holds) && ExpiryOk(db.orders, db.books.holds, settled, clock)
    ensures ExpiryOk(after.orders, after.books.holds, settled, clock)
  {
    ReserveAppends(db.books, |db.orders|, order.warehouse, req.items, now + RESERVATION_TTL_SECONDS);
    forall i | 0 <= i < |after.books.holds| ensures TimesOk(after.books.holds[i], after.orders, settled, clock) {
      if i < |db.books.holds| {
        assert after.books.holds[i] == db.books.holds[i] && TimesOk(db.books.holds[i], db.orders, settled, clock);
      }
    }
    forall o | 0 <= o < |after.orders| ensures InstantOk(o, after.orders[o], settled, clock) {
      if o < |db.orders| {
        assert InstantOk(o, db.orders[o], settled, clock);
      }
    }
  }

  /** `keys` after taking key k: fresh, or reclaimed from failed. A reclaimed row still names the order
      that failed. */
  predicate TakenFrom(before: Keys, keys: Keys, k: Key) {
    && k in keys && keys[k].status == InProgress && keys[k].body == None && keys[k].code == None
    && (forall j :: j in before ==> j in keys && keys[j].hash == before[j].hash && (j != k ==> keys[j] == before[j]))
    && (forall j :: j in keys && j != k ==> j in before)
    && (k in before ==> before[k].status == FailedKey && keys[k].order == before[k].order)
    && (k !in before ==> keys[k].order == None)
  }

  lemma {:induction false} PlacedKeys(db: Tables, keys: Keys, k: Key, order: Order, payment: Payment, origin: seq<Key>)
    requires KeysOk(db.keys, db.orders, db.payments, origin) && TakenFrom(db.keys, keys, k) && order.status == Reserved
    requires forall o :: 0 <= o < |db.orders| ==> OrderOk(db.orders[o])
    ensures KeysOk(keys, db.orders + [order], db.payments + [payment], origin + [k])
  {
    var orders, payments, from := db.orders + [order], db.payments + [payment], origin + [k];
    forall j | j in keys ensures KeyRowOk(j, keys[j], orders, from) {
      assert j in db.keys ==> KeyRowOk(j, db.keys[j], db.orders, origin);
    }
    forall o | 0 <= o < |orders| ensures OriginOk(o, orders[o], payments[o], from[o], keys) {
      assert o < |db.orders| ==> OriginOk(o, db.orders[o], db.payments[o], origin[o], db.keys);
    }
  }

  lemma {:induction false} NoEventsFor(events: seq<Event>, o: nat)
    requires forall e :: 0 <= e < |events| ==> events[e].payload.order != o
    ensures EventCount(events, o) == 0
  {
    if events != [] {
      NoEventsFor(events[..|events| - 1], o);
    }
  }

  lemma {:induction false} PlacedEvents(events: seq<Event>, orders: seq<Order>, payments: seq<Payment>, order: Order,
          payment: Payment)
    requires EventsOk(events, orders, payments) && order.status == Reserved
    ensures EventsOk(events, orders + [order], payments + [payment])
  {
    NoEventsFor(events, |orders|);
  }

  lemma {:induction false} PlacedCharges(log: seq<nat>, results: map<nat, PaymentResult>, orders: seq<Order>,
          order: Order)
    requires ChargesOk(log, results, orders) && order.status == Reserved
    ensures ChargesOk(log, results, orders + [order])
  {
  }

  lemma {:induction false} PlacedAnswers(orders: seq<Order>, payments: seq<Payment>, results: map<nat, PaymentResult>,
          order: Order, payment: Payment)
    requires AnswersOk(orders, payments, results) && order.status == Reserved
    requires payment.reference == None && payment.reason == None
    ensures AnswersOk(orders + [order], payments + [payment], results)
  {
    forall o | 0 <= o < |orders| ensures AnswerKept(o, orders[o], payments[o], results) {}
  }

  lemma {:induction false} PlacedSagas(sagas: map<nat, Saga>, orders: seq<Order>, origin: seq<Key>,
          results: map<nat, PaymentResult>, order: Order, k: Key, since: int)
    requires SagasOk(sagas, orders, origin, results) && order.status == Reserved && |origin| == |orders|
    requires |orders| !in results
    ensures SagasOk(sagas[|orders| := Saga(k, |orders|, None, since)], orders + [order], origin + [k], results)
  {
  }

  /** The parts of a placed world, put together. */
  lemma {:induction false} Tx1PlacedKeeps(w: World, base: Inventory, keys: Keys, req: Request, started: int,
          after: Tables, order: Order)
    requires Inv(w, base) && TakenFrom(w.db.keys, keys, req.key) && started <= w.clock
    requires Placed(w.db.(keys := keys), after, req, order, started)
    ensures Inv(w.(db := after, origin := w.origin + [req.key],
                   sagas := w.sagas[|w.db.orders| := Saga(req.key, |w.db.payments|, None, w.clock)]), base)
  {
    var db := w.db.(keys := keys);
    var payment := Payment(|db.orders|, PaymentPending, order.total, order.currency, None, None);
    ReserveConserves(w.db.books, base, |w.db.orders|, order.warehouse, req.items, started + RESERVATION_TTL_SECONDS);
    PlacedUnique(db, after, req, order, started);
    PlacedHolds(db, after, req, order, started);
    PlacedExpiry(db, after, req, order, started, w.settled, w.clock);
    PlacedKeys(w.db, keys, req.key, order, payment, w.origin);
    PlacedEvents(w.db.events, w.db.orders, w.db.payments, order, payment);
    PlacedCharges(w.log, w.results, w.db.orders, order);
    PlacedAnswers(w.db.orders, w.db.payments, w.results, order, payment);
    PlacedSagas(w.sagas, w.db.orders, w.origin, w.results, order, req.key, w.clock);
    PlacedOrders(w.db.orders, w.db.payments, order);
  }

  lemma {:induction false} PlacedUnique(db: Tables, after: Tables, req: Request, order: Order, now: int)
    requires Placed(db, after, req, order, now) && UniqueHolds(db.books.holds)
    ensures UniqueHolds(after.books.holds)
  {
    ReservedAll(db.books, |db.orders|, LockOrder(Takes(order.warehouse, req.items)), now + RESERVATION_TTL_SECONDS);
  }

  lemma {:induction false} PlacedOrders(orders: seq<Order>, payments: seq<Payment>, order: Order)
    requires OrdersOk(orders, payments) && OrderOk(order) && order.status == Reserved
    ensures OrdersOk(orders + [order], payments +
          [Payment(|orders|, PaymentPending, order.total, order.currency, None, None)])
  {
  }

  lemma {:induction false} Tx1Keeps(w: World, base: Inventory, keys: Keys, req: Request, shop: Shop, started: int)
    requires Inv(w, base) && TakenFrom(w.db.keys, keys, req.key) && started <= w.clock
    ensures Inv(Tx1(w, keys, req, shop, started), base)
  {
    var db := w.db.(keys := keys);
    if Place(db, req, shop, started).Ok? {
      var order := PlaceIsPlaced(db, req, shop, started);
      Tx1PlacedKeeps(w, base, keys, req, started, Place(db, req, shop, started).value, order);
    }
  }

  lemma {:induction false} TakenKeepsRest(keys: Keys, key: Key, hash: Hash)
    requires ClaimKey(keys, key, hash).Taken?
    ensures TakenFrom(keys, ClaimKey(keys, key, hash).keys, key)
  {
  }

  /** A request that saw its key failed is remembered; it has written nothing yet. */
  lemma {:induction false} SeenFailed(w: World, base: Inventory, ticket: nat, req: Request, started: int)
    requires Inv(w, base) && DistinctProducts(req.items) && ClaimKey(w.db.keys, req.key, req.hash).SawFailed?
    requires started <= w.clock
    ensures Inv(w.(retries := w.retries[ticket := Attempt(req, started)]), base)
  {
  }

  lemma {:induction false} ArriveKeeps(w: World, base: Inventory, a: Action)
    requires Inv(w, base) && a.Arrive?
    ensures Inv(Next(w, a), base)
  {
    hide Inv;
    if DistinctProducts(a.req.items) && a.ticket !in w.retries && a.started <= w.clock {
      match ClaimKey(w.db.keys, a.req.key, a.req.hash)
      case Taken(keys) =>
        TakenKeepsRest(w.db.keys, a.req.key, a.req.hash);
        Tx1Keeps(w, base, keys, a.req, a.shop, a.started);
      case Refused(_) =>
      case SawFailed => SeenFailed(w, base, a.ticket, a.req, a.started);
    }
  }

  /** Leaving the retry behind; and what it was about. */
  lemma {:induction false} Retried(w: World, base: Inventory, ticket: nat)
    requires Inv(w, base) && ticket in w.retries
    ensures Inv(w.(retries := w.retries - {ticket}), base) && w.retries[ticket].started <= w.clock
    ensures var req := w.retries[ticket].req;
            ReclaimFailed(w.db.keys, req.key).Some? ==>
                  TakenFrom(w.db.keys, ReclaimFailed(w.db.keys, req.key).value, req.key)
  {
  }

  lemma {:induction false} RetryKeeps(w: World, base: Inventory, a: Action)
    requires Inv(w, base) && a.Retry?
    ensures Inv(Next(w, a), base)
  {
    hide Inv;
    if a.ticket in w.retries {
      Retried(w, base, a.ticket);
      var rest := w.(retries := w.retries - {a.ticket});
      var keys := ReclaimFailed(w.db.keys, w.retries[a.ticket].req.key);
      if keys.Some? {
        Tx1Keeps(rest, base, keys.value, w.retries[a.ticket].req, a.shop, w.retries[a.ticket].started);
      }
    }
  }

  // ---------------------------------------------------------------- small steps

  lemma {:induction false} ChargedOnce(log: seq<nat>, results: map<nat, PaymentResult>, orders: seq<Order>,
          order: nat, result: PaymentResult)
    requires ChargesOk(log, results, orders) && order < |orders| && order !in results
    requires orders[order].status == Reserved
    ensures ChargesOk(log + [order], results[order := result], orders)
  {
  }

  lemma {:induction false} ChargedAnswers(orders: seq<Order>, payments: seq<Payment>,
          results: map<nat, PaymentResult>, order: nat, result: PaymentResult)
    requires AnswersOk(orders, payments, results) && order < |orders| && orders[order].status == Reserved
    requires order !in results
    ensures AnswersOk(orders, payments, results[order := result])
  {
    forall o | 0 <= o < |orders| ensures AnswerKept(o, orders[o], payments[o], results[order := result]) {
      assert AnswerKept(o, orders[o], payments[o], results);
    }
  }

  lemma {:induction false} ChargedSagas(sagas: map<nat, Saga>, orders: seq<Order>, origin: seq<Key>,
          results: map<nat, PaymentResult>, order: nat, result: PaymentResult, since: int)
    requires SagasOk(sagas, orders, origin, results) && order in sagas && order !in results
    ensures var charged := sagas[order].(charged := Some(result), since := since);
            SagasOk(sagas[order := charged], orders, origin, results[order := result])
  {
  }

  lemma {:induction false} ChargeKeeps(w: World, base: Inventory, a: Action)
    requires Inv(w, base) && a.Charge?
    ensures Inv(Next(w, a), base)
  {
    if a.order in w.sagas && w.sagas[a.order].charged.None? {
      assert SagaOk(a.order, w.sagas[a.order], w.db.orders, w.origin, w.results);
      ChargedOnce(w.log, w.results, w.db.orders, a.order, a.result);
      ChargedAnswers(w.db.orders, w.db.payments, w.results, a.order, a.result);
      ChargedSagas(w.sagas, w.db.orders, w.origin, w.results, a.order, a.result, w.clock);
    }
  }

  lemma {:induction false} CrashKeeps(w: World, base: Inventory, a: Action)
    requires Inv(w, base) && a.Crash?
    ensures Inv(Next(w, a), base)
  {
  }

  lemma {:induction false} TickExpiry(orders: seq<Order>, holds: seq<Hold>, settled: map<nat, int>, clock: int,
          seconds: nat)
    requires ExpiryOk(orders, holds, settled, clock)
    ensures ExpiryOk(orders, holds, settled, clock + seconds)
  {
    forall i | 0 <= i < |holds| ensures TimesOk(holds[i], orders, settled, clock + seconds) {
      assert TimesOk(holds[i], orders, settled, clock);
    }
    forall o | 0 <= o < |orders| ensures InstantOk(o, orders[o], settled, clock + seconds) {
      assert InstantOk(o, orders[o], settled, clock);
    }
  }

  lemma {:induction false} TickRetries(retries: map<nat, Attempt>, keys: Keys, clock: int, seconds: nat)
    requires RetriesOk(retries, keys, clock)
    ensures RetriesOk(retries, keys, clock + seconds)
  {
  }

  lemma {:induction false} TickKeeps(w: World, base: Inventory, a: Action)
    requires Inv(w, base) && a.Tick?
    ensures Inv(Next(w, a), base)
  {
    hide Conserved, UniqueHolds, OrdersOk, HoldStatusesOk, HoldsCoverLines, ExpiryOk, KeysOk, EventsOk, ChargesOk;
    hide AnswersOk, SagasOk, RetriesOk, DeskInv;
    TickExpiry(w.db.orders, w.db.books.holds, w.settled, w.clock, a.seconds);
    TickRetries(w.retries, w.db.keys, w.clock, a.seconds);
  }

  lemma {:induction false} EventCountByPayload(before: seq<Event>, after: seq<Event>, o: nat)
    requires |before| == |after| && forall e :: 0 <= e < |before| ==> after[e].payload == before[e].payload
    ensures EventCount(after, o) == EventCount(before, o)
  {
    if before != [] {
      EventCountByPayload(before[..|before| - 1], after[..|after| - 1], o);
    }
  }

  lemma {:induction false} RelayedEvents(events: seq<Event>, wire: Wire, orders: seq<Order>, payments: seq<Payment>,
          step: RelayAction)
    requires EventsOk(events, orders, payments)
    ensures EventsOk(RelayNext(Desk(events, wire), step).events, orders, payments)
  {
    RelaysKeepPayloads(Desk(events, wire), step);
    var after := RelayNext(Desk(events, wire), step).events;
    forall o: nat ensures EventCount(after, o) == EventCount(events, o) {
      EventCountByPayload(events, after, o);
    }
  }

  /** New events and a new wire, everything else as it was. */
  lemma {:induction false} DeskReplaced(w: World, base: Inventory, desk: Desk)
    requires Inv(w, base) && EventsOk(desk.events, w.db.orders, w.db.payments) && DeskInv(desk)
    ensures Inv(w.(db := w.db.(events := desk.events), wire := desk.wire), base)
  {
    assert desk == Desk(desk.events, desk.wire);
    hide DeskInv, EventsOk;
  }

  lemma {:induction false} RelayingKeeps(w: World, base: Inventory, a: Action)
    requires Inv(w, base) && a.Relaying?
    ensures Inv(Next(w, a), base)
  {
    var desk := Desk(w.db.events, w.wire);
    RelayedEvents(w.db.events, w.wire, w.db.orders, w.db.payments, a.step);
    RelayKeeps(desk, a.step);
    DeskReplaced(w, base, RelayNext(desk, a.step));
  }

  // ---------------------------------------------------------------- ending holds

  predicate SameEntry(h: Hold, g: Hold) {
    h.order == g.order && h.sku == g.sku && h.quantity == g.quantity
  }

  lemma {:induction false} EntryBagSame(before: seq<Hold>, after: seq<Hold>, o: nat)
    requires |before| == |after| && forall i :: 0 <= i < |before| ==> SameEntry(before[i], after[i])
    ensures EntryBag(after, o) == EntryBag(before, o)
  {
    if before != [] {
      var n := |before| - 1;
      EntryBagSame(before[..n], after[..n], o);
      assert SameEntry(before[n], after[n]);
    }
  }

  lemma {:induction false} MarkedCoverLines(orders: seq<Order>, holds: seq<Hold>, ids: set<nat>, status: HoldStatus,
          now: int)
    requires HoldsCoverLines(orders, holds) && UniqueHolds(holds)
    ensures HoldsCoverLines(orders, Mark(holds, ids, status, now)) && UniqueHolds(Mark(holds, ids, status, now))
  {
    forall o | 0 <= o < |orders|
      ensures EntryBag(Mark(holds, ids, status, now), o) == multiset(LineEntries(orders[o]))
    {
      EntryBagSame(holds, Mark(holds, ids, status, now), o);
    }
  }

  lemma {:induction false} SweptExpiry(orders: seq<Order>, holds: seq<Hold>, settled: map<nat, int>, ids: set<nat>,
          started: int, clock: int)
    requires HoldStatusesOk(orders, holds) && ExpiryOk(orders, holds, settled, clock)
    requires ids <= ExpiredBy(holds, started) && started <= clock
    ensures var after := Mark(holds, ids, Expired, started);
            HoldStatusesOk(orders, after) && ExpiryOk(orders, after, settled, clock)
  {
    var after := Mark(holds, ids, Expired, started);
    forall i | 0 <= i < |after| ensures TimesOk(after[i], orders, settled, clock) {
      assert TimesOk(holds[i], orders, settled, clock);
    }
  }

  lemma {:induction false} SweepKeeps(w: World, base: Inventory, a: Action)
    requires Inv(w, base) && a.Sweep?
    ensures Inv(Next(w, a), base)
  {
    var books := w.db.books;
    if a.started <= w.clock && a.chosen <= ExpiredBy(books.holds, a.started) {
      SettleConserves(books, base, a.chosen, Expired, a.started);
      assert StillActive(books.holds, a.chosen) == a.chosen;
      MarkedCoverLines(w.db.orders, books.holds, a.chosen, Expired, a.started);
      SweptExpiry(w.db.orders, books.holds, w.settled, a.chosen, a.started, w.clock);
    }
  }
}
