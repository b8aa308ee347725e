/**
 The checkout saga over the committed database: what tx1 and tx2 do to all tables at once, and the
 steps of a world in which any number of requests, crashes, sweeps and relays interleave.
 */
module Checkout {
  import opened Common
  import opened Ledger
  import opened Settlement
  import opened OrderState
  import opened Selection
  import opened Outbox

  const RESERVATION_TTL_SECONDS: int := 900

  /** Idempotency keys and request hashes are opaque values with equality. */
  type Key = int
  type Hash = int

  datatype Product = Product(sku: string, name: string, unitPrice: nat, currency: int)

  /** A line as it was sold: nothing in it is looked up in the product again. */
  datatype Line = Line(product: int, sku: string, name: string, quantity: int, unitPrice: int, currency: int)

  datatype Order = Order(customer: int, warehouse: int, currency: int, total: int, status: OrderStatus,
                         lines: seq<Line>, history: seq<Move>, updatedAt: int)

  datatype PaymentStatus = PaymentPending | PaymentSucceeded | PaymentDeclined

  datatype Payment = Payment(order: nat, status: PaymentStatus, amount: int, currency: int,
                             reference: Option<int>, reason: Option<string>)

  datatype Outcome = Succeeds | Declines | Unknown

  datatype PaymentResult = PaymentResult(outcome: Outcome, reference: Option<int>, reason: Option<string>)

  /** The 201 body. */
  datatype Body = Body(order: nat, status: OrderStatus, warehouse: int, lines: seq<Line>, total: int,
                       currency: int, reference: Option<int>)

  datatype KeyStatus = InProgress | Completed | FailedKey

  datatype KeyRow = KeyRow(hash: Hash, status: KeyStatus, body: Option<Body>, code: Option<int>, order: Option<nat>)

  type Keys = map<Key, KeyRow>

  /** The committed database. An order's or a payment's id is its position. */
  datatype Tables = Tables(books: Books, keys: Keys, orders: seq<Order>, payments: seq<Payment>, events: seq<Event>)

  datatype Request = Request(key: Key, hash: Hash, customer: int, items: seq<RequestedItem>)

  /** What tx1 reads besides its own tables. `seen` is the inventory as selection saw it, which may
      be older than what the reservation meets. */
  datatype Shop = Shop(products: map<int, Product>, warehouses: seq<Warehouse>, distance: int -> real, seen: Inventory)

  datatype CheckoutError =
    | IdempotencyKeyReuse
    | IdempotencyInProgress
    | ReplayedResponse(body: Option<Body>, code: int)
    | NotSelected(selection: SelectError)
    | MixedCurrencyBasket(currencies: set<int>)
    | DuplicateLine
    | NotReserved(reservation: ReserveError)
    | InvalidStateTransition(actual: Option<OrderStatus>, expected: OrderStatus)
    | AmountNotPositive
    | Declined(reason: string)
    | Unresolved(reason: string)
    | LedgerBroken

  // ---------------------------------------------------------------- idempotency keys

  /** `claim`: INSERT ... ON CONFLICT DO NOTHING. */
  function Claim(keys: Keys, key: Key, hash: Hash): Option<Keys> {
    if key in keys then None else Some(keys[key := KeyRow(hash, InProgress, None, None, None)])
  }

  /** `reclaim_failed`: compare-and-swap from failed to in_progress. */
  function ReclaimFailed(keys: Keys, key: Key): Option<Keys> {
    if key in keys && keys[key].status == FailedKey
    then Some(keys[key := keys[key].(status := InProgress, body := None, code := None)])
    else None
  }

  /** `settle_completed`; the UPDATE has no guard on the status. */
  function SettleCompleted(keys: Keys, key: Key, body: Body, code: int, order: nat): Keys {
    if key in keys
    then keys[key := keys[key].(status := Completed, body := Some(body), code := Some(code), order := Some(order))]
    else keys
  }

  /** `mark_failed`; the UPDATE has no guard on the status. */
  function MarkKeyFailed(keys: Keys, key: Key, order: nat): Keys {
    if key in keys
    then keys[key := keys[key].(status := FailedKey, body := None, code := None, order := Some(order))]
    else keys
  }

  /** Taken; or refused, with what the existing row means; or the row was seen failed, and the
      compare-and-swap decides. */
  datatype ClaimAnswer = Taken(keys: Keys) | Refused(error: CheckoutError) | SawFailed

  function ClaimKey(keys: Keys, key: Key, hash: Hash): ClaimAnswer {
    match Claim(keys, key, hash)
    case Some(claimed) => Taken(claimed)
    case None =>
      var row := keys[key];
      if row.hash != hash then Refused(IdempotencyKeyReuse)
      else if row.status == Completed then
        Refused(ReplayedResponse(row.body, match row.code case Some(c) => c case None => 200))
      else if row.status == FailedKey then SawFailed
      else Refused(IdempotencyInProgress)
  }

  // ---------------------------------------------------------------- orders

  function Transition(orders: seq<Order>, id: nat, from: OrderStatus, to: OrderStatus, now: int)
    : (r: Result<seq<Order>, CheckoutError>)
    ensures r.Ok? ==> id < |orders| && |r.value| == |orders|
  {
    if !IsAllowed(from, to) then Err(InvalidStateTransition(Some(from), to))
    else if id >= |orders| then Err(InvalidStateTransition(None, to))
    else if orders[id].status != from then Err(InvalidStateTransition(Some(orders[id].status), to))
    else
      var history := orders[id].history + [Move(Some(from), to)];
      Ok(orders[id := orders[id].(status := to, history := history, updatedAt := now)])
  }

  function LineOf(products: map<int, Product>, item: RequestedItem): Line
    requires item.product in products
  {
    var p := products[item.product];
    Line(item.product, p.sku, p.name, item.quantity, p.unitPrice, p.currency)
  }

  function Lines(products: map<int, Product>, items: seq<RequestedItem>): (ls: seq<Line>)
    requires forall i :: 0 <= i < |items| ==> items[i].product in products
    ensures |ls| == |items|
    ensures forall i :: 0 <= i < |items| ==> ls[i] == LineOf(products, items[i])
  {
    seq(|items|, i requires 0 <= i < |items| => LineOf(products, items[i]))
  }

  /** uq_order_items_order_product. */
  predicate DistinctLines(lines: seq<Line>) {
    forall i, j :: 0 <= i < j < |lines| ==> lines[i].product != lines[j].product
  }

  function LinesTotal(lines: seq<Line>): int {
    if lines == [] then 0
    else LinesTotal(lines[..|lines| - 1]) + lines[|lines| - 1].unitPrice * lines[|lines| - 1].quantity
  }

  function Currencies(products: map<int, Product>, items: seq<RequestedItem>): set<int>
    requires forall i :: 0 <= i < |items| ==> items[i].product in products
  {
    set i | 0 <= i < |items| :: products[items[i].product].currency
  }

  // ---------------------------------------------------------------- tx1

  /** What order creation leaves in the tables it writes. */
  datatype Creation = Creation(books: Books, orders: seq<Order>)

  lemma {:induction false} SelectedAreKnown(shop: Shop, items: seq<RequestedItem>)
    requires Select(shop.products.Keys, shop.seen, shop.warehouses, shop.distance, items).Ok?
    ensures items != [] && forall i :: 0 <= i < |items| ==> items[i].product in shop.products
  {
    forall i | 0 <= i < |items| ensures items[i].product in shop.products {
      assert items[i].product in Requested(items);
      assert items[i].product !in Requested(items) - shop.products.Keys;
    }
  }

  /** The order as inserted, with its lines. */
  function NewOrder(req: Request, products: map<int, Product>, warehouse: int, now: int): Order
    requires req.items != [] && forall i :: 0 <= i < |req.items| ==> req.items[i].product in products
  {
    var lines := Lines(products, req.items);
    Order(req.customer, warehouse, products[req.items[0].product].currency, LinesTotal(lines), Pending, lines,
          [Move(None, Pending)], now)
  }

  /** `create_in_transaction`: select, insert the order and its lines, reserve, mark reserved. */
  function Create(books: Books, orders: seq<Order>, req: Request, shop: Shop, now: int)
    : (r: Result<Creation, CheckoutError>)
    ensures r.Ok? ==> |r.value.orders| == |orders| + 1
  {
    match Select(shop.products.Keys, shop.seen, shop.warehouses, shop.distance, req.items)
    case Err(why) => Err(NotSelected(why))
    case Ok(w) =>
      SelectedAreKnown(shop, req.items);
      var currencies := Currencies(shop.products, req.items);
      if |currencies| > 1 then Err(MixedCurrencyBasket(currencies))
      else CreateAt(books, orders, req, shop, w.id, now)
  }

  function CreateAt(books: Books, orders: seq<Order>, req: Request, shop: Shop, warehouse: int, now: int)
    : (r: Result<Creation, CheckoutError>)
    requires req.items != [] && forall i :: 0 <= i < |req.items| ==> req.items[i].product in shop.products
    ensures r.Ok? ==> |r.value.orders| == |orders| + 1
  {
    if !DistinctLines(Lines(shop.products, req.items)) then Err(DuplicateLine)
    else
      match Reserve(books, |orders|, warehouse, req.items, now + RESERVATION_TTL_SECONDS)
      case Err(why) => Err(NotReserved(why))
      case Ok(after) =>
        match Transition(orders + [NewOrder(req, shop.products, warehouse, now)], |orders|, Pending, Reserved, now)
        case Err(e) => Err(e)
        case Ok(moved) => Ok(Creation(after, moved))
  }

  /** `create_pending` for the order just created; `CHECK (amount_minor > 0)` may refuse it. */
  function WithPayment(db: Tables, created: Result<Creation, CheckoutError>): Result<Tables, CheckoutError>
    requires created.Ok? ==> |created.value.orders| == |db.orders| + 1
  {
    match created
    case Err(e) => Err(e)
    case Ok(c) =>
      var id := |db.orders|;
      if c.orders[id].total <= 0 then Err(AmountNotPositive)
      else Ok(db.(books := c.books, orders := c.orders,
                  payments := db.payments +
                        [Payment(id, PaymentPending, c.orders[id].total, c.orders[id].currency, None, None)]))
  }

  /** tx1 once the key is taken. */
  function Place(db: Tables, req: Request, shop: Shop, now: int): Result<Tables, CheckoutError> {
    WithPayment(db, Create(db.books, db.orders, req, shop, now))
  }

  function PlaceAt(db: Tables, req: Request, shop: Shop, warehouse: int, now: int): Result<Tables, CheckoutError>
    requires req.items != [] && forall i :: 0 <= i < |req.items| ==> req.items[i].product in shop.products
  {
    WithPayment(db, CreateAt(db.books, db.orders, req, shop, warehouse, now))
  }

  /** tx1 alone: claim the key, or reclaim it if its last attempt failed, and place the order. */
  function Begin(db: Tables, req: Request, shop: Shop, now: int): Result<Tables, CheckoutError> {
    match ClaimKey(db.keys, req.key, req.hash)
    case Taken(keys) => Place(db.(keys := keys), req, shop, now)
    case Refused(e) => Err(e)
    case SawFailed =>
      match ReclaimFailed(db.keys, req.key)
      case Some(keys) => Place(db.(keys := keys), req, shop, now)
      case None => Err(IdempotencyInProgress)
  }

  // ---------------------------------------------------------------- tx2

  function Render(id: nat, order: Order, reference: Option<int>): Body {
    Body(id, order.status, order.warehouse, order.lines, order.total, order.currency, reference)
  }

  function Announcement(id: nat, order: Order, reference: Option<int>): Payload {
    Payload(id, order.customer, order.warehouse, order.total, order.currency, reference)
  }

  function Complete(db: Tables, id: nat, payment: nat, key: Key, result: PaymentResult, now: int)
    : Result<Tables, CheckoutError>
  {
    match Transition(db.orders, id, Reserved, Paid, now)
    case Err(e) => Err(e)
    case Ok(paid) =>
      match Transition(paid, id, Paid, Confirmed, now)
      case Err(e) => Err(e)
      case Ok(orders) =>
        Ok(Tables(CommitHolds(db.books, id, now),
                  SettleCompleted(db.keys, key, Render(id, orders[id], result.reference), 201, id),
                  orders,
                  CompletePayment(db.payments, payment, result.reference),
                  Add(db.events, Announcement(id, orders[id], result.reference), now)))
  }

  /** `mark_succeeded`: the failure reason is not among the columns it sets. */
  function CompletePayment(payments: seq<Payment>, id: nat, reference: Option<int>): seq<Payment> {
    if id < |payments| then payments[id := payments[id].(status := PaymentSucceeded, reference := reference)]
          else payments
  }

  /** `mark_failed`: the reference is not among the columns it sets. */
  function FailPayment(payments: seq<Payment>, id: nat, reason: string): seq<Payment> {
    if id < |payments| then payments[id := payments[id].(status := PaymentDeclined, reason := Some(reason))]
          else payments
  }

  /** `mark_unknown`: the status stays pending. */
  function AnnotatePayment(payments: seq<Payment>, id: nat, reason: string): seq<Payment> {
    if id < |payments| then payments[id := payments[id].(reason := Some(reason))] else payments
  }

  function ReasonOr(reason: Option<string>, default: string): string {
    match reason case Some(r) => if r == "" then default else r case None => default
  }

  function Compensate(db: Tables, id: nat, payment: nat, key: Key, result: PaymentResult, now: int)
    : Result<Tables, CheckoutError>
  {
    match Release(db.books, id, now)
    case Err(_) => Err(LedgerBroken)
    case Ok(books) =>
      match Transition(db.orders, id, Reserved, PaymentFailed, now)
      case Err(e) => Err(e)
      case Ok(orders) =>
        Ok(Tables(books, MarkKeyFailed(db.keys, key, id), orders,
                  FailPayment(db.payments, payment, ReasonOr(result.reason, "declined")), db.events))
  }

  function LeaveUnresolved(db: Tables, payment: nat, result: PaymentResult): Tables {
    db.(payments := AnnotatePayment(db.payments, payment, ReasonOr(result.reason, "unknown")))
  }

  function Tx2(db: Tables, id: nat, payment: nat, key: Key, result: PaymentResult, now: int)
    : Result<Tables, CheckoutError>
  {
    match result.outcome
    case Succeeds => Complete(db, id, payment, key, result, now)
    case Declines => Compensate(db, id, payment, key, result, now)
    case Unknown => Ok(LeaveUnresolved(db, payment, result))
  }

  /** What the caller is told after tx2. */
  function Reply(db: Tables, id: nat, result: PaymentResult): Result<Body, CheckoutError>
    requires id < |db.orders|
  {
    match result.outcome
    case Succeeds => Ok(Render(id, db.orders[id], result.reference))
    case Declines => Err(Declined(ReasonOr(result.reason, "declined")))
    case Unknown => Err(Unresolved(ReasonOr(result.reason, "unknown")))
  }

  /** A response body about order o and its payment, field by field. */
  predicate BodyOf(b: Body, o: nat, order: Order, payment: Payment) {
    && b.order == o && b.status == order.status && b.warehouse == order.warehouse && b.lines == order.lines
    && b.total == order.total && b.currency == order.currency && b.reference == payment.reference
  }

  /** An announcement of order o and its payment, field by field. */
  predicate PayloadOf(p: Payload, o: nat, order: Order, payment: Payment) {
    && p.order == o && p.customer == order.customer && p.warehouse == order.warehouse
    && p.total == order.total && p.currency == order.currency && p.reference == payment.reference
  }

  /** What the caller is told agrees with what the tables say: paid and confirmed, declined and open to
      another try, or not known and still held. */
  predicate Told(r: Result<Body, CheckoutError>, db: Tables, o: nat, payment: nat, key: Key)
    requires o < |db.orders| && payment < |db.payments| && key in db.keys
  {
    var order, paid, row := db.orders[o], db.payments[payment], db.keys[key];
    && (r.Ok? <==> order.status == Confirmed)
    && (r.Ok? ==> BodyOf(r.value, o, order, paid) && paid.status == PaymentSucceeded)
    && (r.Ok? ==> row.status == Completed && row.body == Some(r.value) && row.code == Some(201) && row.order == Some(o))
    && (r.Err? && r.error.Declined? <==> order.status == PaymentFailed)
    && (r.Err? && r.error.Declined? ==> row.status == FailedKey && row.order == Some(o))
    && (r.Err? && r.error.Declined? ==> paid.status == PaymentDeclined && paid.reason == Some(r.error.reason))
    && (r.Err? && r.error.Unresolved? <==> order.status == Reserved)
    && (r.Err? && r.error.Unresolved? ==> row.status == InProgress)
    && (r.Err? && r.error.Unresolved? ==> paid.status == PaymentPending && paid.reason == Some(r.error.reason))
  }

  // ---------------------------------------------------------------- the world

  /** A request between its tx1 and its tx2: `charged` once the provider has answered, `since` the
      instant of its last step. */
  datatype Saga = Saga(key: Key, payment: nat, charged: Option<PaymentResult>, since: int)

  /** A tx1 that started at `started` and has read its key as failed. */
  datatype Attempt = Attempt(req: Request, started: int)

  /**
   `sagas` is indexed by the order the saga created, `retries` by ticket; `log` and `results` are the
   provider's. A transaction's now() is the instant it started, its effect comes later: steps carry
   `started`, and `clock` is the present. `origin` says which key each order came from and `settled`
   when the second transaction of an order took effect; no code reads either.
   */
  datatype World = World(db: Tables, wire: Wire, sagas: map<nat, Saga>, retries: map<nat, Attempt>, log: seq<nat>,
                         results: map<nat, PaymentResult>, clock: int, origin: seq<Key>, settled: map<nat, int>)

  datatype Action =
    | Arrive(ticket: nat, req: Request, shop: Shop, started: int)
    | Retry(ticket: nat, shop: Shop)
    | Charge(order: nat, result: PaymentResult)
    | Settle2(order: nat, started: int)
    | Crash(order: nat)
    | Sweep(chosen: set<nat>, started: int)
    | Relaying(step: RelayAction)
    | Tick(seconds: nat)

  function Tx1(w: World, keys: Keys, req: Request, shop: Shop, started: int): World {
    match Place(w.db.(keys := keys), req, shop, started)
    case Err(_) => w
    case Ok(db) =>
      w.(db := db, origin := w.origin + [req.key],
         sagas := w.sagas[|w.db.orders| := Saga(req.key, |w.db.payments|, None, w.clock)])
  }

  /** The provider answers a key it knows with the answer it gave before, and charges once. */
  function Charged(w: World, order: nat, result: PaymentResult): World
    requires order in w.sagas
  {
    var answer := if order in w.results then w.results[order] else result;
    w.(sagas := w.sagas[order := w.sagas[order].(charged := Some(answer), since := w.clock)],
       log := if order in w.results then w.log else w.log + [order],
       results := w.results[order := answer])
  }

  /** The saga has its answer, and its tx2 may have started at that instant. */
  predicate MaySettle(w: World, order: nat, started: int) {
    order in w.sagas && w.sagas[order].charged.Some? && w.sagas[order].since <= started <= w.clock
  }

  function Tx2Of(w: World, order: nat, started: int): Result<Tables, CheckoutError>
    requires order in w.sagas && w.sagas[order].charged.Some?
  {
    Tx2(w.db, order, w.sagas[order].payment, w.sagas[order].key, w.sagas[order].charged.value, started)
  }

  function Next(w: World, a: Action): World {
    match a
    case Arrive(ticket, req, shop, started) =>
      if !DistinctProducts(req.items) || ticket in w.retries || started > w.clock then w
      else
        (match ClaimKey(w.db.keys, req.key, req.hash)
         case Taken(keys) => Tx1(w, keys, req, shop, started)
         case Refused(_) => w
         case SawFailed => w.(retries := w.retries[ticket := Attempt(req, started)]))
    case Retry(ticket, shop) =>
      if ticket !in w.retries then w
      else
        var attempt := w.retries[ticket];
        var rest := w.(retries := w.retries - {ticket});
        (match ReclaimFailed(w.db.keys, attempt.req.key)
         case Some(keys) => Tx1(rest, keys, attempt.req, shop, attempt.started)
         case None => rest)
    case Charge(order, result) =>
      if order in w.sagas && w.sagas[order].charged.None? then Charged(w, order, result) else w
    case Settle2(order, started) =>
      if !MaySettle(w, order, started) then w
      else
        var rest := w.(sagas := w.sagas - {order});
        (match Tx2Of(w, order, started)
         case Ok(db) => rest.(db := db, settled := w.settled[order := w.clock])
         case Err(_) => rest)
    case Crash(order) => w.(sagas := w.sagas - {order})
    case Sweep(chosen, started) =>
      if started > w.clock || !(chosen <= ExpiredBy(w.db.books.holds, started)) then w
      else
        (match Settle(w.db.books, chosen, Expired, started)
         case Ok(books) => w.(db := w.db.(books := books))
         case Err(_) => w)
    case Relaying(step) =>
      var desk := RelayNext(Desk(w.db.events, w.wire), step);
      w.(db := w.db.(events := desk.events), wire := desk.wire)
    case Tick(seconds) => w.(clock := w.clock + seconds)
  }

  function Run(w: World, actions: seq<Action>): World {
    if actions == [] then w else Next(Run(w, actions[..|actions| - 1]), actions[|actions| - 1])
  }

  function Opening(base: Inventory, clock: int): World {
    World(Tables(Books(base, []), map[], [], [], []), Wire(map[], multiset{}, multiset{}),
          map[], map[], [], map[], clock, [], map[])
  }
}
