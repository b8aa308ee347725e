/** When tx1 places an order, and why it refuses when it does. */
module CheckoutAdmission {
  import opened Common
  import opened Ledger
  import opened Settlement
  import opened OrderState
  import opened Pricing
  import opened Selection
  import opened Checkout
  import opened CheckoutInvariant
  import opened CheckoutTheorems

  /** A basket of known products in one currency, not all of them free. */
  predicate Sellable(products: map<int, Product>, items: seq<RequestedItem>) {
    && items != [] && Known(products, items) && SameCurrency(products, items)
    && exists i :: 0 <= i < |items| && Price(products, items[i]) > 0
  }

  lemma {:induction false} SellableIs(products: map<int, Product>, items: seq<RequestedItem>)
    requires Known(products, items)
    ensures Sellable(products, items) <==>
          items != [] && |Currencies(products, items)| <= 1 && LinesTotal(Lines(products, items)) > 0
  {
    CountIsOneIff(products, items);
    WorthPositiveIff(products, items);
  }

  predicate SomeSupplier(inv: Inventory, ws: seq<Warehouse>, items: seq<RequestedItem>) {
    exists i :: 0 <= i < |ws| && Supplies(inv, ws[i], items)
  }

  lemma {:induction false} SelectSucceedsIff(shop: Shop, items: seq<RequestedItem>)
    requires DistinctProducts(items) && UniqueCodes(shop.warehouses)
    ensures var r := Select(shop.products.Keys, shop.seen, shop.warehouses, shop.distance, items);
            && (r.Ok? <==>
                  && items != [] && Requested(items) <= shop.products.Keys
                  && SomeSupplier(shop.seen, shop.warehouses, items))
            && (r.Ok? ==> Supplies(shop.seen, r.value, items))
  {
    if items != [] {
      SelectBestIsNearestSupplier(shop.seen, shop.warehouses, shop.distance, items);
      MissingIff(Requested(items), shop.products.Keys);
    }
  }

  lemma {:induction false} KnownIff(products: map<int, Product>, items: seq<RequestedItem>)
    ensures Requested(items) <= products.Keys <==> Known(products, items)
  {
  }

  lemma {:induction false} LinesDistinctIff(products: map<int, Product>, items: seq<RequestedItem>)
    requires forall i :: 0 <= i < |items| ==> items[i].product in products
    ensures DistinctLines(Lines(products, items)) <==> DistinctProducts(items)
  {
    var lines := Lines(products, items);
    forall i | 0 <= i < |items| ensures lines[i].product == items[i].product {}
    if DistinctLines(lines) {
      forall i, j | 0 <= i < j < |items| ensures items[i].product != items[j].product {
        assert lines[i].product != lines[j].product;
      }
    }
  }

  /** With the products known and a warehouse chosen, tx1 goes through exactly when no product is
      listed twice, the reservation does and the total is positive. The status change it makes never
      fails. */
  lemma {:induction false} PlaceAtOutcome(db: Tables, req: Request, shop: Shop, warehouse: int, now: int)
    requires req.items != [] && forall i :: 0 <= i < |req.items| ==> req.items[i].product in shop.products
    ensures var r := PlaceAt(db, req, shop, warehouse, now);
            var reserved := Reserve(db.books, |db.orders|, warehouse, req.items, now + RESERVATION_TTL_SECONDS);
            && (r.Ok? <==>
                  DistinctProducts(req.items) && reserved.Ok? && LinesTotal(Lines(shop.products, req.items)) > 0)
            && (r.Err? ==> r.error == if !DistinctProducts(req.items) then DuplicateLine
                                      else if reserved.Err? then NotReserved(reserved.error) else AmountNotPositive)
  {
    LinesDistinctIff(shop.products, req.items);
  }

  lemma {:induction false} PlaceIsAt(db: Tables, req: Request, shop: Shop, now: int) returns (w: Warehouse)
    requires Select(shop.products.Keys, shop.seen, shop.warehouses, shop.distance, req.items).Ok?
    ensures w == Select(shop.products.Keys, shop.seen, shop.warehouses, shop.distance, req.items).value
    ensures req.items != [] && forall i :: 0 <= i < |req.items| ==> req.items[i].product in shop.products
    ensures var currencies := Currencies(shop.products, req.items);
            Place(db, req, shop, now) ==
            if |currencies| > 1 then Err(MixedCurrencyBasket(currencies)) else PlaceAt(db, req, shop, w.id, now)
  {
    SelectedAreKnown(shop, req.items);
    w := Select(shop.products.Keys, shop.seen, shop.warehouses, shop.distance, req.items).value;
  }

  /** tx1 after the selection has answered. */
  lemma {:induction false} PlaceAfterSelect(db: Tables, req: Request, shop: Shop, now: int)
    requires DistinctProducts(req.items) && FreshOrder(db.books.holds, |db.orders|) && UniqueHolds(db.books.holds)
    requires Select(shop.products.Keys, shop.seen, shop.warehouses, shop.distance, req.items).Ok?
    ensures var w := Select(shop.products.Keys, shop.seen, shop.warehouses, shop.distance, req.items).value;
            var r := Place(db, req, shop, now);
            && (r.Ok? <==> Sellable(shop.products, req.items) && AllAvailable(db.books.inventory, w.id, req.items))
            && (r.Err? ==> r.error.MixedCurrencyBasket? || r.error.AmountNotPositive?
                           || (r.error.NotReserved? && r.error.reservation.InsufficientStock?
                                 && !AllAvailable(db.books.inventory, w.id, req.items)))
            && Known(shop.products, req.items)
            && (r.Err? && !r.error.NotReserved? ==>
                  r.error == if SameCurrency(shop.products, req.items) then AmountNotPositive
                             else MixedCurrencyBasket(Currencies(shop.products, req.items)))
  {
    hide Place, PlaceAt, Select, Reserve, AllAvailable, FreshOrder, UniqueHolds, DistinctProducts;
    var w := PlaceIsAt(db, req, shop, now);
    CountIsOneIff(shop.products, req.items);
    SellableIs(shop.products, req.items);
    hide Sellable, SameCurrency, Currencies, LinesTotal, Lines;
    ReservationOutcome(db, w.id, req.items, now);
    PlaceAtOutcome(db, req, shop, w.id, now);
  }

  /** On an up-to-date reading of the stock, tx1 places an order exactly when the basket is sellable
      and some active warehouse has every item; it never runs short, never trips over a unique
      constraint and never finds the order in the wrong status. A stale reading adds one way to fail:
      running short. */
  lemma {:induction false} PlaceOutcome(w: World, base: Inventory, keys: Keys, req: Request, shop: Shop, started: int)
    requires Reachable(w, base) && DistinctProducts(req.items) && UniqueCodes(shop.warehouses)
    ensures var r := Place(w.db.(keys := keys), req, shop, started);
            && (shop.seen == w.db.books.inventory ==>
                  (r.Ok? <==>
                    Sellable(shop.products, req.items) && SomeSupplier(shop.seen, shop.warehouses, req.items)))
            && (r.Err? && r.error.NotReserved? ==>
                 r.error.reservation.InsufficientStock? && shop.seen != w.db.books.inventory)
            && (r.Err? ==> !r.error.InvalidStateTransition? && !r.error.LedgerBroken?)
  {
    ReachableFresh(w, base);
    SelectSucceedsIff(shop, req.items);
    if Select(shop.products.Keys, shop.seen, shop.warehouses, shop.distance, req.items).Ok? {
      PlaceAfterSelect(w.db.(keys := keys), req, shop, started);
    } else {
      KnownIff(shop.products, req.items);
      assert Place(w.db.(keys := keys), req, shop, started).error.NotSelected?;
    }
  }

  /** Why tx1 refuses, on an up-to-date reading of the stock: an empty basket, then unknown products,
      then nobody who supplies it all, then more than one currency, each named, then nothing to pay. */
  lemma {:induction false} WhyRefused(w: World, base: Inventory, keys: Keys, req: Request, shop: Shop, started: int)
    requires Reachable(w, base) && DistinctProducts(req.items) && UniqueCodes(shop.warehouses)
    requires shop.seen == w.db.books.inventory && Place(w.db.(keys := keys), req, shop, started).Err?
    ensures var why := Place(w.db.(keys := keys), req, shop, started).error;
            if req.items == [] then why == NotSelected(NoEligibleWarehouse(0, 0))
            else if !Known(shop.products, req.items) then
              && why.NotSelected? && why.selection.UnknownProduct?
              && forall p :: p in why.selection.missing <==> p in Requested(req.items) && p !in shop.products
            else if !SomeSupplier(shop.seen, shop.warehouses, req.items) then
              why.NotSelected? && why.selection.NoEligibleWarehouse? && why.selection.requested == |req.items|
            else if !SameCurrency(shop.products, req.items) then
              && why.MixedCurrencyBasket?
              && forall c :: c in why.currencies <==>
                   exists i :: 0 <= i < |req.items| && shop.products[req.items[i].product].currency == c
            else why == AmountNotPositive
  {
    PlaceOutcome(w, base, keys, req, shop, started);
    ReachableFresh(w, base);
    hide Reachable;
    KnownIff(shop.products, req.items);
    SelectSucceedsIff(shop, req.items);
    RefusalTellsWhy(shop.products.Keys, shop.seen, shop.warehouses, shop.distance, req.items);
    if Select(shop.products.Keys, shop.seen, shop.warehouses, shop.distance, req.items).Ok? {
      hide Place;
      PlaceAfterSelect(w.db.(keys := keys), req, shop, started);
    }
  }

  lemma {:induction false} ReachableFresh(w: World, base: Inventory)
    requires Reachable(w, base)
    ensures FreshOrder(w.db.books.holds, |w.db.orders|) && UniqueHolds(w.db.books.holds)
  {
    ReachableInv(w, base);
  }

  lemma {:induction false} ReservationOutcome(db: Tables, warehouse: int, items: seq<RequestedItem>, now: int)
    requires DistinctProducts(items) && FreshOrder(db.books.holds, |db.orders|) && UniqueHolds(db.books.holds)
    ensures var r := Reserve(db.books, |db.orders|, warehouse, items, now + RESERVATION_TTL_SECONDS);
            && (r.Ok? <==> AllAvailable(db.books.inventory, warehouse, items))
            && (r.Err? ==> r.error.InsufficientStock?)
  {
    ReserveSucceedsIff(db.books, |db.orders|, warehouse, items, now + RESERVATION_TTL_SECONDS);
    if Reserve(db.books, |db.orders|, warehouse, items, now + RESERVATION_TTL_SECONDS).Err? {
      var short := ReserveFailure(db.books, |db.orders|, warehouse, items, now + RESERVATION_TTL_SECONDS);
    }
  }

  /** `w` supplies the basket and no other warehouse that does comes before it. */
  predicate Nearest(inv: Inventory, ws: seq<Warehouse>, distance: int -> real, items: seq<RequestedItem>,
          w: Warehouse)
  {
    && w in ws && Supplies(inv, w, items)
    && forall i :: 0 <= i < |ws| && Supplies(inv, ws[i], items) ==> NoFarther(distance, w, ws[i])
  }

  lemma {:induction false} SelectedIsNearest(shop: Shop, items: seq<RequestedItem>)
    requires DistinctProducts(items) && UniqueCodes(shop.warehouses)
    requires Select(shop.products.Keys, shop.seen, shop.warehouses, shop.distance, items).Ok?
    ensures Nearest(shop.seen, shop.warehouses, shop.distance, items,
                    Select(shop.products.Keys, shop.seen, shop.warehouses, shop.distance, items).value)
  {
    SelectBestIsNearestSupplier(shop.seen, shop.warehouses, shop.distance, items);
  }

  lemma {:induction false} PlacedEntries(db: Tables, after: Tables, req: Request, order: Order, now: int)
    requires Placed(db, after, req, order, now) && FreshOrder(db.books.holds, |db.orders|)
    ensures EntryBag(after.books.holds, |db.orders|) == multiset(LineEntries(order))
    ensures var before := |db.books.holds|;
            && before <= |after.books.holds| && after.books.holds[..before] == db.books.holds
            && forall i :: before <= i < |after.books.holds| ==>
                 after.books.holds[i].status == Active
                       && after.books.holds[i].expiresAt == now + RESERVATION_TTL_SECONDS
  {
    ReserveAddsHolds(db.books, |db.orders|, order.warehouse, req.items, now + RESERVATION_TTL_SECONDS, |db.orders|);
    ReserveAppends(db.books, |db.orders|, order.warehouse, req.items, now + RESERVATION_TTL_SECONDS);
  }

  /** A line is a copy of the product as it was, in the quantity asked for. */
  predicate SoldAs(line: Line, p: Product, item: RequestedItem) {
    && line.product == item.product && line.quantity == item.quantity
    && line.sku == p.sku && line.name == p.name && line.unitPrice == p.unitPrice && line.currency == p.currency
  }

  lemma {:induction false} PlacedStock(db: Tables, after: Tables, req: Request, order: Order, now: int)
    requires Placed(db, after, req, order, now) && DistinctProducts(req.items)
    ensures var inv, stock := db.books.inventory, after.books.inventory;
            && stock.Keys == inv.Keys
            && (forall i :: 0 <= i < |req.items| ==> Raised(inv, stock, order.warehouse, req.items[i]))
            && (forall k :: k in inv && !Names(req.items, order.warehouse, k) ==> stock[k] == inv[k])
  {
    ReserveMovesStock(db.books, |db.orders|, order.warehouse, req.items, now + RESERVATION_TTL_SECONDS);
  }

  /** What tx1 places is what was asked for: one line per item as the product is, their cost, one
      currency, at the nearest warehouse seen to supply it all, with one active hold per line for
      fifteen minutes, exactly that much of its stock, and a pending payment of the cost. */
  lemma {:induction false} PlacedOrder(w: World, base: Inventory, keys: Keys, req: Request, shop: Shop, started: int)
    returns (order: Order, at: Warehouse)
    requires Reachable(w, base) && DistinctProducts(req.items) && UniqueCodes(shop.warehouses)
    requires Place(w.db.(keys := keys), req, shop, started).Ok?
    ensures order.customer == req.customer && order.status == Reserved && order.updatedAt == started
    ensures order.history == [Move(None, Pending), Move(Some(Pending), Reserved)]
    ensures Known(shop.products, req.items) && |order.lines| == |req.items|
    ensures forall i :: 0 <= i < |req.items| ==>
                          SoldAs(order.lines[i], shop.products[req.items[i].product], req.items[i])
    ensures order.total == Worth(shop.products, req.items) > 0
    ensures forall l :: 0 <= l < |order.lines| ==> order.lines[l].currency == order.currency
    ensures order.warehouse == at.id && Nearest(shop.seen, shop.warehouses, shop.distance, req.items, at)
    ensures var after, id := Place(w.db.(keys := keys), req, shop, started).value, |w.db.orders|;
            && after.orders == w.db.orders + [order] && after.keys == keys && after.events == w.db.events
            && after.payments == w.db.payments +
                 [Payment(id, PaymentPending, Worth(shop.products, req.items), order.currency, None, None)]
            && EntryBag(after.books.holds, id) == multiset(LineEntries(order))
            && w.db.books.holds <= after.books.holds
            && (forall i :: |w.db.books.holds| <= i < |after.books.holds| ==>
                  after.books.holds[i].status == Active
                        && after.books.holds[i].expiresAt == started + RESERVATION_TTL_SECONDS)
            && (forall i :: 0 <= i < |req.items| ==>
                  Raised(w.db.books.inventory, after.books.inventory, order.warehouse, req.items[i]))
            && (forall k :: k in w.db.books.inventory && !Names(req.items, order.warehouse, k) ==>
                  k in after.books.inventory && after.books.inventory[k] == w.db.books.inventory[k])
  {
    hide Reachable, Place, Select, Reserve, OrderOk;
    var db := w.db.(keys := keys);
    order := PlaceIsPlaced(db, req, shop, started);
    OrderOkFacts(order);
    at := Select(shop.products.Keys, shop.seen, shop.warehouses, shop.distance, req.items).value;
    SelectedIsNearest(shop, req.items);
    ReachableFresh(w, base);
    PlacedEntries(db, Place(db, req, shop, started).value, req, order, started);
    PlacedStock(db, Place(db, req, shop, started).value, req, order, started);
  }

  lemma {:induction false} OrderOkFacts(order: Order)
    requires OrderOk(order) && order.status == Reserved
    ensures order.history == [Move(None, Pending), Move(Some(Pending), Reserved)]
    ensures order.total == LinesTotal(order.lines) > 0
    ensures forall l :: 0 <= l < |order.lines| ==> order.lines[l].currency == order.currency
  {
    OnlyWayToReserved(order.history);
  }

  // ---------------------------------------------------------------- a late confirmation

  lemma {:induction false} SweepIs(w: World, chosen: set<nat>, started: int)
    requires started <= w.clock && chosen <= ExpiredBy(w.db.books.holds, started)
    requires Settle(w.db.books, chosen, Expired, started).Ok?
    ensures Next(w, Sweep(chosen, started)) ==
            w.(db := w.db.(books := Settle(w.db.books, chosen, Expired, started).value))
  {
  }

  lemma {:induction false} SweptHold(w: World, base: Inventory, i: nat, started: int)
    requires Conserved(w.db.books, base) && i in ExpiredBy(w.db.books.holds, started) && started <= w.clock
    ensures var after := Next(w, Sweep({i}, started));
            && |after.db.books.holds| == |w.db.books.holds| && after.db.books.holds[i].status == Expired
            && after.db.books.holds[i].expiresAt == w.db.books.holds[i].expiresAt
            && after.sagas == w.sagas && after.clock == w.clock
  {
    SettleNeverRaises(w.db.books, base, {i}, Expired, started);
    SweepIs(w, {i}, started);
    assert StillActive(w.db.books.holds, {i}) == {i};
  }

  lemma {:induction false} BooksFact(w: World, base: Inventory)
    requires Inv(w, base)
    ensures Conserved(w.db.books, base)
  {
  }

  lemma {:induction false} CompletionKeepsExpired(w: World, base: Inventory, o: nat, started: int, i: nat)
    requires Inv(w, base) && MaySettle(w, o, started) && w.sagas[o].charged.value.outcome == Succeeds
    requires i < |w.db.books.holds| && w.db.books.holds[i].status == Expired
    ensures var after := Next(w, Settle2(o, started)).db;
            && o < |after.orders| && after.orders[o].status == Confirmed && after.orders[o].updatedAt == started
            && i < |after.books.holds| && after.books.holds[i] == w.db.books.holds[i]
  {
    hide Inv, Next;
    var moved := Settle2Orders(w, base, o, started);
    CompletedBooks(w, base, o, started);
  }

  /** The sweeper does not look at the order: a hold due while its order's payment is under way may be
      expired, and the order is confirmed all the same. Neither transaction waits for the other, so
      the confirming one may have started before the hold was due. */
  lemma {:induction false} LateConfirmation(w: World, base: Inventory, o: nat, i: nat, swept: int, started: int)
    requires Inv(w, base) && MaySettle(w, o, started) && w.sagas[o].charged.value.outcome == Succeeds
    requires i in ExpiredBy(w.db.books.holds, swept) && swept <= w.clock
    ensures var after := Next(Next(w, Sweep({i}, swept)), Settle2(o, started)).db;
            && o < |after.orders| && after.orders[o].status == Confirmed && after.orders[o].updatedAt == started
            && i < |after.books.holds| && after.books.holds[i].status == Expired
            && after.books.holds[i].expiresAt == w.db.books.holds[i].expiresAt
  {
    hide Inv, Next;
    BooksFact(w, base);
    SweptHold(w, base, i, swept);
    StepKeeps(w, base, Sweep({i}, swept));
    CompletionKeepsExpired(Next(w, Sweep({i}, swept)), base, o, started, i);
  }

  const CORNER_STOCK: Inventory := map[Sku(1, 7) := Stock(5, 0)]
  const CORNER_SHOP: Shop := Shop(map[7 := Product("CAM-7", "camera", 100, 1)], [Warehouse(1, 1, true)], id => 0.0,
        CORNER_STOCK)
  const CORNER_REQUEST: Request := Request(11, 12, 13, [Item(7, 1)])
  const CORNER_SALE: Action := Arrive(0, CORNER_REQUEST, CORNER_SHOP, 0)
  const PAID_IN_FULL: PaymentResult := PaymentResult(Succeeds, Some(14), None)

  lemma {:induction false} CornerSells()
    ensures Sellable(CORNER_SHOP.products, CORNER_REQUEST.items)
    ensures SomeSupplier(CORNER_STOCK, CORNER_SHOP.warehouses, CORNER_REQUEST.items)
  {
    var items, products := CORNER_REQUEST.items, CORNER_SHOP.products;
    assert Price(products, items[0]) == 100;
    assert Available(CORNER_STOCK, 1, items[0]);
    assert Supplies(CORNER_STOCK, CORNER_SHOP.warehouses[0], items);
  }

  lemma {:induction false} CornerFits(db: Tables)
    requires db.books == Books(CORNER_STOCK, []) && db.orders == []
    ensures Place(db, CORNER_REQUEST, CORNER_SHOP, 0).Ok?
  {
    CornerSells();
    KnownIff(CORNER_SHOP.products, CORNER_REQUEST.items);
    SelectSucceedsIff(CORNER_SHOP, CORNER_REQUEST.items);
    PlaceAfterSelect(db, CORNER_REQUEST, CORNER_SHOP, 0);
  }

  lemma {:induction false} CornerPlaced(db: Tables) returns (after: Tables)
    requires db.books == Books(CORNER_STOCK, []) && db.orders == []
    ensures Place(db, CORNER_REQUEST, CORNER_SHOP, 0) == Ok(after)
    ensures |after.books.holds| == 1 && after.books.holds[0].status == Active && after.books.holds[0].expiresAt == 900
  {
    CornerFits(db);
    after := Place(db, CORNER_REQUEST, CORNER_SHOP, 0).value;
    var order := PlaceIsPlaced(db, CORNER_REQUEST, CORNER_SHOP, 0);
    LockOrderMembers(Takes(order.warehouse, CORNER_REQUEST.items));
  }

  lemma {:induction false} ArriveIs(w: World, ticket: nat, req: Request, shop: Shop, started: int, after: Tables)
    requires DistinctProducts(req.items) && ticket !in w.retries && ClaimKey(w.db.keys, req.key, req.hash).Taken?
    requires started <= w.clock
    requires Place(w.db.(keys := ClaimKey(w.db.keys, req.key, req.hash).keys), req, shop, started) == Ok(after)
    ensures Next(w, Arrive(ticket, req, shop, started)) ==
            w.(db := after, origin := w.origin + [req.key],
               sagas := w.sagas[|w.db.orders| := Saga(req.key, |w.db.payments|, None, w.clock)])
  {
  }

  /** One sale at the corner shop: a hold of one unit until second 900, and a saga for it. */
  lemma {:induction false} CornerSale() returns (w: World)
    ensures w == Next(Opening(CORNER_STOCK, 0), CORNER_SALE)
    ensures 0 in w.sagas && w.sagas[0].charged.None? && w.results == map[] && w.clock == 0
    ensures |w.db.books.holds| == 1 && w.db.books.holds[0].status == Active && w.db.books.holds[0].expiresAt == 900
  {
    var start := Opening(CORNER_STOCK, 0);
    var keys := ClaimKey(start.db.keys, CORNER_REQUEST.key, CORNER_REQUEST.hash).keys;
    var after := CornerPlaced(start.db.(keys := keys));
    ArriveIs(start, 0, CORNER_REQUEST, CORNER_SHOP, 0, after);
    w := Next(start, CORNER_SALE);
  }

  lemma {:induction false} PaidAt(w: World, o: nat, result: PaymentResult, wait: nat, rest: nat)
    requires o in w.sagas && w.sagas[o].charged.None? && o !in w.results
    ensures var after := Next(Next(Next(w, Tick(wait)), Charge(o, result)), Tick(rest));
            && after.db == w.db && after.clock == w.clock + wait + rest
            && o in after.sagas && after.sagas[o].charged == Some(result) && after.sagas[o].since == w.clock + wait
  {
  }

  lemma {:induction false} LateSale() returns (late: World)
    ensures late == Run(Opening(CORNER_STOCK, 0), [CORNER_SALE, Tick(900), Charge(0, PAID_IN_FULL), Tick(1)])
    ensures Inv(late, CORNER_STOCK) && MaySettle(late, 0, 900) && late.sagas[0].charged == Some(PAID_IN_FULL)
    ensures late.clock == 901 && 0 in ExpiredBy(late.db.books.holds, 901) && late.db.books.holds[0].expiresAt == 900
  {
    hide Inv, Next;
    var start := Opening(CORNER_STOCK, 0);
    var sold := CornerSale();
    PaidAt(sold, 0, PAID_IN_FULL, 900, 1);
    FourSteps(start, CORNER_SALE, Tick(900), Charge(0, PAID_IN_FULL), Tick(1));
    late := Run(start, [CORNER_SALE, Tick(900), Charge(0, PAID_IN_FULL), Tick(1)]);
    OpeningInv(CORNER_STOCK, 0);
    RunKeeps(start, CORNER_STOCK, [CORNER_SALE, Tick(900), Charge(0, PAID_IN_FULL), Tick(1)]);
  }

  /** "A confirmed order's holds are all committed" is false of the code, even if the order's time
      stamp is no later than their expiry. A hold is due at 900. The confirming transaction starts at
      900; a sweep that starts at 901 commits while it is open; the confirmation then finds nothing to
      commit, and stamps the order with 900. */
  lemma {:induction false} ConfirmedWithExpiredHold()
    ensures var actions := [CORNER_SALE, Tick(900), Charge(0, PAID_IN_FULL), Tick(1), Sweep({0}, 901), Settle2(0, 900)];
            var db := Run(Opening(CORNER_STOCK, 0), actions).db;
            && 0 < |db.orders| && db.orders[0].status == Confirmed
            && 0 < |db.books.holds| && db.books.holds[0].status == Expired
            && db.orders[0].updatedAt <= db.books.holds[0].expiresAt
  {
    hide Inv, Next, Run;
    var late := LateSale();
    LateConfirmation(late, CORNER_STOCK, 0, 0, 901, 900);
    var sale := [CORNER_SALE, Tick(900), Charge(0, PAID_IN_FULL), Tick(1)];
    RunSnoc(Opening(CORNER_STOCK, 0), sale, Sweep({0}, 901));
    RunSnoc(Opening(CORNER_STOCK, 0), sale + [Sweep({0}, 901)], Settle2(0, 900));
    assert sale + [Sweep({0}, 901)] + [Settle2(0, 900)] ==
           [CORNER_SALE, Tick(900), Charge(0, PAID_IN_FULL), Tick(1), Sweep({0}, 901), Settle2(0, 900)];
  }

  lemma {:induction false} RunSnoc(w: World, init: seq<Action>, a: Action)
    ensures Run(w, init + [a]) == Next(Run(w, init), a)
  {
  }

  lemma {:induction false} FourSteps(w: World, a: Action, b: Action, c: Action, d: Action)
    ensures Run(w, [a, b, c, d]) == Next(Next(Next(Next(w, a), b), c), d)
  {
    hide Next, Run;
    assert [a] == [] + [a] && [a, b] == [a] + [b] && [a, b, c] == [a, b] + [c] && [a, b, c, d] == [a, b, c] + [d];
    RunNone(w);
    RunSnoc(w, [], a);
    RunSnoc(w, [a], b);
    RunSnoc(w, [a, b], c);
    RunSnoc(w, [a, b, c], d);
  }

  lemma {:induction false} RunNone(w: World)
    ensures Run(w, []) == w
  {
  }
}
