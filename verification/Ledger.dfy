/**
 The inventory / stock_reservations pair as values: what one guarded UPDATE does, what a
 sorted list of them does, and what reserve, settle and commit do to both tables at once.

 Reserving and handing back are the same shape: a guarded UPDATE that adds a positive or a
 negative amount to `reserved`. The guard is `on_hand - reserved >= q` for a reservation of q
 and `reserved >= q` for handing q back.
 */
module Ledger {
  import opened Common

  /** An inventory row's natural key; UUIDs are modelled by their total order. */
  datatype Sku = Sku(warehouse: int, product: int)

  datatype Stock = Stock(onHand: int, reserved: int)

  // uq_inventory_warehouse_product: at most one row for each pair.
  type Inventory = map<Sku, Stock>

  datatype Update = Update(sku: Sku, delta: int)

  datatype Item = Item(product: int, quantity: int)

  // RequestedItem.__post_init__ refuses anything else.
  type RequestedItem = i: Item | i.quantity > 0 witness Item(0, 1)

  datatype HoldStatus = Active | Committed | Released | Expired

  datatype Hold = Hold(order: nat, sku: Sku, quantity: int, status: HoldStatus,
                       expiresAt: int, releasedAt: Option<int>)

  /** Both tables. A reservation's id is its position. */
  datatype Books = Books(inventory: Inventory, holds: seq<Hold>)

  // ---------------------------------------------------------------- guarded updates

  predicate Precedes(a: Sku, b: Sku) {
    a.warehouse < b.warehouse || (a.warehouse == b.warehouse && a.product < b.product)
  }

  predicate InLockOrder(us: seq<Update>) {
    forall i, j :: 0 <= i < j < |us| ==> !Precedes(us[j].sku, us[i].sku)
  }

  predicate Fits(s: Stock, delta: int) {
    if delta >= 0 then s.onHand - s.reserved >= delta else s.reserved >= -delta
  }

  predicate Matches(inv: Inventory, u: Update) {
    u.sku in inv && Fits(inv[u.sku], u.delta)
  }

  function Bump(inv: Inventory, u: Update): Inventory
    requires u.sku in inv
  {
    inv[u.sku := Stock(inv[u.sku].onHand, inv[u.sku].reserved + u.delta)]
  }

  /** Every update matched, or the statement numbered `at` matched no row. */
  datatype Outcome = All(inventory: Inventory) | Stopped(inventory: Inventory, at: nat)

  /** One statement after the other, stopping at the first that matches no row. */
  function ApplyAll(inv: Inventory, us: seq<Update>): (r: Outcome)
    ensures r.Stopped? ==> r.at < |us|
  {
    if us == [] then All(inv)
    else
      var n := |us| - 1;
      match ApplyAll(inv, us[..n])
      case Stopped(partial, at) => Stopped(partial, at)
      case All(done) => if Matches(done, us[n]) then All(Bump(done, us[n])) else Stopped(done, n)
  }

  /** Net amount the list adds to row k. */
  function Total(us: seq<Update>, k: Sku): int {
    if us == [] then 0
    else Total(us[..|us| - 1], k) + if us[|us| - 1].sku == k then us[|us| - 1].delta else 0
  }

  predicate OneWay(us: seq<Update>) {
    (forall i :: 0 <= i < |us| ==> us[i].delta > 0) || (forall i :: 0 <= i < |us| ==> us[i].delta < 0)
  }

  predicate AllFit(inv: Inventory, us: seq<Update>) {
    forall i :: 0 <= i < |us| ==> us[i].sku in inv && Fits(inv[us[i].sku], Total(us, us[i].sku))
  }

  function Shift(inv: Inventory, us: seq<Update>): Inventory {
    map k | k in inv :: Stock(inv[k].onHand, inv[k].reserved + Total(us, k))
  }

  lemma {:induction false} TotalSign(us: seq<Update>, k: Sku)
    ensures (forall i :: 0 <= i < |us| ==> us[i].delta > 0) ==>
              Total(us, k) >= 0 && (forall i :: 0 <= i < |us| && us[i].sku == k ==> Total(us, k) > 0)
    ensures (forall i :: 0 <= i < |us| ==> us[i].delta < 0) ==>
              Total(us, k) <= 0 && (forall i :: 0 <= i < |us| && us[i].sku == k ==> Total(us, k) < 0)
    ensures (forall i :: 0 <= i < |us| ==> us[i].sku != k) ==> Total(us, k) == 0
  {
    if us != [] {
      TotalSign(us[..|us| - 1], k);
    }
  }

  /** Splitting off the last update: the list fits exactly when the rest does and the last one
      matches the row as the rest leaves it. */
  lemma {:induction false} AllFitSplit(inv: Inventory, us: seq<Update>)
    requires us != [] && OneWay(us)
    ensures var init, last := us[..|us| - 1], us[|us| - 1];
            AllFit(inv, us) <==> AllFit(inv, init) && Matches(Shift(inv, init), last)
  {
    var n := |us| - 1;
    var init, last := us[..n], us[n];
    TotalSign(init, last.sku);
    if AllFit(inv, us) {
      forall i | 0 <= i < n ensures init[i].sku in inv && Fits(inv[init[i].sku], Total(init, init[i].sku)) {
        assert us[i] == init[i];
        TotalSign(init, init[i].sku);
      }
    }
    if AllFit(inv, init) && Matches(Shift(inv, init), last) {
      forall i | 0 <= i < |us| ensures us[i].sku in inv && Fits(inv[us[i].sku], Total(us, us[i].sku)) {
        if i < n {
          assert us[i] == init[i];
          TotalSign(init, init[i].sku);
        }
      }
    }
  }

  /** A list of reservations (or of returns) succeeds exactly when, for every row it names, the
      row's total fits the initial row; success moves every row by its total and nothing else. */
  lemma {:induction false} ApplyAllExact(inv: Inventory, us: seq<Update>)
    requires OneWay(us)
    ensures ApplyAll(inv, us).All? <==> AllFit(inv, us)
    ensures ApplyAll(inv, us).All? ==> ApplyAll(inv, us).inventory == Shift(inv, us)
  {
    if us != [] {
      ApplyAllExact(inv, us[..|us| - 1]);
      AllFitSplit(inv, us);
    }
  }

  // ---------------------------------------------------------------- lock order

  function Insert(us: seq<Update>, u: Update): seq<Update> {
    if us == [] || !Precedes(u.sku, us[|us| - 1].sku) then us + [u]
    else Insert(us[..|us| - 1], u) + [us[|us| - 1]]
  }

  lemma {:induction false} InsertBag(us: seq<Update>, u: Update)
    ensures multiset(Insert(us, u)) == multiset(us) + multiset{u}
  {
    if us != [] && Precedes(u.sku, us[|us| - 1].sku) {
      InsertBag(us[..|us| - 1], u);
      RemoveLast(us);
    }
  }

  /** Nothing in the list belongs behind u. */
  predicate NoneAfter(us: seq<Update>, u: Update) {
    forall i :: 0 <= i < |us| ==> !Precedes(u.sku, us[i].sku)
  }

  lemma {:induction false} OrderSnoc(us: seq<Update>, u: Update)
    ensures InLockOrder(us + [u]) <==> InLockOrder(us) && NoneAfter(us, u)
  {
    var all := us + [u];
    if InLockOrder(all) {
      forall i | 0 <= i < |us| ensures !Precedes(u.sku, us[i].sku) {
        assert all[i] == us[i] && all[|us|] == u;
      }
      forall i, j | 0 <= i < j < |us| ensures !Precedes(us[j].sku, us[i].sku) {
        assert all[i] == us[i] && all[j] == us[j];
      }
    }
  }

  lemma {:induction false} InsertNoneAfter(us: seq<Update>, u: Update, v: Update)
    requires NoneAfter(us, v) && !Precedes(v.sku, u.sku)
    ensures NoneAfter(Insert(us, u), v)
  {
    if us != [] && Precedes(u.sku, us[|us| - 1].sku) {
      InsertNoneAfter(us[..|us| - 1], u, v);
    }
  }

  lemma {:induction false} InsertKeepsOrder(us: seq<Update>, u: Update)
    requires InLockOrder(us)
    ensures InLockOrder(Insert(us, u))
  {
    if us == [] || !Precedes(u.sku, us[|us| - 1].sku) {
      OrderSnoc(us, u);
    } else {
      var init, last := us[..|us| - 1], us[|us| - 1];
      assert us == init + [last];
      OrderSnoc(init, last);
      InsertKeepsOrder(init, u);
      InsertNoneAfter(init, u, last);
      OrderSnoc(Insert(init, u), last);
    }
  }

  /** `_lock_order`: a stable sort by (warehouse, product). */
  function LockOrder(us: seq<Update>): (r: seq<Update>)
    ensures InLockOrder(r) && multiset(r) == multiset(us)
  {
    if us == [] then []
    else
      var rest := LockOrder(us[..|us| - 1]);
      InsertKeepsOrder(rest, us[|us| - 1]);
      InsertBag(rest, us[|us| - 1]);
      RemoveLast(us);
      Insert(rest, us[|us| - 1])
  }

  /** What every writer of inventory relies on: ascending warehouse, then ascending product. */
  lemma {:induction false} LockOrderAscends(us: seq<Update>, i: nat, j: nat)
    requires i < j < |LockOrder(us)|
    ensures var a, b := LockOrder(us)[i].sku, LockOrder(us)[j].sku;
            a.warehouse < b.warehouse || (a.warehouse == b.warehouse && a.product <= b.product)
  {
    assert !Precedes(LockOrder(us)[j].sku, LockOrder(us)[i].sku);
  }

  lemma {:induction false} LockOrderMembers(us: seq<Update>)
    ensures |LockOrder(us)| == |us|
    ensures forall i :: 0 <= i < |us| ==> LockOrder(us)[i] in us
    ensures forall i :: 0 <= i < |us| ==> us[i] in LockOrder(us)
  {
    var sorted := LockOrder(us);
    assert |us| == |multiset(us)| == |multiset(sorted)| == |sorted|;
    forall i | 0 <= i < |us| ensures sorted[i] in us { assert sorted[i] in multiset(us); }
    forall i | 0 <= i < |us| ensures us[i] in sorted { assert us[i] in multiset(sorted); }
  }

  predicate DistinctRows(us: seq<Update>) {
    forall i, j :: 0 <= i < j < |us| ==> us[i].sku != us[j].sku
  }

  lemma {:induction false} TotalSplit(us: seq<Update>, j: nat, k: Sku)
    requires j < |us|
    ensures Total(us, k) == Total(us[..j] + us[j + 1..], k) + if us[j].sku == k then us[j].delta else 0
  {
    var n := |us| - 1;
    if j == n {
      assert us[..j] + us[j + 1..] == us[..n];
    } else {
      TotalSplit(us[..n], j, k);
      assert us[..n][..j] + us[..n][j + 1..] == (us[..j] + us[j + 1..])[..n - 1];
    }
  }

  lemma {:induction false} RemoveOne<T>(s: seq<T>, j: nat)
    requires j < |s|
    ensures multiset(s) == multiset(s[..j] + s[j + 1..]) + multiset{s[j]}
  {
    assert s == s[..j] + [s[j]] + s[j + 1..];
  }

  lemma {:induction false} RemoveLast<T>(s: seq<T>)
    requires s != []
    ensures multiset(s) == multiset(s[..|s| - 1]) + multiset{s[|s| - 1]}
  {
    assert s == s[..|s| - 1] + [s[|s| - 1]];
  }

  /** Equal bags stay equal when the last of one and its copy in the other are dropped. */
  lemma {:induction false} MatchLast<T>(s: seq<T>, t: seq<T>) returns (j: nat)
    requires multiset(s) == multiset(t) && s != []
    ensures j < |t| && t[j] == s[|s| - 1]
    ensures multiset(s[..|s| - 1]) == multiset(t[..j] + t[j + 1..])
  {
    assert s[|s| - 1] in multiset(s);
    j :| 0 <= j < |t| && t[j] == s[|s| - 1];
    RemoveLast(s);
    RemoveOne(t, j);
    var x, rest, others := s[|s| - 1], multiset(s[..|s| - 1]), multiset(t[..j] + t[j + 1..]);
    assert rest == (rest + multiset{x}) - multiset{x} == (others + multiset{x}) - multiset{x} == others;
  }

  /** Totals do not depend on the order of the list. */
  lemma {:induction false} TotalPermuted(us: seq<Update>, vs: seq<Update>, k: Sku)
    requires multiset(us) == multiset(vs)
    ensures Total(us, k) == Total(vs, k)
  {
    if us == [] {
      assert |multiset(vs)| == 0;
    } else {
      var n := |us| - 1;
      var j := MatchLast(us, vs);
      TotalPermuted(us[..n], vs[..j] + vs[j + 1..], k);
      TotalSplit(vs, j, k);
    }
  }

  lemma {:induction false} TotalDistinct(us: seq<Update>, i: nat)
    requires i < |us| && DistinctRows(us)
    ensures Total(us, us[i].sku) == us[i].delta
  {
    TotalSplit(us, i, us[i].sku);
    var rest := us[..i] + us[i + 1..];
    assert forall j :: 0 <= j < |rest| ==> rest[j].sku != us[i].sku;
    TotalSign(rest, us[i].sku);
  }

  lemma {:induction false} DistinctPermuted(us: seq<Update>, vs: seq<Update>)
    requires multiset(us) == multiset(vs) && DistinctRows(us)
    ensures DistinctRows(vs)
  {
    forall i, j | 0 <= i < j < |vs| ensures vs[i].sku != vs[j].sku {
      if vs[i].sku == vs[j].sku {
        assert vs[i] in multiset(us) && vs[j] in multiset(us);
        assert vs[i] == vs[j];
        assert vs == vs[..i] + [vs[i]] + vs[i + 1..j] + [vs[j]] + vs[j + 1..];
        assert multiset(vs)[vs[i]] >= 2;
        MultiplicityOne(us, vs[i]);
      }
    }
  }

  lemma {:induction false} MultiplicityOne(us: seq<Update>, u: Update)
    requires DistinctRows(us)
    ensures multiset(us)[u] <= 1
  {
    if us != [] {
      var n := |us| - 1;
      assert us == us[..n] + [us[n]];
      MultiplicityOne(us[..n], u);
      assert us[n] !in us[..n];
    }
  }

  lemma {:induction false} SameLast(us: seq<Update>, vs: seq<Update>)
    requires multiset(us) == multiset(vs) && us != [] && |us| == |vs|
    requires DistinctRows(us) && InLockOrder(us) && InLockOrder(vs)
    ensures us[|us| - 1] == vs[|vs| - 1]
  {
    var n := |us| - 1;
    assert us[n] in multiset(us) && vs[n] in multiset(vs);
    var j :| 0 <= j < |vs| && vs[j] == us[n];
    var i :| 0 <= i < |us| && us[i] == vs[n];
  }

  /** With one update for each row there is only one lock order. */
  lemma {:induction false} LockOrderUnique(us: seq<Update>, vs: seq<Update>)
    requires multiset(us) == multiset(vs) && DistinctRows(us)
    requires InLockOrder(us) && InLockOrder(vs)
    ensures us == vs
  {
    DistinctPermuted(us, vs);
    assert |us| == |multiset(us)| == |multiset(vs)| == |vs|;
    if us != [] {
      var n := |us| - 1;
      SameLast(us, vs);
      var j := MatchLast(us, vs);
      assert j == n && vs[..j] + vs[j + 1..] == vs[..n];
      LockOrderUnique(us[..n], vs[..n]);
    }
  }

  // ---------------------------------------------------------------- reserve

  datatype ReserveError = InsufficientStock(product: int, quantity: int) | DuplicateHold

  function Takes(warehouse: int, items: seq<RequestedItem>): (us: seq<Update>)
    ensures |us| == |items| && forall i :: 0 <= i < |us| ==>
          us[i] == Update(Sku(warehouse, items[i].product), items[i].quantity)
  {
    seq(|items|, i requires 0 <= i < |items| => Update(Sku(warehouse, items[i].product), items[i].quantity))
  }

  function NewHold(order: nat, u: Update, expiresAt: int): Hold {
    Hold(order, u.sku, u.delta, Active, expiresAt, None)
  }

  function NewHolds(order: nat, us: seq<Update>, expiresAt: int): (hs: seq<Hold>)
    ensures |hs| == |us| && forall i :: 0 <= i < |us| ==> hs[i] == NewHold(order, us[i], expiresAt)
  {
    seq(|us|, i requires 0 <= i < |us| => NewHold(order, us[i], expiresAt))
  }

  /** uq_stock_reservations_order_warehouse_product. */
  predicate UniqueHolds(holds: seq<Hold>) {
    forall i, j :: 0 <= i < j < |holds| ==> holds[i].order != holds[j].order || holds[i].sku != holds[j].sku
  }

  /** One guarded increment and its hold. The session writes a pending hold before it sends the
      next statement, so a hold that repeats is refused before the next row is tried. */
  function ReserveRow(books: Books, order: nat, u: Update, expiresAt: int): Result<Books, ReserveError> {
    if !Matches(books.inventory, u) then Err(InsufficientStock(u.sku.product, u.delta))
    else
      var holds := books.holds + [NewHold(order, u, expiresAt)];
      if UniqueHolds(holds) then Ok(Books(Bump(books.inventory, u), holds)) else Err(DuplicateHold)
  }

  function ReserveSorted(books: Books, order: nat, us: seq<Update>, expiresAt: int): Result<Books, ReserveError> {
    if us == [] then Ok(books)
    else
      match ReserveSorted(books, order, us[..|us| - 1], expiresAt)
      case Err(e) => Err(e)
      case Ok(so) => ReserveRow(so, order, us[|us| - 1], expiresAt)
  }

  /** A reservation that goes through applied every update and appended every hold. */
  lemma {:induction false} ReservedAll(books: Books, order: nat, us: seq<Update>, expiresAt: int)
    requires ReserveSorted(books, order, us, expiresAt).Ok?
    ensures var after := ReserveSorted(books, order, us, expiresAt).value;
            && ApplyAll(books.inventory, us) == All(after.inventory)
            && after.holds == books.holds + NewHolds(order, us, expiresAt)
            && (UniqueHolds(books.holds) ==> UniqueHolds(after.holds))
  {
    if us != [] {
      ReservedAll(books, order, us[..|us| - 1], expiresAt);
      NewHoldsSnoc(books.holds, order, us, expiresAt);
    }
  }

  /** When no hold would repeat, only the stock decides, and a refusal names the update that stopped. */
  lemma {:induction false} StockDecides(books: Books, order: nat, us: seq<Update>, expiresAt: int)
    requires UniqueHolds(books.holds + NewHolds(order, us, expiresAt))
    ensures match ApplyAll(books.inventory, us)
            case All(inventory) =>
              ReserveSorted(books, order, us, expiresAt) ==
                    Ok(Books(inventory, books.holds + NewHolds(order, us, expiresAt)))
            case Stopped(_, at) =>
              ReserveSorted(books, order, us, expiresAt) == Err(InsufficientStock(us[at].sku.product, us[at].delta))
  {
    if us == [] {
      assert books.holds + NewHolds(order, us, expiresAt) == books.holds;
    } else {
      NewHoldsSnoc(books.holds, order, us, expiresAt);
      FewerUnique(books.holds + NewHolds(order, us[..|us| - 1], expiresAt), NewHold(order, us[|us| - 1], expiresAt));
      StockDecides(books, order, us[..|us| - 1], expiresAt);
    }
  }

  lemma {:induction false} FewerUnique(holds: seq<Hold>, h: Hold)
    requires UniqueHolds(holds + [h])
    ensures UniqueHolds(holds)
  {
    forall i, j | 0 <= i < j < |holds| ensures holds[i].order != holds[j].order || holds[i].sku != holds[j].sku {
      assert (holds + [h])[i] == holds[i] && (holds + [h])[j] == holds[j];
    }
  }

  /** `reserve_stock` as one atomic step; an error means the caller's transaction rolls back. */
  function Reserve(books: Books, order: nat, warehouse: int, items: seq<RequestedItem>, expiresAt: int)
    : Result<Books, ReserveError>
  {
    ReserveSorted(books, order, LockOrder(Takes(warehouse, items)), expiresAt)
  }

  predicate DistinctProducts(items: seq<RequestedItem>) {
    forall i, j :: 0 <= i < j < |items| ==> items[i].product != items[j].product
  }

  predicate FreshOrder(holds: seq<Hold>, order: nat) {
    forall i :: 0 <= i < |holds| ==> holds[i].order != order
  }

  predicate Available(inv: Inventory, warehouse: int, item: RequestedItem) {
    var k := Sku(warehouse, item.product);
    k in inv && inv[k].onHand - inv[k].reserved >= item.quantity
  }

  lemma {:induction false} TakesInOrder(warehouse: int, items: seq<RequestedItem>)
    requires DistinctProducts(items)
    ensures var ts, us := Takes(warehouse, items), LockOrder(Takes(warehouse, items));
            DistinctRows(us) && OneWay(us) && |us| == |items| &&
            (forall i :: 0 <= i < |us| ==> us[i] in ts) &&
            (forall i :: 0 <= i < |ts| ==> ts[i] in us)
  {
    DistinctPermuted(Takes(warehouse, items), LockOrder(Takes(warehouse, items)));
    LockOrderMembers(Takes(warehouse, items));
  }

  predicate AllAvailable(inv: Inventory, warehouse: int, items: seq<RequestedItem>) {
    forall i :: 0 <= i < |items| ==> Available(inv, warehouse, items[i])
  }

  /** All or nothing: for distinct products the reservation succeeds exactly when every item
      alone fits the initial availability. */
  lemma {:induction false} ReserveSucceedsIff(books: Books, order: nat, warehouse: int, items: seq<RequestedItem>,
          expiresAt: int)
    requires DistinctProducts(items) && FreshOrder(books.holds, order) && UniqueHolds(books.holds)
    ensures Reserve(books, order, warehouse, items, expiresAt).Ok? <==> AllAvailable(books.inventory, warehouse, items)
  {
    hide AllAvailable, UniqueHolds, FreshOrder, DistinctProducts;
    var us := LockOrder(Takes(warehouse, items));
    TakesInOrder(warehouse, items);
    ApplyAllExact(books.inventory, us);
    forall i | 0 <= i < |us| ensures Total(us, us[i].sku) == us[i].delta { TotalDistinct(us, i); }
    ItemsAreUpdates(books.inventory, warehouse, items);
    NewHoldsUnique(books.holds, order, us, expiresAt);
    StockDecides(books, order, us, expiresAt);
  }

  lemma {:induction false} NewHoldsUnique(holds: seq<Hold>, order: nat, us: seq<Update>, expiresAt: int)
    requires UniqueHolds(holds) && FreshOrder(holds, order) && DistinctRows(us)
    ensures UniqueHolds(holds + NewHolds(order, us, expiresAt))
  {
  }

  lemma {:induction false} ItemRaised(inv: Inventory, warehouse: int, items: seq<RequestedItem>, i: nat)
    requires DistinctProducts(items) && i < |items| && AllFit(inv, LockOrder(Takes(warehouse, items)))
    ensures Raised(inv, Shift(inv, LockOrder(Takes(warehouse, items))), warehouse, items[i])
  {
    var ts, us := Takes(warehouse, items), LockOrder(Takes(warehouse, items));
    TakesInOrder(warehouse, items);
    assert ts[i] in us;
    var j :| 0 <= j < |us| && us[j] == ts[i];
    TotalDistinct(us, j);
  }

  lemma {:induction false} UnnamedKept(inv: Inventory, warehouse: int, items: seq<RequestedItem>, k: Sku)
    requires k in inv && !Names(items, warehouse, k)
    ensures Shift(inv, LockOrder(Takes(warehouse, items)))[k] == inv[k]
  {
    var ts := Takes(warehouse, items);
    TotalPermuted(LockOrder(ts), ts, k);
    forall j | 0 <= j < |ts| ensures ts[j].sku != k { assert Sku(warehouse, items[j].product) == ts[j].sku; }
    TotalSign(ts, k);
  }

  lemma {:induction false} ReserveIsShift(books: Books, order: nat, warehouse: int, items: seq<RequestedItem>,
          expiresAt: int)
    requires DistinctProducts(items) && Reserve(books, order, warehouse, items, expiresAt).Ok?
    ensures AllFit(books.inventory, LockOrder(Takes(warehouse, items)))
    ensures Reserve(books, order, warehouse, items, expiresAt).value.inventory ==
          Shift(books.inventory, LockOrder(Takes(warehouse, items)))
  {
    TakesInOrder(warehouse, items);
    ReservedAll(books, order, LockOrder(Takes(warehouse, items)), expiresAt);
    ApplyAllExact(books.inventory, LockOrder(Takes(warehouse, items)));
  }

  /** Success adds exactly each quantity to its own row and touches no other row. */
  lemma {:induction false} ReserveMovesStock(books: Books, order: nat, warehouse: int, items: seq<RequestedItem>,
          expiresAt: int)
    requires DistinctProducts(items) && Reserve(books, order, warehouse, items, expiresAt).Ok?
    ensures var after := Reserve(books, order, warehouse, items, expiresAt).value.inventory;
            && after.Keys == books.inventory.Keys
            && (forall i :: 0 <= i < |items| ==> Raised(books.inventory, after, warehouse, items[i]))
            && (forall k :: k in books.inventory && !Names(items, warehouse, k) ==> after[k] == books.inventory[k])
  {
    var inv, us := books.inventory, LockOrder(Takes(warehouse, items));
    ReserveIsShift(books, order, warehouse, items, expiresAt);
    forall i | 0 <= i < |items| ensures Raised(inv, Shift(inv, us), warehouse, items[i]) {
      ItemRaised(inv, warehouse, items, i);
    }
    forall k | k in inv && !Names(items, warehouse, k) ensures Shift(inv, us)[k] == inv[k] {
      UnnamedKept(inv, warehouse, items, k);
    }
  }

  /** What an order holds, whatever became of the holds: a bag of (row, quantity) pairs. */
  function EntryBag(holds: seq<Hold>, order: nat): multiset<Update> {
    if holds == [] then multiset{}
    else
      var n := |holds| - 1;
      EntryBag(holds[..n], order) +
      if holds[n].order == order then multiset{Update(holds[n].sku, holds[n].quantity)} else multiset{}
  }

  lemma {:induction false} EntryBagSnoc(holds: seq<Hold>, h: Hold, o: nat)
    ensures EntryBag(holds + [h], o)
         == EntryBag(holds, o) + if h.order == o then multiset{Update(h.sku, h.quantity)} else multiset{}
  {
  }

  lemma {:induction false} NewHoldsSnoc(holds: seq<Hold>, order: nat, us: seq<Update>, expiresAt: int)
    requires us != []
    ensures var n := |us| - 1;
            holds + NewHolds(order, us, expiresAt) ==
                  holds + NewHolds(order, us[..n], expiresAt) + [NewHold(order, us[n], expiresAt)]
  {
  }

  lemma {:induction false} EntryBagNew(holds: seq<Hold>, order: nat, us: seq<Update>, expiresAt: int, o: nat)
    ensures EntryBag(holds + NewHolds(order, us, expiresAt), o)
         == EntryBag(holds, o) + if o == order then multiset(us) else multiset{}
  {
    if us == [] {
      assert holds + NewHolds(order, us, expiresAt) == holds;
    } else {
      var n := |us| - 1;
      EntryBagNew(holds, order, us[..n], expiresAt, o);
      NewHoldsSnoc(holds, order, us, expiresAt);
      EntryBagSnoc(holds + NewHolds(order, us[..n], expiresAt), NewHold(order, us[n], expiresAt), o);
      RemoveLast(us);
    }
  }

  lemma {:induction false} EntryBagFresh(holds: seq<Hold>, order: nat)
    requires FreshOrder(holds, order)
    ensures EntryBag(holds, order) == multiset{}
  {
    if holds != [] {
      EntryBagFresh(holds[..|holds| - 1], order);
    }
  }

  /** Success leaves the holds already there and appends active ones of this order. */
  lemma {:induction false} ReserveAppends(books: Books, order: nat, warehouse: int, items: seq<RequestedItem>,
          expiresAt: int)
    requires Reserve(books, order, warehouse, items, expiresAt).Ok?
    ensures var before, after := books.holds, Reserve(books, order, warehouse, items, expiresAt).value.holds;
            && |before| <= |after| && after[..|before|] == before
            && forall i :: |before| <= i < |after| ==>
                 && after[i].order == order && after[i].status == Active && after[i].expiresAt == expiresAt
                 && after[i].releasedAt == None
  {
    ReservedAll(books, order, LockOrder(Takes(warehouse, items)), expiresAt);
  }

  /** Success gives the order exactly one hold per requested item and changes no other order's. */
  lemma {:induction false} ReserveAddsHolds(books: Books, order: nat, warehouse: int, items: seq<RequestedItem>,
          expiresAt: int, o: nat)
    requires FreshOrder(books.holds, order) && Reserve(books, order, warehouse, items, expiresAt).Ok?
    ensures EntryBag(Reserve(books, order, warehouse, items, expiresAt).value.holds, o)
         == if o == order then multiset(Takes(warehouse, items)) else EntryBag(books.holds, o)
  {
    ReservedAll(books, order, LockOrder(Takes(warehouse, items)), expiresAt);
    EntryBagFresh(books.holds, order);
    EntryBagNew(books.holds, order, LockOrder(Takes(warehouse, items)), expiresAt, o);
  }

  predicate Names(items: seq<RequestedItem>, warehouse: int, k: Sku) {
    exists i :: 0 <= i < |items| && Sku(warehouse, items[i].product) == k
  }

  predicate Raised(before: Inventory, after: Inventory, warehouse: int, item: RequestedItem) {
    var k := Sku(warehouse, item.product);
    k in before && k in after && after[k] == Stock(before[k].onHand, before[k].reserved + item.quantity)
  }

  /** Failure names a short item such that everything before it in lock order was available. */
  lemma {:induction false} ReserveFailure(books: Books, order: nat, warehouse: int, items: seq<RequestedItem>,
          expiresAt: int)
    returns (short: RequestedItem)
    requires DistinctProducts(items) && FreshOrder(books.holds, order) && UniqueHolds(books.holds)
    requires Reserve(books, order, warehouse, items, expiresAt).Err?
    ensures short in items && !Available(books.inventory, warehouse, short)
    ensures Reserve(books, order, warehouse, items, expiresAt).error == InsufficientStock(short.product, short.quantity)
    ensures forall i :: 0 <= i < |items| && items[i].product < short.product ==>
          Available(books.inventory, warehouse, items[i])
  {
    var inv, ts, us := books.inventory, Takes(warehouse, items), LockOrder(Takes(warehouse, items));
    TakesInOrder(warehouse, items);
    NewHoldsUnique(books.holds, order, us, expiresAt);
    StockDecides(books, order, us, expiresAt);
    FirstShort(inv, us);
    var at := ApplyAll(inv, us).at;
    assert us[at] in ts;
    var j :| 0 <= j < |items| && ts[j] == us[at];
    short := items[j];
    forall i | 0 <= i < |items| && items[i].product < short.product ensures Available(inv, warehouse, items[i]) {
      assert ts[i] in us;
    }
  }

  /** Where the list stopped: everything before fits the initial rows, this one does not. */
  lemma {:induction false} StoppedAt(inv: Inventory, us: seq<Update>)
    requires OneWay(us) && DistinctRows(us) && ApplyAll(inv, us).Stopped?
    ensures var at := ApplyAll(inv, us).at;
            !Matches(inv, us[at]) && forall i :: 0 <= i < at ==> Matches(inv, us[i])
  {
    var n := |us| - 1;
    var init := us[..n];
    match ApplyAll(inv, init)
    case Stopped(_, _) => StoppedAt(inv, init);
    case All(done) =>
      ApplyAllExact(inv, init);
      forall i | 0 <= i < n ensures Matches(inv, us[i]) {
        assert us[i] == init[i];
        TotalDistinct(init, i);
      }
      TotalSign(init, us[n].sku);
  }

  lemma {:induction false} FirstShort(inv: Inventory, us: seq<Update>)
    requires OneWay(us) && DistinctRows(us) && InLockOrder(us) && ApplyAll(inv, us).Stopped?
    ensures var at := ApplyAll(inv, us).at;
            !Matches(inv, us[at]) && forall u :: u in us && Precedes(u.sku, us[at].sku) ==> Matches(inv, u)
  {
    StoppedAt(inv, us);
  }

  lemma {:induction false} ItemsAreUpdates(inv: Inventory, warehouse: int, items: seq<RequestedItem>)
    requires DistinctProducts(items)
    ensures var us := LockOrder(Takes(warehouse, items));
            (forall i :: 0 <= i < |us| ==> Matches(inv, us[i])) <==> AllAvailable(inv, warehouse, items)
  {
    var ts, us := Takes(warehouse, items), LockOrder(Takes(warehouse, items));
    TakesInOrder(warehouse, items);
    if forall i :: 0 <= i < |us| ==> Matches(inv, us[i]) {
      forall i | 0 <= i < |items| ensures Available(inv, warehouse, items[i]) {
        assert ts[i] in us;
      }
    }
    if AllAvailable(inv, warehouse, items) {
      forall i | 0 <= i < |us| ensures Matches(inv, us[i]) {
        assert us[i] in ts;
      }
    }
  }

  /** The outcome does not depend on the order in which the items were listed. */
  lemma {:induction false} ReserveOrderIrrelevant(books: Books, order: nat, warehouse: int, items: seq<RequestedItem>,
          others: seq<RequestedItem>, expiresAt: int)
    requires DistinctProducts(items) && multiset(items) == multiset(others)
    ensures Reserve(books, order, warehouse, items, expiresAt) == Reserve(books, order, warehouse, others, expiresAt)
  {
    TakesInOrder(warehouse, items);
    TakesPermuted(warehouse, items, others);
    LockOrderUnique(LockOrder(Takes(warehouse, items)), LockOrder(Takes(warehouse, others)));
  }

  lemma {:induction false} TakesPermuted(warehouse: int, items: seq<RequestedItem>, others: seq<RequestedItem>)
    requires multiset(items) == multiset(others)
    ensures multiset(Takes(warehouse, items)) == multiset(Takes(warehouse, others))
  {
    var ts, os := Takes(warehouse, items), Takes(warehouse, others);
    if items == [] {
      assert |multiset(others)| == 0;
    } else {
      var n := |items| - 1;
      var j := MatchLast(items, others);
      TakesPermuted(warehouse, items[..n], others[..j] + others[j + 1..]);
      assert Takes(warehouse, items[..n]) == ts[..n];
      assert Takes(warehouse, others[..j] + others[j + 1..]) == os[..j] + os[j + 1..];
      RemoveLast(ts);
      RemoveOne(os, j);
    }
  }
}
