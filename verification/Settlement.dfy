/**
 Ending holds: the claim that moves holds out of `active`, the hand-back of their quantities, and
 the conservation law that ties `inventory.reserved` to the holds.
 */
module Settlement {
  import opened Common
  import opened Ledger

  datatype SettleError = InvariantViolated

  /** Re-testing `status = 'active'` on the rows named by `ids`. */
  function StillActive(holds: seq<Hold>, ids: set<nat>): set<nat> {
    set i | i in ids && i < |holds| && holds[i].status == Active
  }

  function ActiveOf(holds: seq<Hold>, order: nat): set<nat> {
    set i: nat | i < |holds| && holds[i].order == order && holds[i].status == Active
  }

  function ExpiredBy(holds: seq<Hold>, now: int): set<nat> {
    set i: nat | i < |holds| && holds[i].status == Active && holds[i].expiresAt < now
  }

  function Mark(holds: seq<Hold>, ids: set<nat>, status: HoldStatus, now: int): (r: seq<Hold>)
    ensures |r| == |holds|
    ensures forall i :: 0 <= i < |holds| ==>
              r[i] == if i in ids then holds[i].(status := status, releasedAt := Some(now)) else holds[i]
  {
    seq(|holds|, i requires 0 <= i < |holds| =>
      if i in ids then holds[i].(status := status, releasedAt := Some(now)) else holds[i])
  }

  /** How much of row k the claimed holds kept. */
  function Claimed(holds: seq<Hold>, ids: set<nat>, k: Sku): int {
    if holds == [] then 0
    else
      var n := |holds| - 1;
      Claimed(holds[..n], ids, k) + if n in ids && holds[n].sku == k then holds[n].quantity else 0
  }

  function RowsHeld(holds: seq<Hold>, ids: set<nat>): set<Sku> {
    set i | i in ids && i < |holds| :: holds[i].sku
  }

  predicate Returnable(books: Books, ids: set<nat>) {
    forall k :: k in RowsHeld(books.holds, ids) ==>
      k in books.inventory && books.inventory[k].reserved >= Claimed(books.holds, ids, k)
  }

  function Lower(inv: Inventory, holds: seq<Hold>, ids: set<nat>): Inventory {
    map k | k in inv :: Stock(inv[k].onHand, inv[k].reserved - Claimed(holds, ids, k))
  }

  /** Claim what is still active among `ids`, then lower each row by the sum of what was claimed. */
  function Settle(books: Books, ids: set<nat>, status: HoldStatus, now: int): Result<Books, SettleError> {
    var claimed := StillActive(books.holds, ids);
    if Returnable(books, claimed)
    then Ok(Books(Lower(books.inventory, books.holds, claimed), Mark(books.holds, claimed, status, now)))
    else Err(InvariantViolated)
  }

  /** `release_reservation`. */
  function Release(books: Books, order: nat, now: int): Result<Books, SettleError> {
    Settle(books, ActiveOf(books.holds, order), Released, now)
  }

  /** `settle_for_order`: the holds end, the stock stays reserved. */
  function EndHolds(books: Books, order: nat, status: HoldStatus, now: int): Books {
    Books(books.inventory, Mark(books.holds, ActiveOf(books.holds, order), status, now))
  }

  function CommitHolds(books: Books, order: nat, now: int): Books {
    EndHolds(books, order, Committed, now)
  }

  // ---------------------------------------------------------------- conservation

  predicate KeepsStock(s: HoldStatus) { s == Active || s == Committed }

  /** What the holds that still count keep of row k. */
  function Held(holds: seq<Hold>, k: Sku): int {
    if holds == [] then 0
    else
      var n := |holds| - 1;
      Held(holds[..n], k) + if holds[n].sku == k && KeepsStock(holds[n].status) then holds[n].quantity else 0
  }

  predicate HoldsOnRows(books: Books) {
    forall i :: 0 <= i < |books.holds| ==> books.holds[i].quantity > 0 && books.holds[i].sku in books.inventory
  }

  /** `base` is the inventory as first stocked, which may already carry a positive `reserved`. */
  predicate Conserved(books: Books, base: Inventory) {
    && books.inventory.Keys == base.Keys
    && HoldsOnRows(books)
    && forall k :: k in base ==>
         && books.inventory[k].onHand == base[k].onHand
         && books.inventory[k].reserved == base[k].reserved + Held(books.holds, k)
         && 0 <= base[k].reserved
         && books.inventory[k].reserved <= books.inventory[k].onHand
  }

  /** What the check constraints ask of the inventory before the first order. */
  predicate Stocked(base: Inventory) {
    forall k :: k in base ==> 0 <= base[k].reserved <= base[k].onHand
  }

  lemma {:induction false} HeldNew(holds: seq<Hold>, order: nat, us: seq<Update>, expiresAt: int, k: Sku)
    ensures Held(holds + NewHolds(order, us, expiresAt), k) == Held(holds, k) + Total(us, k)
  {
    var all := holds + NewHolds(order, us, expiresAt);
    if us == [] {
      assert all == holds;
    } else {
      HeldNew(holds, order, us[..|us| - 1], expiresAt, k);
      assert all[..|all| - 1] == holds + NewHolds(order, us[..|us| - 1], expiresAt);
    }
  }

  lemma {:induction false} MarkInit(holds: seq<Hold>, ids: set<nat>, status: HoldStatus, now: int)
    requires holds != []
    ensures Mark(holds, ids, status, now)[..|holds| - 1] == Mark(holds[..|holds| - 1], ids, status, now)
  {
  }

  lemma {:induction false} HeldMarked(holds: seq<Hold>, ids: set<nat>, status: HoldStatus, now: int, k: Sku)
    requires forall i :: i in ids && i < |holds| ==> holds[i].status == Active
    ensures Held(Mark(holds, ids, status, now), k)
         == Held(holds, k) - if KeepsStock(status) then 0 else Claimed(holds, ids, k)
  {
    if holds != [] {
      HeldMarked(holds[..|holds| - 1], ids, status, now, k);
      MarkInit(holds, ids, status, now);
    }
  }

  /** Active holds never claim more of a row than the holds keep of it. */
  lemma {:induction false} ClaimedWithinHeld(holds: seq<Hold>, ids: set<nat>, k: Sku)
    requires forall i :: i in ids && i < |holds| ==> holds[i].status == Active
    requires forall i :: 0 <= i < |holds| ==> holds[i].quantity > 0
    ensures 0 <= Claimed(holds, ids, k) <= Held(holds, k)
  {
    if holds != [] {
      ClaimedWithinHeld(holds[..|holds| - 1], ids, k);
    }
  }

  /** While the books balance the hand-back loop never meets a row too low: the "inventory
      invariant violated" raise cannot happen. */
  lemma {:induction false} SettleNeverRaises(books: Books, base: Inventory, ids: set<nat>, status: HoldStatus, now: int)
    requires Conserved(books, base)
    ensures Settle(books, ids, status, now).Ok?
  {
    var claimed := StillActive(books.holds, ids);
    forall k | k in RowsHeld(books.holds, claimed)
      ensures k in books.inventory && books.inventory[k].reserved >= Claimed(books.holds, claimed, k)
    {
      ClaimedWithinHeld(books.holds, claimed, k);
    }
  }

  lemma {:induction false} SettleConserves(books: Books, base: Inventory, ids: set<nat>, status: HoldStatus, now: int)
    requires Conserved(books, base) && !KeepsStock(status)
    ensures Settle(books, ids, status, now).Ok? && Conserved(Settle(books, ids, status, now).value, base)
  {
    var claimed := StillActive(books.holds, ids);
    SettleNeverRaises(books, base, ids, status, now);
    var after := Settle(books, ids, status, now).value;
    forall k | k in base
      ensures after.inventory[k].reserved == base[k].reserved + Held(after.holds, k)
      ensures after.inventory[k].reserved <= after.inventory[k].onHand
    {
      HeldMarked(books.holds, claimed, status, now, k);
      ClaimedWithinHeld(books.holds, claimed, k);
    }
  }

  lemma {:induction false} CommitConserves(books: Books, base: Inventory, order: nat, now: int)
    requires Conserved(books, base)
    ensures Conserved(CommitHolds(books, order, now), base)
  {
    forall k | k in base ensures Held(CommitHolds(books, order, now).holds, k) == Held(books.holds, k) {
      HeldMarked(books.holds, ActiveOf(books.holds, order), Committed, now, k);
    }
  }

  lemma {:induction false} TakesPositive(warehouse: int, items: seq<RequestedItem>)
    ensures OneWay(LockOrder(Takes(warehouse, items)))
    ensures forall u :: u in LockOrder(Takes(warehouse, items)) ==> u.delta > 0
  {
    var us := LockOrder(Takes(warehouse, items));
    LockOrderMembers(Takes(warehouse, items));
    assert forall i :: 0 <= i < |us| ==> us[i].delta > 0;
  }

  /** The books after every update of a reservation matched. */
  function Taken(books: Books, order: nat, us: seq<Update>, expiresAt: int): Books {
    Books(Shift(books.inventory, us), books.holds + NewHolds(order, us, expiresAt))
  }

  lemma {:induction false} ReserveIsTaken(books: Books, order: nat, warehouse: int, items: seq<RequestedItem>,
          expiresAt: int)
    requires Reserve(books, order, warehouse, items, expiresAt).Ok?
    ensures var us := LockOrder(Takes(warehouse, items));
            && AllFit(books.inventory, us) && (forall u :: u in us ==> u.delta > 0)
            && Reserve(books, order, warehouse, items, expiresAt).value == Taken(books, order, us, expiresAt)
  {
    ReservedAll(books, order, LockOrder(Takes(warehouse, items)), expiresAt);
    TakesPositive(warehouse, items);
    ApplyAllExact(books.inventory, LockOrder(Takes(warehouse, items)));
  }

  lemma {:induction false} TakenConserves(books: Books, base: Inventory, order: nat, us: seq<Update>, expiresAt: int)
    requires Conserved(books, base) && AllFit(books.inventory, us) && forall u :: u in us ==> u.delta > 0
    ensures Conserved(Taken(books, order, us, expiresAt), base)
  {
    var after := Taken(books, order, us, expiresAt);
    forall k | k in base
      ensures after.inventory[k].reserved == base[k].reserved + Held(after.holds, k)
      ensures after.inventory[k].reserved <= after.inventory[k].onHand
    {
      HeldNew(books.holds, order, us, expiresAt, k);
      TotalSign(us, k);
    }
    forall i | 0 <= i < |after.holds| ensures after.holds[i].quantity > 0 && after.holds[i].sku in after.inventory {
      if i >= |books.holds| {
        assert after.holds[i] == NewHold(order, us[i - |books.holds|], expiresAt);
      }
    }
  }

  lemma {:induction false} ReserveConserves(books: Books, base: Inventory, order: nat, warehouse: int,
          items: seq<RequestedItem>, expiresAt: int)
    requires Conserved(books, base) && Reserve(books, order, warehouse, items, expiresAt).Ok?
    ensures Conserved(Reserve(books, order, warehouse, items, expiresAt).value, base)
  {
    ReserveIsTaken(books, order, warehouse, items, expiresAt);
    TakenConserves(books, base, order, LockOrder(Takes(warehouse, items)), expiresAt);
  }

  /** Under conservation every row stays between zero and what is on hand. */
  lemma {:induction false} ReservedInRange(books: Books, base: Inventory, k: Sku)
    requires Conserved(books, base) && k in books.inventory
    ensures 0 <= books.inventory[k].reserved <= books.inventory[k].onHand
  {
    ClaimedWithinHeld(books.holds, {}, k);
  }

  // ---------------------------------------------------------------- reserve, then release

  lemma {:induction false} ClaimedNone(holds: seq<Hold>, ids: set<nat>, k: Sku)
    requires forall i: nat :: i < |holds| ==> i !in ids
    ensures Claimed(holds, ids, k) == 0
  {
    if holds != [] {
      ClaimedNone(holds[..|holds| - 1], ids, k);
    }
  }

  /** Claiming exactly the new holds claims exactly what was taken. */
  lemma {:induction false} ClaimedNew(holds: seq<Hold>, order: nat, us: seq<Update>, expiresAt: int, ids: set<nat>,
          k: Sku)
    requires forall i: nat :: i < |holds| + |us| ==> (i in ids <==> |holds| <= i)
    ensures Claimed(holds + NewHolds(order, us, expiresAt), ids, k) == Total(us, k)
  {
    var all := holds + NewHolds(order, us, expiresAt);
    if us == [] {
      assert all == holds;
      ClaimedNone(holds, ids, k);
    } else {
      ClaimedNew(holds, order, us[..|us| - 1], expiresAt, ids, k);
      assert all[..|all| - 1] == holds + NewHolds(order, us[..|us| - 1], expiresAt);
    }
  }

  lemma {:induction false} TakenThenLowered(books: Books, order: nat, us: seq<Update>, expiresAt: int)
    requires FreshOrder(books.holds, order)
    ensures var after := Taken(books, order, us, expiresAt);
            var ids := ActiveOf(after.holds, order);
            StillActive(after.holds, ids) == ids && Lower(after.inventory, after.holds, ids) == books.inventory
  {
    var after := Taken(books, order, us, expiresAt);
    var ids := ActiveOf(after.holds, order);
    assert StillActive(after.holds, ids) == ids;
    forall k | k in books.inventory ensures Lower(after.inventory, after.holds, ids)[k] == books.inventory[k] {
      ClaimedNew(books.holds, order, us, expiresAt, ids, k);
    }
  }

  /** Releasing a reservation puts every inventory row back exactly as it was before reserving. */
  lemma {:induction false} ReleaseUndoesReserve(books: Books, base: Inventory, order: nat, warehouse: int,
          items: seq<RequestedItem>, expiresAt: int, now: int)
    requires Conserved(books, base) && FreshOrder(books.holds, order)
    requires Reserve(books, order, warehouse, items, expiresAt).Ok?
    ensures var released := Release(Reserve(books, order, warehouse, items, expiresAt).value, order, now);
            released.Ok? && released.value.inventory == books.inventory
  {
    var us := LockOrder(Takes(warehouse, items));
    ReserveIsTaken(books, order, warehouse, items, expiresAt);
    TakenConserves(books, base, order, us, expiresAt);
    var after := Taken(books, order, us, expiresAt);
    SettleNeverRaises(after, base, ActiveOf(after.holds, order), Released, now);
    TakenThenLowered(books, order, us, expiresAt);
  }

  /** A second release claims nothing and changes nothing. */
  lemma {:induction false} SecondReleaseIsNoOp(books: Books, order: nat, now: int, later: int)
    requires Release(books, order, now).Ok?
    ensures var once := Release(books, order, now).value;
            ActiveOf(once.holds, order) == {} && Release(once, order, later) == Ok(once)
  {
    var once := Release(books, order, now).value;
    var ids := ActiveOf(books.holds, order);
    assert StillActive(books.holds, ids) == ids;
    assert ActiveOf(once.holds, order) == {};
    NothingClaimed(once, Released, later);
  }

  lemma {:induction false} NothingClaimed(books: Books, status: HoldStatus, now: int)
    ensures Settle(books, {}, status, now) == Ok(books)
  {
    assert StillActive(books.holds, {}) == {};
    forall k ensures Claimed(books.holds, {}, k) == 0 { ClaimedNone(books.holds, {}, k); }
    assert Mark(books.holds, {}, status, now) == books.holds;
    assert Lower(books.inventory, books.holds, {}) == books.inventory;
  }

  // ---------------------------------------------------------------- the hand-back loop

  function Returns(holds: seq<Hold>, rows: seq<nat>): (us: seq<Update>)
    requires forall j :: 0 <= j < |rows| ==> rows[j] < |holds|
    ensures |us| == |rows| && forall j :: 0 <= j < |us| ==>
          us[j] == Update(holds[rows[j]].sku, -holds[rows[j]].quantity)
  {
    seq(|rows|, j requires 0 <= j < |rows| => Update(holds[rows[j]].sku, -holds[rows[j]].quantity))
  }

  /** `rows` lists each id of `ids` once, in whatever order RETURNING produced them. */
  predicate Lists(rows: seq<nat>, ids: set<nat>) {
    && (forall j :: 0 <= j < |rows| ==> rows[j] in ids)
    && (forall i :: i in ids ==> i in rows)
    && (forall j, m :: 0 <= j < m < |rows| ==> rows[j] != rows[m])
  }

  lemma {:induction false} ClaimedAdd(holds: seq<Hold>, ids: set<nat>, i: nat, k: Sku)
    requires i !in ids
    ensures Claimed(holds, ids + {i}, k)
         == Claimed(holds, ids, k) + if i < |holds| && holds[i].sku == k then holds[i].quantity else 0
  {
    if holds != [] {
      ClaimedAdd(holds[..|holds| - 1], ids, i, k);
    }
  }

  lemma {:induction false} ListsInit(rows: seq<nat>, ids: set<nat>)
    requires Lists(rows, ids) && rows != []
    ensures var n := |rows| - 1; rows[n] in ids && Lists(rows[..n], ids - {rows[n]})
  {
  }

  lemma {:induction false} ReturnsLast(holds: seq<Hold>, rows: seq<nat>, k: Sku)
    requires rows != [] && forall j :: 0 <= j < |rows| ==> rows[j] < |holds|
    ensures var n := |rows| - 1;
            Total(Returns(holds, rows), k) == Total(Returns(holds, rows[..n]), k) - if holds[rows[n]].sku == k
                  then holds[rows[n]].quantity else 0
  {
    assert Returns(holds, rows)[..|rows| - 1] == Returns(holds, rows[..|rows| - 1]);
  }

  lemma {:induction false} ClaimedRemove(holds: seq<Hold>, ids: set<nat>, i: nat, k: Sku)
    requires i in ids && i < |holds|
    ensures Claimed(holds, ids, k) == Claimed(holds, ids - {i}, k) + if holds[i].sku == k then holds[i].quantity else 0
  {
    ClaimedAdd(holds, ids - {i}, i, k);
    assert ids - {i} + {i} == ids;
  }

  lemma {:induction false} ReturnsTotal(holds: seq<Hold>, rows: seq<nat>, ids: set<nat>, k: Sku)
    requires Lists(rows, ids) && forall i :: i in ids ==> i < |holds|
    ensures Total(Returns(holds, rows), k) == -Claimed(holds, ids, k)
  {
    if rows == [] {
      assert ids == {};
      ClaimedNone(holds, ids, k);
    } else {
      var n := |rows| - 1;
      ListsInit(rows, ids);
      ReturnsTotal(holds, rows[..n], ids - {rows[n]}, k);
      ReturnsLast(holds, rows, k);
      ClaimedRemove(holds, ids, rows[n], k);
    }
  }

  lemma {:induction false} HandBackTotals(holds: seq<Hold>, rows: seq<nat>, ids: set<nat>, k: Sku)
    requires Lists(rows, ids) && forall i :: i in ids ==> i < |holds|
    ensures Total(LockOrder(Returns(holds, rows)), k) == -Claimed(holds, ids, k)
  {
    TotalPermuted(LockOrder(Returns(holds, rows)), Returns(holds, rows), k);
    ReturnsTotal(holds, rows, ids, k);
  }

  function RowsNamed(us: seq<Update>): set<Sku> {
    set m | 0 <= m < |us| :: us[m].sku
  }

  /** The sorted updates name exactly the rows of the claimed holds, each with a negative amount. */
  lemma {:induction false} HandBackRows(holds: seq<Hold>, rows: seq<nat>, ids: set<nat>)
    requires Lists(rows, ids) && (forall i :: i in ids ==> i < |holds|)
    requires forall i :: 0 <= i < |holds| ==> holds[i].quantity > 0
    ensures var us := LockOrder(Returns(holds, rows));
            RowsNamed(us) == RowsHeld(holds, ids) && forall m :: 0 <= m < |us| ==> us[m].delta < 0
  {
    var rs, us := Returns(holds, rows), LockOrder(Returns(holds, rows));
    LockOrderMembers(rs);
    forall m | 0 <= m < |us| ensures us[m].delta < 0 && us[m].sku in RowsHeld(holds, ids) {
      assert us[m] in rs;
      var j :| 0 <= j < |rs| && rs[j] == us[m];
      assert rows[j] in ids;
    }
    forall i | i in ids && i < |holds| ensures holds[i].sku in RowsNamed(us) {
      var j :| 0 <= j < |rows| && rows[j] == i;
      assert rs[j] in us;
    }
  }

  lemma {:induction false} FitsIffReturnable(books: Books, us: seq<Update>, ids: set<nat>)
    requires RowsNamed(us) == RowsHeld(books.holds, ids) && forall m :: 0 <= m < |us| ==> us[m].delta < 0
    requires forall k :: Total(us, k) == -Claimed(books.holds, ids, k)
    ensures AllFit(books.inventory, us) <==> Returnable(books, ids)
  {
    forall k | k in RowsNamed(us) && k in books.inventory
      ensures Fits(books.inventory[k], Total(us, k)) <==> books.inventory[k].reserved >= Claimed(books.holds, ids, k)
    {
      TotalSign(us, k);
    }
    if AllFit(books.inventory, us) {
      assert forall k :: k in RowsNamed(us) ==> k in books.inventory && Fits(books.inventory[k], Total(us, k));
    }
    if Returnable(books, ids) {
      forall m | 0 <= m < |us|
        ensures us[m].sku in books.inventory && Fits(books.inventory[us[m].sku], Total(us, us[m].sku))
      {
        assert us[m].sku in RowsNamed(us);
      }
    }
  }

  lemma {:induction false} ShiftIsLower(books: Books, us: seq<Update>, ids: set<nat>)
    requires forall k :: Total(us, k) == -Claimed(books.holds, ids, k)
    ensures Shift(books.inventory, us) == Lower(books.inventory, books.holds, ids)
  {
  }

  lemma {:induction false} HandBackFits(books: Books, rows: seq<nat>, ids: set<nat>)
    requires Lists(rows, ids) && (forall i :: i in ids ==> i < |books.holds|)
    requires forall i :: 0 <= i < |books.holds| ==> books.holds[i].quantity > 0
    ensures var us := LockOrder(Returns(books.holds, rows));
            && OneWay(us) && (AllFit(books.inventory, us) <==> Returnable(books, ids))
            && Shift(books.inventory, us) == Lower(books.inventory, books.holds, ids)
  {
    var us := LockOrder(Returns(books.holds, rows));
    HandBackRows(books.holds, rows, ids);
    forall k ensures Total(us, k) == -Claimed(books.holds, ids, k) { HandBackTotals(books.holds, rows, ids, k); }
    FitsIffReturnable(books, us, ids);
    ShiftIsLower(books, us, ids);
  }

  /** The loop of guarded decrements, run in lock order over the claimed rows listed in any order,
      lowers each row by the sum of its claimed quantities; it fails exactly when some row holds
      less than that sum. */
  lemma {:induction false} HandBackExact(books: Books, rows: seq<nat>, ids: set<nat>)
    requires Lists(rows, ids) && (forall i :: i in ids ==> i < |books.holds|)
    requires forall i :: 0 <= i < |books.holds| ==> books.holds[i].quantity > 0
    ensures var r := ApplyAll(books.inventory, LockOrder(Returns(books.holds, rows)));
            && (r.All? <==> Returnable(books, ids))
            && (r.All? ==> r.inventory == Lower(books.inventory, books.holds, ids))
  {
    HandBackFits(books, rows, ids);
    ApplyAllExact(books.inventory, LockOrder(Returns(books.holds, rows)));
  }
}
