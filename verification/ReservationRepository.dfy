/**
 The repository that owns the inventory / stock_reservations pair, with its two loops over sorted
 rows, and the sweeper job that drains it. A method that returns an error leaves its table writes
 to be rolled back by the caller's transaction.
 */
module ReservationRepository {
  import opened Common
  import opened Ledger
  import opened Settlement

  const DEFAULT_SWEEP_BATCH: nat := 500

  /** The ids an UPDATE matched, in whatever order RETURNING lists them. */
  method Returning(ids: set<nat>) returns (listed: seq<nat>)
    ensures Lists(listed, ids)
  {
    listed := [];
    var rest := ids;
    while rest != {}
      invariant rest <= ids
      invariant forall j :: 0 <= j < |listed| ==> listed[j] in ids - rest
      invariant forall i :: i in ids - rest ==> i in listed
      invariant forall j, m :: 0 <= j < m < |listed| ==> listed[j] != listed[m]
      decreases rest
    {
      var i :| i in rest;
      listed := listed + [i];
      rest := rest - {i};
    }
  }

  // ---------------------------------------------------------------- the sweeper's subquery

  predicate ByExpiry(holds: seq<Hold>, ids: seq<nat>) {
    && (forall j :: 0 <= j < |ids| ==> ids[j] < |holds|)
    && forall j, m :: 0 <= j < m < |ids| ==> holds[ids[j]].expiresAt <= holds[ids[m]].expiresAt
  }

  /** Behind everything that expires no later. */
  function Slot(holds: seq<Hold>, ids: seq<nat>, i: nat): (k: nat)
    requires i < |holds| && ByExpiry(holds, ids)
    ensures k <= |ids|
    ensures forall j :: 0 <= j < k ==> holds[ids[j]].expiresAt <= holds[i].expiresAt
    ensures forall j :: k <= j < |ids| ==> holds[ids[j]].expiresAt > holds[i].expiresAt
  {
    if ids == [] || holds[ids[|ids| - 1]].expiresAt <= holds[i].expiresAt then |ids|
    else Slot(holds, ids[..|ids| - 1], i)
  }

  function InsertByExpiry(holds: seq<Hold>, ids: seq<nat>, i: nat): (r: seq<nat>)
    requires i < |holds| && ByExpiry(holds, ids)
    ensures ByExpiry(holds, r)
  {
    var k := Slot(holds, ids, i);
    ids[..k] + [i] + ids[k..]
  }

  lemma {:induction false} InsertLists(ids: seq<nat>, k: nat, found: set<nat>, i: nat)
    requires Lists(ids, found) && i !in found && k <= |ids|
    ensures Lists(ids[..k] + [i] + ids[k..], found + {i})
  {
    var r := ids[..k] + [i] + ids[k..];
    assert r[k] == i;
    forall x | x in found ensures x in r {
      var j :| 0 <= j < |ids| && ids[j] == x;
      assert r[if j < k then j else j + 1] == x;
    }
  }

  lemma {:induction false} InsertByExpiryLists(holds: seq<Hold>, ids: seq<nat>, found: set<nat>, i: nat)
    requires i < |holds| && ByExpiry(holds, ids) && Lists(ids, found) && i !in found
    ensures Lists(InsertByExpiry(holds, ids, i), found + {i})
  {
    InsertLists(ids, Slot(holds, ids, i), found, i);
  }

  /** The due ids below n, soonest expiry first. */
  function Due(holds: seq<Hold>, now: int, n: nat): (r: seq<nat>)
    requires n <= |holds|
    ensures ByExpiry(holds, r)
  {
    if n == 0 then []
    else if n - 1 in ExpiredBy(holds, now) then InsertByExpiry(holds, Due(holds, now, n - 1), n - 1)
    else Due(holds, now, n - 1)
  }

  /** The due ids below n. */
  function DueBelow(holds: seq<Hold>, now: int, n: nat): set<nat> {
    set i | i in ExpiredBy(holds, now) && i < n
  }

  lemma {:induction false} DueBelowNext(holds: seq<Hold>, now: int, n: nat)
    ensures DueBelow(holds, now, n + 1) == if n in ExpiredBy(holds, now) then DueBelow(holds, now, n) + {n}
          else DueBelow(holds, now, n)
    ensures n !in DueBelow(holds, now, n) && DueBelow(holds, now, 0) == {}
  {
  }

  lemma {:induction false} NoneListed()
    ensures Lists([], {})
  {
  }

  lemma {:induction false} DueLists(holds: seq<Hold>, now: int, n: nat)
    requires n <= |holds|
    ensures Lists(Due(holds, now, n), DueBelow(holds, now, n))
  {
    hide InsertByExpiry, Lists, DueBelow, ByExpiry;
    if n == 0 {
      NoneListed();
      DueBelowNext(holds, now, 0);
    } else {
      DueLists(holds, now, n - 1);
      DueBelowNext(holds, now, n - 1);
      if n - 1 in ExpiredBy(holds, now) {
        InsertByExpiryLists(holds, Due(holds, now, n - 1), DueBelow(holds, now, n - 1), n - 1);
      }
    }
  }

  /** `ORDER BY expires_at LIMIT batch` over the due holds. */
  function SweepBatch(holds: seq<Hold>, now: int, batch: nat): seq<nat> {
    var due := Due(holds, now, |holds|);
    if |due| <= batch then due else due[..batch]
  }

  lemma {:induction false} ListedSize(listed: seq<nat>, ids: set<nat>)
    requires Lists(listed, ids)
    ensures |listed| == |ids|
  {
    if listed == [] {
      assert ids == {};
    } else {
      var n := |listed| - 1;
      ListsInit(listed, ids);
      ListedSize(listed[..n], ids - {listed[n]});
    }
  }

  lemma {:induction false} PrefixLists(all: seq<nat>, due: set<nat>, n: nat)
    requires Lists(all, due) && n <= |all|
    ensures Lists(all[..n], Ids(all[..n])) && Ids(all[..n]) <= due && |all| == |due|
  {
    ListedSize(all, due);
  }

  /** A batch holds due ids only, each once, and as many as there are up to the limit. */
  lemma {:induction false} SweepFillsBatch(holds: seq<Hold>, now: int, batch: nat)
    ensures var chosen, due := SweepBatch(holds, now, batch), ExpiredBy(holds, now);
            && Lists(chosen, Ids(chosen)) && Ids(chosen) <= due
            && |chosen| == if |due| <= batch then |due| else batch
  {
    var all, due := Due(holds, now, |holds|), ExpiredBy(holds, now);
    DueLists(holds, now, |holds|);
    assert DueBelow(holds, now, |holds|) == due;
    assert all[..|all|] == all;
    PrefixLists(all, due, if |all| <= batch then |all| else batch);
  }

  /** Nothing due that a batch left out expired earlier than anything it took. */
  lemma {:induction false} SweepTakesOldest(holds: seq<Hold>, now: int, batch: nat, i: nat, j: nat)
    requires i in SweepBatch(holds, now, batch) && j in ExpiredBy(holds, now) && j !in SweepBatch(holds, now, batch)
    ensures holds[i].expiresAt <= holds[j].expiresAt
  {
    var all, due := Due(holds, now, |holds|), ExpiredBy(holds, now);
    DueLists(holds, now, |holds|);
    assert j in DueBelow(holds, now, |holds|);
    assert j in all;
    var a :| 0 <= a < batch && a < |all| && all[a] == i;
    var b :| 0 <= b < |all| && all[b] == j;
    assert b >= batch;
  }

  // ---------------------------------------------------------------- the loops

  lemma {:induction false} StopsHere(inv: Inventory, us: seq<Update>, i: nat)
    requires i < |us| && ApplyAll(inv, us[..i]).All? && !Matches(ApplyAll(inv, us[..i]).inventory, us[i])
    ensures ApplyAll(inv, us) == Stopped(ApplyAll(inv, us[..i]).inventory, i)
    decreases |us|
  {
    if i == |us| - 1 {
    } else {
      assert us[..|us| - 1][..i] == us[..i];
      StopsHere(inv, us[..|us| - 1], i);
    }
  }

  /** `us` hands back exactly the holds `ids`, each once. */
  ghost predicate HandsBack(holds: seq<Hold>, ids: set<nat>, us: seq<Update>) {
    exists listed: seq<nat> ::
      Lists(listed, ids) && (forall j :: 0 <= j < |listed| ==> listed[j] < |holds|) && us == Returns(holds, listed)
  }

  /** What the hand-back loop does with the claimed rows, in whatever order they are listed. */
  lemma {:induction false} SettleIsLoop(books: Books, listed: seq<nat>, claimed: set<nat>)
    requires Lists(listed, claimed) && (forall i :: i in claimed ==> i < |books.holds|)
    requires forall i :: 0 <= i < |books.holds| ==> books.holds[i].quantity > 0
    ensures var released := Returns(books.holds, listed);
            var r := ApplyAll(books.inventory, LockOrder(released));
            && HandsBack(books.holds, claimed, released) && |released| == |claimed|
            && (r.All? <==> Returnable(books, claimed))
            && (r.All? ==> r.inventory == Lower(books.inventory, books.holds, claimed))
  {
    HandBackExact(books, listed, claimed);
    ListedSize(listed, claimed);
  }

  /** In the middle of a reservation: every hold but the last is written, the last is pending. */
  predicate Unflushed(books: Books, order: nat, us: seq<Update>, expiresAt: int, now: Books, pending: seq<Hold>) {
    if us == [] then now == books && pending == []
    else
      var u, so := us[|us| - 1], ReserveSorted(books, order, us[..|us| - 1], expiresAt);
      && so.Ok? && Matches(so.value.inventory, u)
      && now == Books(Bump(so.value.inventory, u), so.value.holds) && pending == [NewHold(order, u, expiresAt)]
  }

  /** Once refused, the rest of the list is not looked at. */
  lemma {:induction false} RefusalStays(books: Books, order: nat, us: seq<Update>, expiresAt: int, n: nat)
    requires n <= |us|
    ensures ReserveSorted(books, order, us[..n], expiresAt).Err? ==>
              ReserveSorted(books, order, us, expiresAt) == ReserveSorted(books, order, us[..n], expiresAt)
  {
    if n == |us| {
      assert us[..n] == us;
    } else {
      RefusalStays(books, order, us[..|us| - 1], expiresAt, n);
      assert us[..|us| - 1][..n] == us[..n];
    }
  }

  class Repository {
    var inventory: Inventory
    var holds: seq<Hold>
    const ttlSeconds: int

    function Tables(): Books
      reads this
    {
      Books(inventory, holds)
    }

    // CHECK (quantity > 0) on stock_reservations.
    predicate Valid()
      reads this
    {
      forall i :: 0 <= i < |holds| ==> holds[i].quantity > 0
    }

    constructor (inventory: Inventory, ttlSeconds: int)
      ensures Tables() == Books(inventory, []) && this.ttlSeconds == ttlSeconds && Valid()
    {
      this.inventory, this.holds, this.ttlSeconds := inventory, [], ttlSeconds;
    }

    /** Write the pending rows, if there are any; the unique constraint may refuse them. */
    method Flush(pending: seq<Hold>) returns (ok: bool)
      requires Valid() && forall i :: 0 <= i < |pending| ==> pending[i].quantity > 0
      modifies this`holds
      ensures Valid() && ok == (pending == [] || UniqueHolds(old(holds) + pending))
      ensures holds == if ok && pending != [] then old(holds) + pending else old(holds)
    {
      ok := pending == [] || UniqueHolds(holds + pending);
      if ok && pending != [] {
        holds := holds + pending;
      }
    }

    /** The reserve loop: a guarded increment and a pending hold per item. The session flushes what is
        pending before each statement, and the loop's end flushes the last hold. */
    method ReserveSortedRows(order: nat, sorted: seq<Update>, expiresAt: int)
      returns (r: Result<seq<Update>, ReserveError>)
      requires Valid() && forall u :: u in sorted ==> u.delta > 0
      modifies this
      ensures Valid()
      ensures var spec := ReserveSorted(old(Tables()), order, sorted, expiresAt);
              if spec.Ok? then r == Ok(sorted) && Tables() == spec.value else r == Err(spec.error)
    {
      var pending: seq<Hold> := [];
      var done := 0;
      while done < |sorted|
        invariant done <= |sorted| && Valid()
        invariant Unflushed(old(Tables()), order, sorted[..done], expiresAt, Tables(), pending)
      {
        var autoflushed := Flush(pending);
        RefusalStays(old(Tables()), order, sorted, expiresAt, done);
        if !autoflushed {
          return Err(DuplicateHold);
        }
        assert ReserveSorted(old(Tables()), order, sorted[..done], expiresAt) == Ok(Tables());
        RefusalStays(old(Tables()), order, sorted, expiresAt, done + 1);
        assert sorted[..done + 1][..done] == sorted[..done];
        if !Matches(inventory, sorted[done]) {
          return Err(InsufficientStock(sorted[done].sku.product, sorted[done].delta));
        }
        inventory := Bump(inventory, sorted[done]);
        pending := [NewHold(order, sorted[done], expiresAt)];
        done := done + 1;
      }
      assert sorted[..done] == sorted;
      var flushed := Flush(pending);
      r := if flushed then Ok(sorted) else Err(DuplicateHold);
    }

    method ReserveStock(order: nat, warehouse: int, items: seq<RequestedItem>, now: int)
      returns (r: Result<seq<Update>, ReserveError>)
      requires Valid()
      modifies this
      ensures Valid()
      ensures var spec := Reserve(old(Tables()), order, warehouse, items, now + ttlSeconds);
              && (r.Ok? <==> spec.Ok?)
              && (r.Ok? ==> Tables() == spec.value && r.value == LockOrder(Takes(warehouse, items)))
              && (r.Err? ==> r.error == spec.error)
    {
      var sorted := LockOrder(Takes(warehouse, items));
      assert forall u :: u in sorted ==> u.delta > 0 by {
        TakesPositive(warehouse, items);
      }
      r := ReserveSortedRows(order, sorted, now + ttlSeconds);
    }

    /** The hand-back loop: one guarded decrement per claimed hold, or stop. */
    method HandBackRows(sorted: seq<Update>) returns (done: nat)
      modifies this`inventory
      ensures done <= |sorted|
      ensures ApplyAll(old(inventory), sorted) == if done == |sorted| then All(inventory) else Stopped(inventory, done)
    {
      done := 0;
      while done < |sorted|
        invariant done <= |sorted|
        invariant ApplyAll(old(inventory), sorted[..done]) == All(inventory)
      {
        assert sorted[..done + 1][..done] == sorted[..done];
        if !Matches(inventory, sorted[done]) {
          StopsHere(old(inventory), sorted, done);
          return;
        }
        inventory := Bump(inventory, sorted[done]);
        done := done + 1;
      }
      assert sorted[..done] == sorted;
    }

    /** Sort what was released into lock order and hand it back. */
    method HandBack(released: seq<Update>) returns (ok: bool)
      modifies this`inventory
      ensures var spec := ApplyAll(old(inventory), LockOrder(released));
              ok == spec.All? && (ok ==> inventory == spec.inventory)
    {
      var sorted := LockOrder(released);
      var done := HandBackRows(sorted);
      ok := done == |sorted|;
    }

    /** `_settle`: claim, then hand each claimed quantity back in lock order. */
    method SettleHolds(ids: set<nat>, status: HoldStatus, now: int) returns (r: Result<seq<Update>, SettleError>)
      requires Valid()
      modifies this
      ensures Valid()
      ensures var spec := Settle(old(Tables()), ids, status, now);
              if spec.Ok? then Tables() == spec.value && r.Ok?
              else r == Err(spec.error) && holds == Mark(old(holds), StillActive(old(holds), ids), status, now)
      ensures r.Ok? ==>
            HandsBack(old(holds), StillActive(old(holds), ids), r.value) && |r.value| == |StillActive(old(holds), ids)|
    {
      var claimed := StillActive(holds, ids);
      var listed := Returning(claimed);
      var released := Returns(holds, listed);
      SettleIsLoop(Tables(), listed, claimed);
      holds := Mark(holds, claimed, status, now);
      var ok := HandBack(released);
      r := if ok then Ok(released) else Err(InvariantViolated);
    }

    method ReleaseReservation(order: nat, now: int) returns (r: Result<seq<Update>, SettleError>)
      requires Valid()
      modifies this
      ensures Valid()
      ensures match Release(old(Tables()), order, now)
              case Ok(after) => Tables() == after && r.Ok? && |r.value| == |ActiveOf(old(holds), order)|
              case Err(e) => r == Err(e)
      ensures r.Ok? ==> HandsBack(old(holds), ActiveOf(old(holds), order), r.value)
    {
      assert StillActive(holds, ActiveOf(holds, order)) == ActiveOf(holds, order);
      r := SettleHolds(ActiveOf(holds, order), Released, now);
    }

    method SettleForOrder(order: nat, status: HoldStatus, now: int)
      requires Valid()
      modifies this
      ensures Valid() && Tables() == EndHolds(old(Tables()), order, status, now)
    {
      holds := Mark(holds, ActiveOf(holds, order), status, now);
    }

    method SweepExpired(now: int, batch: nat) returns (r: Result<seq<Update>, SettleError>)
      requires Valid()
      modifies this
      ensures Valid()
      ensures var chosen := SweepBatch(old(holds), now, batch);
              match Settle(old(Tables()), Ids(chosen), Expired, now)
              case Ok(after) => Tables() == after && r.Ok? && |r.value| == |chosen|
              case Err(e) => r == Err(e) && holds == Mark(old(holds), Ids(chosen), Expired, now)
      ensures r.Ok? ==> HandsBack(old(holds), Ids(SweepBatch(old(holds), now, batch)), r.value)
    {
      var chosen := SweepBatch(holds, now, batch);
      SweepFillsBatch(holds, now, batch);
      ListedSize(chosen, Ids(chosen));
      assert StillActive(holds, Ids(chosen)) == Ids(chosen);
      r := SettleHolds(Ids(chosen), Expired, now);
    }
  }

  // ---------------------------------------------------------------- the sweeper job

  /** The holds a run of sweeps has expired. */
  function SweptIds(before: seq<Hold>, after: seq<Hold>): set<nat> {
    set i: nat | i < |before| && i < |after| && before[i].status == Active && after[i].status == Expired
  }

  /** A hold differs from the start only where it was active, was due, and has been expired. */
  predicate OnlySwept(before: seq<Hold>, after: seq<Hold>) {
    |after| == |before| && forall i :: 0 <= i < |before| ==> after[i] == before[i] || Swept(before[i], after[i])
  }

  predicate Swept(was: Hold, h: Hold) {
    && was.status == Active && h.releasedAt.Some? && was.expiresAt < h.releasedAt.value
    && h == was.(status := Expired, releasedAt := h.releasedAt)
  }

  function ActiveIds(holds: seq<Hold>): set<nat> {
    set i: nat | i < |holds| && holds[i].status == Active
  }

  lemma {:induction false} OneSweep(start: seq<Hold>, holds: seq<Hold>, ids: set<nat>, now: int)
    requires OnlySwept(start, holds) && ids <= ExpiredBy(holds, now)
    ensures var after := Mark(holds, ids, Expired, now);
            && OnlySwept(start, after)
            && SweptIds(start, after) == SweptIds(start, holds) + ids
            && SweptIds(start, holds) !! ids
            && ActiveIds(after) == ActiveIds(holds) - ids
  {
  }

  lemma {:induction false} BatchSwept(start: seq<Hold>, books: Books, now: int, batch: nat)
    requires OnlySwept(start, books.holds)
    ensures var chosen := SweepBatch(books.holds, now, batch);
            var after := Mark(books.holds, Ids(chosen), Expired, now);
            && StillActive(books.holds, Ids(chosen)) == Ids(chosen)
            && OnlySwept(start, after)
            && |SweptIds(start, after)| == |SweptIds(start, books.holds)| + |chosen|
            && (chosen != [] ==> ActiveIds(after) < ActiveIds(books.holds))
            && (chosen == [] && batch > 0 ==> after == books.holds && ExpiredBy(books.holds, now) == {})
  {
    var chosen := SweepBatch(books.holds, now, batch);
    SweepFillsBatch(books.holds, now, batch);
    ListedSize(chosen, Ids(chosen));
    OneSweep(start, books.holds, Ids(chosen), now);
    assert chosen != [] ==> chosen[0] in Ids(chosen);
    assert Ids(chosen) <= ActiveIds(books.holds);
    if chosen == [] {
      assert Mark(books.holds, Ids(chosen), Expired, now) == books.holds;
    }
  }

  /** A sweep of one batch, from `books` to `after`: n holds expired. */
  predicate BatchDone(start: seq<Hold>, books: Books, after: seq<Hold>, n: nat) {
    && OnlySwept(start, after)
    && |SweptIds(start, after)| == |SweptIds(start, books.holds)| + n
    && (n > 0 ==> ActiveIds(after) < ActiveIds(books.holds))
  }

  lemma {:induction false} SettledBatch(start: seq<Hold>, books: Books, now: int, batch: nat, base: Inventory)
    requires OnlySwept(start, books.holds)
    ensures var chosen := SweepBatch(books.holds, now, batch);
            var settled := Settle(books, Ids(chosen), Expired, now);
            && OnlySwept(start, Mark(books.holds, Ids(chosen), Expired, now))
            && (settled.Ok? ==> BatchDone(start, books, settled.value.holds, |chosen|))
            && (settled.Ok? && chosen == [] && batch > 0 ==> ExpiredBy(settled.value.holds, now) == {})
            && (Conserved(books, base) ==> settled.Ok? && Conserved(settled.value, base))
  {
    BatchSwept(start, books, now, batch);
    if Conserved(books, base) {
      SettleConserves(books, base, Ids(SweepBatch(books.holds, now, batch)), Expired, now);
    }
  }

  /** One transaction of the job: sweep a batch, report how many holds it released. */
  method SweepOnce(repo: Repository, batchSize: nat, now: int, ghost start: seq<Hold>, ghost base: Inventory)
    returns (r: Result<nat, SettleError>)
    requires repo.Valid() && OnlySwept(start, repo.holds)
    modifies repo
    ensures repo.Valid() && OnlySwept(start, repo.holds)
    ensures r.Ok? ==> BatchDone(start, old(repo.Tables()), repo.holds, r.value)
    ensures r == Ok(0) && batchSize > 0 ==> ExpiredBy(repo.holds, now) == {}
    ensures Conserved(old(repo.Tables()), base) ==> r.Ok? && Conserved(repo.Tables(), base)
  {
    SettledBatch(start, repo.Tables(), now, batchSize, base);
    var released := repo.SweepExpired(now, batchSize);
    r := match released case Ok(rows) => Ok(|rows|) case Err(e) => Err(e);
  }

  /** Drain in batches until one finds nothing due. Each reading of the clock is a separate
      transaction's now(). */
  method Drain(repo: Repository, clock: nat -> int, ghost base: Inventory)
    returns (total: Result<nat, SettleError>, lastRun: int)
    requires repo.Valid()
    modifies repo
    ensures OnlySwept(old(repo.holds), repo.holds)
    ensures total.Ok? ==> total.value == |SweptIds(old(repo.holds), repo.holds)| && ExpiredBy(repo.holds, lastRun) == {}
    ensures Conserved(old(repo.Tables()), base) ==> total.Ok? && Conserved(repo.Tables(), base)
  {
    var n, runs := 0, 0;
    ghost var start := repo.holds;
    assert SweptIds(start, start) == {};
    while true
      invariant repo.Valid() && OnlySwept(start, repo.holds)
      invariant n == |SweptIds(start, repo.holds)|
      invariant Conserved(old(repo.Tables()), base) ==> Conserved(repo.Tables(), base)
      decreases ActiveIds(repo.holds)
    {
      lastRun := clock(runs);
      runs := runs + 1;
      var swept := SweepOnce(repo, DEFAULT_SWEEP_BATCH, lastRun, start, base);
      if swept.Err? {
        return Err(swept.error), lastRun;
      }
      if swept.value == 0 {
        return Ok(n), lastRun;
      }
      n := n + swept.value;
    }
  }
}
