/** Every step of the statement-level machine keeps its invariant. */
module LockingInvariant {
  import opened Common
  import opened Ledger
  import opened Settlement
  import opened Locking

  lemma {:induction false} ListsAreOneWay(s: State, base: Inventory, id: nat)
    requires Inv(s, base) && id in s.txns
    ensures OneWay(s.txns[id].updates)
  {
    var t := s.txns[id];
    if t.job.ReserveJob? {
      TakesPositive(t.job.warehouse, t.job.items);
    } else if !t.claiming && !t.job.CommitJob? {
      HandBackRows(s.books.holds, t.listed, t.claimed);
    }
  }

  /** A transaction sees exactly what its finished statements make of the committed inventory. */
  lemma {:induction false} ViewIsShift(inv: Inventory, t: Txn)
    requires RowsOk(inv, t)
    ensures inv + t.rows == Shift(inv, t.updates[..t.pc])
  {
    forall k | k in inv ensures (inv + t.rows)[k] == Shift(inv, t.updates[..t.pc])[k] {
      if k !in t.rows {
        TotalSign(t.updates[..t.pc], k);
      }
    }
  }

  lemma {:induction false} LocalStep(s: State, base: Inventory, id: nat, t: Txn)
    requires Inv(s, base) && TxnOk(s.books, t)
    requires forall other :: other in s.txns && other != id ==> Apart(t, s.txns[other]) && Apart(s.txns[other], t)
    ensures Inv(s.(txns := s.txns[id := t]), base)
  {
  }

  lemma {:induction false} StartOk(s: State, a: Action)
    requires a.Begin? && Enabled(s, a)
    ensures TxnOk(s.books, Start(a.job, a.chosen))
  {
    var t := Start(a.job, a.chosen);
    assert t.updates[..0] == [];
    assert RowsOk(s.books.inventory, t);
    match a.job
    case ReserveJob(_, _, _, _) =>
    case SweepJob(_, _) =>
    case ReleaseJob(_, _) =>
    case CommitJob(_, _) =>
  }

  lemma {:induction false} BeginKeeps(s: State, base: Inventory, a: Action)
    requires Inv(s, base) && a.Begin? && Enabled(s, a)
    ensures Inv(Next(s, a), base)
  {
    var t := Start(a.job, a.chosen);
    StartOk(s, a);
    forall other | other in s.txns ensures Apart(t, s.txns[other]) && Apart(s.txns[other], t) {
    }
    LocalStep(s, base, a.id, t);
  }

  lemma {:induction false} ClaimedRowOk(books: Books, t: Txn, hold: nat, hit: set<nat>)
    requires TxnOk(books, t) && t.claiming && hold in t.todo
    requires hit == if hold in StillActive(books.holds, {hold}) then {hold} else {}
    ensures TxnOk(books, t.(todo := t.todo - {hold}, claimed := t.claimed + hit))
  {
    var after := t.(todo := t.todo - {hold}, claimed := t.claimed + hit);
    assert RowsOk(books.inventory, after);
    assert |t.todo - {hold}| == |t.todo| - 1;
    assert |t.claimed + hit| <= |t.claimed| + |hit|;
    assert after.claimed + after.todo <= t.claimed + t.todo;
    if t.job.ReleaseJob? || t.job.CommitJob? {
      forall i | i in ActiveOf(books.holds, t.job.order) ensures i in after.claimed + after.todo {
        assert i in t.claimed + t.todo;
      }
    }
  }

  function RowClaimed(holds: seq<Hold>, t: Txn, hold: nat): Txn {
    t.(todo := t.todo - {hold}, claimed := t.claimed + if hold in StillActive(holds, {hold}) then {hold} else {})
  }

  lemma {:induction false} RowClaimedApart(holds: seq<Hold>, t: Txn, hold: nat, u: Txn)
    requires Apart(t, u) && Apart(u, t) && hold !in u.claimed
    ensures Apart(RowClaimed(holds, t, hold), u) && Apart(u, RowClaimed(holds, t, hold))
  {
  }

  lemma {:induction false} ClaimRowKeeps(s: State, base: Inventory, a: Action)
    requires Inv(s, base) && a.ClaimRow? && Enabled(s, a)
    ensures Inv(Next(s, a), base)
  {
    var t := s.txns[a.id];
    var after := RowClaimed(s.books.holds, t, a.hold);
    ClaimedRowOk(s.books, t, a.hold, if a.hold in StillActive(s.books.holds, {a.hold}) then {a.hold} else {});
    forall other | other in s.txns && other != a.id ensures Apart(after, s.txns[other]) && Apart(s.txns[other], after) {
      RowClaimedApart(s.books.holds, t, a.hold, s.txns[other]);
    }
    LocalStep(s, base, a.id, after);
  }

  lemma {:induction false} ClaimsDoneKeeps(s: State, base: Inventory, a: Action)
    requires Inv(s, base) && a.ClaimsDone? && Enabled(s, a)
    ensures Inv(Next(s, a), base)
  {
    var t := Next(s, a).txns[a.id];
    assert t.pc == 0 && t.updates[..0] == [] by { assert s.txns[a.id].pc <= |s.txns[a.id].updates|; }
    LocalStep(s, base, a.id, t);
  }

  lemma {:induction false} RollbackKeeps(s: State, base: Inventory, id: nat)
    requires Inv(s, base)
    ensures Inv(Rollback(s, id), base)
  {
  }

  lemma {:induction false} MatchedOk(books: Books, t: Txn)
    requires TxnOk(books, t) && t.pc < |t.updates|
    ensures TxnOk(books, t.(waiting := true))
  {
  }

  lemma {:induction false} ScanIs(s: State, id: nat)
    requires Enabled(s, Scan(id)) && Matches(View(s, s.txns[id]), s.txns[id].updates[s.txns[id].pc])
    ensures Next(s, Scan(id)) == s.(txns := s.txns[id := s.txns[id].(waiting := true)])
  {
  }

  lemma {:induction false} TxnFact(s: State, base: Inventory, id: nat)
    requires Inv(s, base) && id in s.txns
    ensures TxnOk(s.books, s.txns[id])
    ensures forall other :: other in s.txns && other != id ==>
              Apart(s.txns[id], s.txns[other]) && Apart(s.txns[other], s.txns[id])
  {
  }

  lemma {:induction false} ScanFails(s: State, id: nat)
    requires Enabled(s, Scan(id)) && !Matches(View(s, s.txns[id]), s.txns[id].updates[s.txns[id].pc])
    ensures Next(s, Scan(id)) == Rollback(s, id)
  {
  }

  lemma {:induction false} ScanKeeps(s: State, base: Inventory, a: Action)
    requires Inv(s, base) && a.Scan? && Enabled(s, a)
    ensures Inv(Next(s, a), base)
  {
    hide Inv, Next;
    var t := s.txns[a.id];
    if Matches(View(s, t), t.updates[t.pc]) {
      TxnFact(s, base, a.id);
      MatchedOk(s.books, t);
      LocalStep(s, base, a.id, t.(waiting := true));
      ScanIs(s, a.id);
    } else {
      RollbackKeeps(s, base, a.id);
      ScanFails(s, a.id);
    }
  }

  lemma {:induction false} RowsNamedSnoc(us: seq<Update>, n: nat)
    requires n < |us|
    ensures RowsNamed(us[..n + 1]) == RowsNamed(us[..n]) + {us[n].sku}
  {
  }

  /** The transaction after the write at its program counter. */
  function Written(inv: Inventory, t: Txn): Txn
    requires t.pc < |t.updates| && t.updates[t.pc].sku in inv + t.rows
  {
    var u := t.updates[t.pc];
    t.(waiting := false, pc := t.pc + 1, rows := t.rows[u.sku := Bump(inv + t.rows, u)[u.sku]])
  }

  lemma {:induction false} WrittenFits(inv: Inventory, t: Txn)
    requires RowsOk(inv, t) && OneWay(t.updates) && t.pc < |t.updates| && Matches(inv + t.rows, t.updates[t.pc])
    ensures AllFit(inv, t.updates[..t.pc + 1])
  {
    var now := t.updates[..t.pc + 1];
    ViewIsShift(inv, t);
    assert now[..t.pc] == t.updates[..t.pc];
    AllFitSplit(inv, now);
  }

  lemma {:induction false} WrittenRowsOk(inv: Inventory, t: Txn)
    requires RowsOk(inv, t) && OneWay(t.updates) && t.pc < |t.updates| && Matches(inv + t.rows, t.updates[t.pc])
    ensures RowsOk(inv, Written(inv, t))
  {
    var now := t.updates[..t.pc + 1];
    WrittenFits(inv, t);
    ViewIsShift(inv, t);
    RowsNamedSnoc(t.updates, t.pc);
    assert now[..t.pc] == t.updates[..t.pc];
  }

  lemma {:induction false} WrittenOk(books: Books, t: Txn)
    requires TxnOk(books, t) && OneWay(t.updates) && !t.claiming && t.pc < |t.updates|
    requires Matches(books.inventory + t.rows, t.updates[t.pc])
    ensures TxnOk(books, Written(books.inventory, t))
  {
    WrittenRowsOk(books.inventory, t);
    var after := Written(books.inventory, t);
    assert UpdatesOk(books.holds, after) && ClaimsOk(books.holds, after);
  }

  lemma {:induction false} WrittenApart(inv: Inventory, t: Txn, u: Txn)
    requires t.pc < |t.updates| && t.updates[t.pc].sku in inv + t.rows
    requires Apart(t, u) && Apart(u, t) && t.updates[t.pc].sku !in u.rows
    ensures Apart(Written(inv, t), u) && Apart(u, Written(inv, t))
  {
  }

  lemma {:induction false} WriteIs(s: State, id: nat)
    requires Enabled(s, Write(id)) && Matches(View(s, s.txns[id]), s.txns[id].updates[s.txns[id].pc])
    ensures Next(s, Write(id)) == s.(txns := s.txns[id := Written(s.books.inventory, s.txns[id])])
  {
  }

  lemma {:induction false} WriteKeeps(s: State, base: Inventory, a: Action)
    requires Inv(s, base) && a.Write? && Enabled(s, a)
    ensures Inv(Next(s, a), base)
  {
    var t := s.txns[a.id];
    if Matches(View(s, t), t.updates[t.pc]) {
      var after := Written(s.books.inventory, t);
      ListsAreOneWay(s, base, a.id);
      WrittenOk(s.books, t);
      forall other | other in s.txns && other != a.id
        ensures Apart(after, s.txns[other]) && Apart(s.txns[other], after)
      {
        WrittenApart(s.books.inventory, t, s.txns[other]);
      }
      LocalStep(s, base, a.id, after);
      WriteIs(s, a.id);
    } else {
      RollbackKeeps(s, base, a.id);
    }
  }

  // ---------------------------------------------------------------- commit

  /** Holds only ever leave `active`, and the claimed ones do. */
  lemma {:induction false} ClaimEndsHolds(holds: seq<Hold>, t: Txn)
    requires ClaimsOk(holds, t)
    ensures var after := HoldsAfter(holds, t);
            && |holds| <= |after|
            && (forall i :: 0 <= i < |holds| && holds[i].status != Active ==> after[i].status != Active)
            && (forall i :: i in t.claimed ==> i < |holds| && holds[i].status == Active && after[i].status != Active)
  {
  }

  lemma {:induction false} LogExtends(s: State, t: State, e: Effect)
    requires LogOk(s) && t.log == s.log + [e]
    requires var before, after := s.books.holds, t.books.holds;
             && |before| <= |after|
             && (forall i :: 0 <= i < |before| && before[i].status != Active ==> after[i].status != Active)
             && (forall i :: i in e.claimed ==> i < |before| && before[i].status == Active && after[i].status != Active)
    ensures LogOk(t)
  {
  }

  /** Committed rows move only where the committing transaction held the lock, so what another
      transaction holds is still what its statements make of the committed rows. */
  lemma {:induction false} OthersRowsOk(inv: Inventory, rows: Inventory, u: Txn)
    requires RowsOk(inv, u) && rows.Keys <= inv.Keys && rows.Keys !! u.rows.Keys
    ensures RowsOk(inv + rows, u)
  {
  }

  /** What a commit does to the holds, seen by another transaction. */
  ghost predicate HoldsKept(before: seq<Hold>, after: seq<Hold>, u: Txn) {
    && |before| <= |after|
    && (forall i :: 0 <= i < |before| ==>
         after[i] == before[i].(status := after[i].status, releasedAt := after[i].releasedAt))
    && (forall i :: 0 <= i < |before| && after[i] != before[i] ==> after[i].status != Active)
    && (forall i :: i in u.claimed && i < |before| ==> after[i] == before[i])
    && (!u.job.SweepJob? ==> forall i :: |before| <= i < |after| ==> after[i].order != u.job.order)
  }

  lemma {:induction false} EndKeepsHolds(holds: seq<Hold>, t: Txn, u: Txn)
    requires ClaimsOk(holds, t) && ClaimsOk(holds, u) && Apart(t, u)
    ensures HoldsKept(holds, HoldsAfter(holds, t), u)
  {
  }

  lemma {:induction false} OthersClaimsOk(before: seq<Hold>, after: seq<Hold>, u: Txn)
    requires ClaimsOk(before, u) && HoldsKept(before, after, u)
    ensures ClaimsOk(after, u)
  {
  }

  lemma {:induction false} OthersUpdatesOk(before: seq<Hold>, after: seq<Hold>, u: Txn)
    requires UpdatesOk(before, u) && HoldsKept(before, after, u)
    ensures UpdatesOk(after, u)
  {
    if !u.claiming && !u.job.ReserveJob? {
      assert Returns(after, u.listed) == Returns(before, u.listed);
    }
  }

  lemma {:induction false} OthersKept(s: State, base: Inventory, id: nat, other: nat)
    requires Inv(s, base) && Enabled(s, Commit(id)) && other in s.txns && other != id
    ensures TxnOk(Next(s, Commit(id)).books, s.txns[other])
  {
    assert Apart(s.txns[id], s.txns[other]);
    OthersRowsOk(s.books.inventory, s.txns[id].rows, s.txns[other]);
    EndKeepsHolds(s.books.holds, s.txns[id], s.txns[other]);
    OthersClaimsOk(s.books.holds, HoldsAfter(s.books.holds, s.txns[id]), s.txns[other]);
    OthersUpdatesOk(s.books.holds, HoldsAfter(s.books.holds, s.txns[id]), s.txns[other]);
  }
}
