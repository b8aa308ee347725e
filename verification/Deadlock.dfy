/**
 Deadlock freedom on inventory rows: every transaction takes its rows in (warehouse, product)
 order, so waiting climbs that order and cannot come back to where it started.
 */
module Deadlock {
  import opened Ledger
  import opened Settlement
  import opened Locking
  import opened LockingRefinement

  /** At a matched row, about to write it. */
  predicate AtWrite(s: State, t: nat) {
    t in s.txns && s.txns[t].waiting && s.txns[t].pc < |s.txns[t].updates|
  }

  function Wanted(s: State, t: nat): Sku {
    if AtWrite(s, t) then s.txns[t].updates[s.txns[t].pc].sku else Sku(0, 0)
  }

  /** `t` is at a write and `u` holds the row it needs. */
  predicate WaitsFor(s: State, t: nat, u: nat) {
    AtWrite(s, t) && u in s.txns && t != u && Wanted(s, t) in s.txns[u].rows
  }

  predicate Blocked(s: State, t: nat) {
    AtWrite(s, t) && !RowFree(s, t, Wanted(s, t))
  }

  lemma {:induction false} HeldBelowWanted(inv: Inventory, u: Txn, k: Sku)
    requires RowsOk(inv, u) && InLockOrder(u.updates) && u.pc < |u.updates| && k in u.rows
    ensures !Precedes(u.updates[u.pc].sku, k)
  {
  }

  lemma {:induction false} ListsAreSorted(s: State, base: Inventory, id: nat)
    requires Inv(s, base) && id in s.txns
    ensures InLockOrder(s.txns[id].updates)
  {
  }

  /** Waiting climbs the lock order: whoever holds the row you need needs a later row than you. */
  lemma {:induction false} WaitingClimbs(s: State, base: Inventory, t: nat, u: nat, v: nat)
    requires Inv(s, base) && WaitsFor(s, t, u) && WaitsFor(s, u, v)
    ensures Precedes(Wanted(s, t), Wanted(s, u))
  {
    ListsAreSorted(s, base, u);
    HeldBelowWanted(s.books.inventory, s.txns[u], Wanted(s, t));
    assert Apart(s.txns[u], s.txns[v]);
  }

  ghost predicate WaitPath(s: State, path: seq<nat>) {
    |path| >= 2 && forall i :: 0 <= i < |path| - 1 ==> WaitsFor(s, path[i], path[i + 1])
  }

  lemma {:induction false} PathClimbs(s: State, base: Inventory, path: seq<nat>, i: nat)
    requires Inv(s, base) && WaitPath(s, path) && 0 < i < |path| - 1
    ensures Precedes(Wanted(s, path[0]), Wanted(s, path[i]))
  {
    assert WaitsFor(s, path[i - 1], path[i - 1 + 1]) && WaitsFor(s, path[i], path[i + 1]);
    WaitingClimbs(s, base, path[i - 1], path[i], path[i + 1]);
    if i > 1 {
      PathClimbs(s, base, path, i - 1);
    }
  }

  /** The wait-for graph over inventory rows has no cycle in any reachable state. */
  lemma {:induction false} NoWaitCycle(base: Inventory, actions: seq<Action>, path: seq<nat>)
    requires Stocked(base) && WaitPath(Run(Initial(base), actions), path)
    ensures path[0] != path[|path| - 1]
  {
    var s := Run(Initial(base), actions);
    RunKeeps(base, actions);
    var n := |path| - 1;
    if path[0] == path[n] {
      assert WaitsFor(s, path[n - 1], path[n - 1 + 1]) && WaitsFor(s, path[0], path[0 + 1]);
      WaitingClimbs(s, base, path[n - 1], path[n], path[1]);
      if n > 1 {
        PathClimbs(s, base, path, n - 1);
      }
    }
  }

  /** The blocked transactions that need a row later than `t` does. */
  function Above(s: State, t: nat): set<nat> {
    set u | u in s.txns && Blocked(s, u) && Precedes(Wanted(s, t), Wanted(s, u))
  }

  lemma {:induction false} Blocker(s: State, t: nat) returns (u: nat)
    requires Blocked(s, t)
    ensures WaitsFor(s, t, u)
  {
    u :| u in s.txns && u != t && Wanted(s, t) in s.txns[u].rows;
  }

  lemma {:induction false} AboveShrinks(s: State, t: nat, u: nat)
    requires u in s.txns && Blocked(s, u) && Precedes(Wanted(s, t), Wanted(s, u))
    ensures Above(s, u) < Above(s, t)
  {
    assert u in Above(s, t) && u !in Above(s, u);
  }

  /** Whoever holds a row is past its claim. */
  lemma {:induction false} HolderIsPastClaim(s: State, base: Inventory, u: nat, k: Sku)
    requires Inv(s, base) && u in s.txns && k in s.txns[u].rows
    ensures !s.txns[u].claiming
  {
    assert RowsOk(s.books.inventory, s.txns[u]) && UpdatesOk(s.books.holds, s.txns[u]);
  }

  /** Following whoever holds the row one needs ends at a transaction nobody blocks. */
  lemma {:induction false} Unblocked(s: State, base: Inventory, t: nat) returns (free: nat)
    requires Inv(s, base) && t in s.txns && !s.txns[t].claiming
    ensures free in s.txns && !Blocked(s, free) && !s.txns[free].claiming
    decreases Above(s, t)
  {
    if !Blocked(s, t) {
      return t;
    }
    hide Inv, Above;
    var u := Blocker(s, t);
    HolderIsPastClaim(s, base, u, Wanted(s, t));
    if !Blocked(s, u) {
      return u;
    }
    var v := Blocker(s, u);
    WaitingClimbs(s, base, t, u, v);
    AboveShrinks(s, t, u);
    free := Unblocked(s, base, u);
  }

  /** Some statement of this transaction on inventory, or its commit, can run now. */
  predicate CanMove(s: State, id: nat) {
    Enabled(s, Scan(id)) || Enabled(s, Write(id)) || Enabled(s, Commit(id))
  }

  lemma {:induction false} FreeCanMove(s: State, id: nat)
    requires id in s.txns && !Blocked(s, id) && UpdatesOk(s.books.holds, s.txns[id])
    requires s.txns[id].pc <= |s.txns[id].updates|
    requires !s.txns[id].claiming
    ensures CanMove(s, id)
  {
  }

  lemma {:induction false} TxnFacts(s: State, base: Inventory, id: nat)
    requires Inv(s, base) && id in s.txns
    ensures UpdatesOk(s.books.holds, s.txns[id]) && s.txns[id].pc <= |s.txns[id].updates|
  {
  }

  /** Whenever some transaction is past its claim, one can go on, whatever the others are doing. */
  lemma {:induction false} SomeoneCanMove(base: Inventory, actions: seq<Action>, t: nat) returns (free: nat)
    requires Stocked(base)
    requires var s := Run(Initial(base), actions); t in s.txns && !s.txns[t].claiming
    ensures CanMove(Run(Initial(base), actions), free)
  {
    hide Inv;
    var s := Run(Initial(base), actions);
    RunKeeps(base, actions);
    free := Unblocked(s, base, t);
    TxnFacts(s, base, free);
    FreeCanMove(s, free);
  }
}
