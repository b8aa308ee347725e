/**
 The interleaved machine refines running the committed transactions one at a time in commit order
 and no release or sweep ever fails an inventory statement.
 */
module LockingRefinement {
  import opened Common
  import opened Ledger
  import opened Settlement
  import opened Locking
  import opened LockingInvariant

  /** A committed transaction run alone; a sweep replays the ids it claimed. */
  function Replay(books: Books, e: Effect): Option<Books> {
    match e.job
    case ReserveJob(order, warehouse, items, expiresAt) =>
      (match Reserve(books, order, warehouse, items, expiresAt) case Ok(after) => Some(after) case Err(_) => None)
    case ReleaseJob(order, now) =>
      (match Release(books, order, now) case Ok(after) => Some(after) case Err(_) => None)
    case CommitJob(order, now) => Some(CommitHolds(books, order, now))
    case SweepJob(now, _) =>
      (match Settle(books, e.claimed, Expired, now) case Ok(after) => Some(after) case Err(_) => None)
  }

  function ReplayAll(books: Books, log: seq<Effect>): Option<Books> {
    if log == [] then Some(books)
    else
      match ReplayAll(books, log[..|log| - 1])
      case None => None
      case Some(so) => Replay(so, log[|log| - 1])
  }

  lemma {:induction false} FinishedView(s: State, base: Inventory, id: nat)
    requires Inv(s, base) && Enabled(s, Commit(id))
    ensures var t := s.txns[id];
            AllFit(s.books.inventory, t.updates) && View(s, t) == Shift(s.books.inventory, t.updates)
            && ApplyAll(s.books.inventory, t.updates) == All(View(s, t))
  {
    var t := s.txns[id];
    assert t.updates[..t.pc] == t.updates;
    ViewIsShift(s.books.inventory, t);
    ListsAreOneWay(s, base, id);
    ApplyAllExact(s.books.inventory, t.updates);
  }

  lemma {:induction false} ReserveRefines(s: State, base: Inventory, id: nat)
    requires Inv(s, base) && Enabled(s, Commit(id)) && s.txns[id].job.ReserveJob?
    ensures Replay(s.books, Effect(s.txns[id].job, s.txns[id].claimed)) == Some(Next(s, Commit(id)).books)
  {
    var t := s.txns[id];
    FinishedView(s, base, id);
    TakesInOrder(t.job.warehouse, t.job.items);
    NewHoldsUnique(s.books.holds, t.job.order, t.updates, t.job.expiresAt);
    StockDecides(s.books, t.job.order, t.updates, t.job.expiresAt);
  }

  /** The claim took exactly what the same claim, made alone at commit time, would take. */
  lemma {:induction false} ClaimedAtCommit(s: State, base: Inventory, id: nat)
    requires Inv(s, base) && Enabled(s, Commit(id)) && !s.txns[id].job.ReserveJob?
    ensures var t := s.txns[id];
            && StillActive(s.books.holds, t.claimed) == t.claimed
            && (!t.job.SweepJob? ==> ActiveOf(s.books.holds, t.job.order) == t.claimed)
  {
  }

  lemma {:induction false} HandBackView(books: Books, base: Inventory, t: Txn)
    requires Conserved(books, base) && ClaimsOk(books.holds, t) && UpdatesOk(books.holds, t) && !t.claiming
          && (t.job.ReleaseJob? || t.job.SweepJob?)
    requires AllFit(books.inventory, t.updates)
    ensures Returnable(books, t.claimed)
    ensures Shift(books.inventory, t.updates) == Lower(books.inventory, books.holds, t.claimed)
  {
    HandBackFits(books, t.listed, t.claimed);
  }

  lemma {:induction false} HandBackRefines(s: State, base: Inventory, id: nat)
    requires Inv(s, base) && Enabled(s, Commit(id)) && (s.txns[id].job.ReleaseJob? || s.txns[id].job.SweepJob?)
    ensures var t := s.txns[id];
            && Returnable(s.books, t.claimed) && View(s, t) == Lower(s.books.inventory, s.books.holds, t.claimed)
  {
    FinishedView(s, base, id);
    HandBackView(s.books, base, s.txns[id]);
  }

  lemma {:induction false} CommitLeavesStock(s: State, base: Inventory, id: nat)
    requires Inv(s, base) && Enabled(s, Commit(id)) && s.txns[id].job.CommitJob?
    ensures View(s, s.txns[id]) == s.books.inventory
  {
  }

  lemma {:induction false} SettleRefines(s: State, base: Inventory, id: nat)
    requires Inv(s, base) && Enabled(s, Commit(id)) && !s.txns[id].job.ReserveJob?
    ensures Replay(s.books, Effect(s.txns[id].job, s.txns[id].claimed)) == Some(Next(s, Commit(id)).books)
  {
    ClaimedAtCommit(s, base, id);
    if s.txns[id].job.CommitJob? { CommitLeavesStock(s, base, id); } else { HandBackRefines(s, base, id); }
  }

  /** At each commit the committed tables change exactly as the transaction run alone changes them. */
  lemma {:induction false} CommitRefines(s: State, base: Inventory, id: nat)
    requires Inv(s, base) && Enabled(s, Commit(id))
    ensures Replay(s.books, Effect(s.txns[id].job, s.txns[id].claimed)) == Some(Next(s, Commit(id)).books)
  {
    if s.txns[id].job.ReserveJob? { ReserveRefines(s, base, id); } else { SettleRefines(s, base, id); }
  }

  lemma {:induction false} ReplayConserves(books: Books, base: Inventory, e: Effect)
    requires Conserved(books, base) && Replay(books, e).Some?
    ensures Conserved(Replay(books, e).value, base)
  {
    match e.job
    case ReserveJob(order, warehouse, items, expiresAt) => ReserveConserves(books, base, order, warehouse, items,
      expiresAt);
    case ReleaseJob(order, now) => SettleConserves(books, base, ActiveOf(books.holds, order), Released, now);
    case CommitJob(order, now) => CommitConserves(books, base, order, now);
    case SweepJob(now, _) => SettleConserves(books, base, e.claimed, Expired, now);
  }

  lemma {:induction false} ReplayKeepsUnique(books: Books, e: Effect)
    requires UniqueHolds(books.holds) && Replay(books, e).Some?
    ensures UniqueHolds(Replay(books, e).value.holds)
  {
    if e.job.ReserveJob? {
      ReservedAll(books, e.job.order, LockOrder(Takes(e.job.warehouse, e.job.items)), e.job.expiresAt);
    }
  }

  lemma {:induction false} CommitKeeps(s: State, base: Inventory, id: nat)
    requires Inv(s, base) && Enabled(s, Commit(id))
    ensures Inv(Next(s, Commit(id)), base)
  {
    var t, after := s.txns[id], Next(s, Commit(id));
    var e := Effect(t.job, t.claimed);
    CommitRefines(s, base, id);
    ReplayConserves(s.books, base, e);
    ReplayKeepsUnique(s.books, e);
    ClaimEndsHolds(s.books.holds, t);
    LogExtends(s, after, e);
    forall other | other in after.txns ensures TxnOk(after.books, after.txns[other]) {
      OthersKept(s, base, id, other);
    }
  }

  lemma {:induction false} StepKeeps(s: State, base: Inventory, a: Action)
    requires Inv(s, base)
    ensures Inv(Next(s, a), base)
  {
    if Enabled(s, a) {
      match a
      case Begin(_, _, _) => BeginKeeps(s, base, a);
      case ClaimRow(_, _) => ClaimRowKeeps(s, base, a);
      case ClaimsDone(_, _) => ClaimsDoneKeeps(s, base, a);
      case Scan(_) => ScanKeeps(s, base, a);
      case Write(_) => WriteKeeps(s, base, a);
      case Commit(id) => CommitKeeps(s, base, id);
      case Abort(id) => RollbackKeeps(s, base, id);
    }
  }

  lemma {:induction false} RunKeeps(base: Inventory, actions: seq<Action>)
    requires Stocked(base)
    ensures Inv(Run(Initial(base), actions), base)
  {
    if actions != [] {
      RunKeeps(base, actions[..|actions| - 1]);
      StepKeeps(Run(Initial(base), actions[..|actions| - 1]), base, actions[|actions| - 1]);
    }
  }

  /** Serializability: after any interleaving, with any aborts, the committed inventory and holds are
      those of the committed transactions run one at a time, each alone, in commit order. */
  lemma {:induction false} RunRefinesCommitOrder(base: Inventory, actions: seq<Action>)
    requires Stocked(base)
    ensures var s := Run(Initial(base), actions);
            ReplayAll(Initial(base).books, s.log) == Some(s.books)
  {
    if actions != [] {
      var init, a := actions[..|actions| - 1], actions[|actions| - 1];
      var before := Run(Initial(base), init);
      RunRefinesCommitOrder(base, init);
      RunKeeps(base, init);
      if Enabled(before, a) && a.Commit? {
        CommitRefines(before, base, a.id);
        var log := Next(before, a).log;
        assert log[..|log| - 1] == before.log;
      }
    }
  }

  /** Stock conservation over every interleaving. */
  lemma {:induction false} RunConservesStock(base: Inventory, actions: seq<Action>, k: Sku)
    requires Stocked(base) && k in base
    ensures var books := Run(Initial(base), actions).books;
            && k in books.inventory && books.inventory[k].onHand == base[k].onHand
            && books.inventory[k].reserved == base[k].reserved + Held(books.holds, k)
            && 0 <= books.inventory[k].reserved <= books.inventory[k].onHand
  {
    RunKeeps(base, actions);
    ReservedInRange(Run(Initial(base), actions).books, base, k);
  }

  /** Each hold is ended, and its quantity handed back, by at most one committed transaction,
      although a sweeper may have picked its id from an older snapshot. */
  lemma {:induction false} RunEndsEachHoldOnce(base: Inventory, actions: seq<Action>, j: nat, m: nat, i: nat)
    requires Stocked(base)
    requires var log := Run(Initial(base), actions).log;
            j < |log| && m < |log| && i in log[j].claimed && i in log[m].claimed
    ensures j == m
    ensures var holds := Run(Initial(base), actions).books.holds; i < |holds| && holds[i].status != Active
  {
    RunKeeps(base, actions);
  }

  // ---------------------------------------------------------------- settling never fails

  lemma {:induction false} PrefixFits(inv: Inventory, us: seq<Update>, n: nat)
    requires OneWay(us) && n <= |us| && AllFit(inv, us)
    ensures AllFit(inv, us[..n])
  {
    if n == |us| {
      assert us[..n] == us;
    } else {
      AllFitSplit(inv, us);
      PrefixFits(inv, us[..|us| - 1], n);
      assert us[..|us| - 1][..n] == us[..n];
    }
  }

  lemma {:induction false} NextFits(inv: Inventory, t: Txn)
    requires RowsOk(inv, t) && OneWay(t.updates) && AllFit(inv, t.updates) && t.pc < |t.updates|
    ensures Matches(inv + t.rows, t.updates[t.pc])
  {
    var now := t.updates[..t.pc + 1];
    PrefixFits(inv, t.updates, t.pc + 1);
    assert now[..t.pc] == t.updates[..t.pc];
    AllFitSplit(inv, now);
    ViewIsShift(inv, t);
  }

  lemma {:induction false} ClaimedReturnable(books: Books, base: Inventory, ids: set<nat>)
    requires Conserved(books, base) && forall i :: i in ids ==> i < |books.holds| && books.holds[i].status == Active
    ensures Returnable(books, ids)
  {
    assert StillActive(books.holds, ids) == ids;
    SettleNeverRaises(books, base, ids, Released, 0);
  }

  lemma {:induction false} ListFits(books: Books, base: Inventory, t: Txn)
    requires Conserved(books, base) && TxnOk(books, t) && !t.claiming && !t.job.ReserveJob?
    ensures AllFit(books.inventory, t.updates) && OneWay(t.updates)
  {
    if !t.job.CommitJob? {
      ClaimedReturnable(books, base, t.claimed);
      HandBackFits(books, t.listed, t.claimed);
    }
  }

  /** In every reachable state the next decrement of a release or a sweep matches its row, both
      when it scans and when it writes: "inventory invariant violated" is never raised. */
  lemma {:induction false} HandBackAlwaysMatches(base: Inventory, actions: seq<Action>, id: nat)
    requires Stocked(base)
    requires var s := Run(Initial(base), actions);
             id in s.txns && !s.txns[id].job.ReserveJob? && s.txns[id].pc < |s.txns[id].updates|
    ensures var s := Run(Initial(base), actions);
            Matches(View(s, s.txns[id]), s.txns[id].updates[s.txns[id].pc])
  {
    var s := Run(Initial(base), actions);
    RunKeeps(base, actions);
    ListFits(s.books, base, s.txns[id]);
    NextFits(s.books.inventory, s.txns[id]);
  }
}
