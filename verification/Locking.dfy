/**
 Reserve, release, commit and sweep transactions interleaved statement by statement.

 A statement that updates an inventory row first scans with its own snapshot; a row that does not
 match is skipped at once, without a lock. A row that matches is written only when no other
 transaction holds it, and the WHERE clause is evaluated again on the version found then. Row locks
 are held to commit. The claim on stock_reservations picks its ids from a snapshot and re-tests
 `status = 'active'` row by row.
 */
module Locking {
  import opened Common
  import opened Ledger
  import opened Settlement

  datatype Job =
    | ReserveJob(order: nat, warehouse: int, items: seq<RequestedItem>, expiresAt: int)
    | ReleaseJob(order: nat, now: int)
    | CommitJob(order: nat, now: int)
    | SweepJob(now: int, batch: nat)

  /** `rows` are the transaction's own uncommitted row versions, so its keys are its row locks;
      `claimed` are the holds it has locked and ended; `listed` is the order RETURNING gave. */
  datatype Txn = Txn(job: Job, claiming: bool, todo: set<nat>, claimed: set<nat>, listed: seq<nat>,
                     updates: seq<Update>, pc: nat, waiting: bool, rows: Inventory)

  /** A committed transaction, with the ids it claimed. */
  datatype Effect = Effect(job: Job, claimed: set<nat>)

  datatype State = State(books: Books, txns: map<nat, Txn>, log: seq<Effect>)

  datatype Action =
    | Begin(id: nat, job: Job, chosen: set<nat>)
    | ClaimRow(id: nat, hold: nat)
    | ClaimsDone(id: nat, listed: seq<nat>)
    | Scan(id: nat)
    | Write(id: nat)
    | Commit(id: nat)
    | Abort(id: nat)

  // ---------------------------------------------------------------- steps

  /** What the callers guarantee: tx1 reserves for an order it has just inserted, with validated
      items; tx2 settles an order whose tx1 is over. A sweep may pick any due holds up to its batch. */
  predicate MayBegin(s: State, job: Job, chosen: set<nat>) {
    match job
    case ReserveJob(order, _, items, _) =>
      && chosen == {} && DistinctProducts(items) && FreshOrder(s.books.holds, order)
      && forall id :: id in s.txns ==> s.txns[id].job.SweepJob? || s.txns[id].job.order != order
    case ReleaseJob(order, _) =>
      chosen == ActiveOf(s.books.holds, order) && NotReserving(s, order)
    case CommitJob(order, _) =>
      chosen == ActiveOf(s.books.holds, order) && NotReserving(s, order)
    case SweepJob(now, batch) =>
      chosen <= ExpiredBy(s.books.holds, now) && |chosen| <= batch
  }

  predicate NotReserving(s: State, order: nat) {
    forall id :: id in s.txns ==> !(s.txns[id].job.ReserveJob? && s.txns[id].job.order == order)
  }

  function Start(job: Job, chosen: set<nat>): Txn {
    var updates := if job.ReserveJob? then LockOrder(Takes(job.warehouse, job.items)) else [];
    Txn(job, !job.ReserveJob?, chosen, {}, [], updates, 0, false, map[])
  }

  /** What the transaction sees: committed rows under its own versions. */
  function View(s: State, t: Txn): Inventory {
    s.books.inventory + t.rows
  }

  predicate HoldFree(s: State, id: nat, hold: nat) {
    forall other :: other in s.txns && other != id ==> hold !in s.txns[other].claimed
  }

  predicate RowFree(s: State, id: nat, k: Sku) {
    forall other :: other in s.txns && other != id ==> k !in s.txns[other].rows
  }

  predicate Enabled(s: State, a: Action) {
    if a.Begin? then a.id !in s.txns && MayBegin(s, a.job, a.chosen)
    else
      a.id in s.txns &&
      var t := s.txns[a.id];
      match a
      case ClaimRow(id, hold) => t.claiming && hold in t.todo && HoldFree(s, id, hold)
      case ClaimsDone(_, listed) =>
        && t.claiming && t.todo == {} && Lists(listed, t.claimed)
        && forall j :: 0 <= j < |listed| ==> listed[j] < |s.books.holds|
      case Scan(_) => !t.claiming && !t.waiting && t.pc < |t.updates|
      case Write(id) => !t.claiming && t.waiting && t.pc < |t.updates| && RowFree(s, id, t.updates[t.pc].sku)
      case Commit(_) => !t.claiming && !t.waiting && t.pc == |t.updates|
      case Abort(_) => true
  }

  function Rollback(s: State, id: nat): State {
    s.(txns := s.txns - {id})
  }

  function HandBack(job: Job, holds: seq<Hold>, listed: seq<nat>): seq<Update>
    requires forall j :: 0 <= j < |listed| ==> listed[j] < |holds|
  {
    if job.CommitJob? then [] else LockOrder(Returns(holds, listed))
  }

  function EndStatus(job: Job): HoldStatus {
    match job
    case CommitJob(_, _) => Committed
    case SweepJob(_, _) => Expired
    case _ => Released
  }

  function HoldsAfter(holds: seq<Hold>, t: Txn): seq<Hold> {
    if t.job.ReserveJob? then holds + NewHolds(t.job.order, t.updates, t.job.expiresAt)
    else Mark(holds, t.claimed, EndStatus(t.job), t.job.now)
  }

  function Next(s: State, a: Action): State {
    if !Enabled(s, a) then s
    else if a.Begin? then s.(txns := s.txns[a.id := Start(a.job, a.chosen)])
    else
      var t := s.txns[a.id];
      match a
      case ClaimRow(id, hold) =>
        var hit := if hold in StillActive(s.books.holds, {hold}) then {hold} else {};
        s.(txns := s.txns[id := t.(todo := t.todo - {hold}, claimed := t.claimed + hit)])
      case ClaimsDone(id, listed) =>
        s.(txns := s.txns[id := t.(claiming := false, listed := listed,
              updates := HandBack(t.job, s.books.holds, listed))])
      case Scan(id) =>
        if Matches(View(s, t), t.updates[t.pc]) then s.(txns := s.txns[id := t.(waiting := true)])
        else Rollback(s, id)
      case Write(id) =>
        var u := t.updates[t.pc];
        if Matches(View(s, t), u)
        then
          var rows := t.rows[u.sku := Bump(View(s, t), u)[u.sku]];
          s.(txns := s.txns[id := t.(waiting := false, pc := t.pc + 1, rows := rows)])
        else Rollback(s, id)
      case Commit(id) =>
        State(Books(View(s, t), HoldsAfter(s.books.holds, t)), s.txns - {id}, s.log + [Effect(t.job, t.claimed)])
      case Abort(id) => Rollback(s, id)
  }

  function Run(s: State, actions: seq<Action>): State {
    if actions == [] then s else Next(Run(s, actions[..|actions| - 1]), actions[|actions| - 1])
  }

  function Initial(base: Inventory): State {
    State(Books(base, []), map[], [])
  }

  // ---------------------------------------------------------------- the invariant

  /** The row versions a transaction holds are what its finished statements make of the committed rows. */
  predicate RowsOk(inv: Inventory, t: Txn) {
    && t.pc <= |t.updates|
    && t.rows.Keys == RowsNamed(t.updates[..t.pc])
    && (forall k :: k in t.rows ==>
         k in inv && t.rows[k] == Stock(inv[k].onHand, inv[k].reserved + Total(t.updates[..t.pc], k)))
    && AllFit(inv, t.updates[..t.pc])
  }

  predicate ClaimsOk(holds: seq<Hold>, t: Txn) {
    && (forall i :: i in t.claimed ==> i < |holds| && holds[i].status == Active)
    && (forall i :: i in t.todo ==> i < |holds|)
    && match t.job
       case ReserveJob(order, _, items, _) => t.claimed == {} && FreshOrder(holds, order) && DistinctProducts(items)
       case SweepJob(now, batch) =>
         && (forall i :: i in t.claimed + t.todo ==> i < |holds| && holds[i].expiresAt < now)
         && |t.claimed| + |t.todo| <= batch
       case _ =>
         && (forall i :: i in t.claimed + t.todo ==> i < |holds| && holds[i].order == t.job.order)
         && ActiveOf(holds, t.job.order) <= t.claimed + t.todo
  }

  predicate UpdatesOk(holds: seq<Hold>, t: Txn) {
    && (t.waiting ==> t.pc < |t.updates|)
    && (t.claiming ==> !t.job.ReserveJob? && t.updates == [])
    && (!t.claiming ==>
          && t.todo == {}
          && if t.job.ReserveJob? then t.updates == LockOrder(Takes(t.job.warehouse, t.job.items))
             else && Lists(t.listed, t.claimed)
                  && (forall j :: 0 <= j < |t.listed| ==> t.listed[j] < |holds|)
                  && t.updates == HandBack(t.job, holds, t.listed))
  }

  predicate TxnOk(books: Books, t: Txn) {
    RowsOk(books.inventory, t) && ClaimsOk(books.holds, t) && UpdatesOk(books.holds, t)
  }

  predicate Apart(t: Txn, u: Txn) {
    && t.rows.Keys !! u.rows.Keys
    && t.claimed !! u.claimed
    && (t.job.ReserveJob? && !u.job.SweepJob? ==> t.job.order != u.job.order)
  }

  /** A hold that some committed transaction ended has been ended by that one only. */
  predicate LogOk(s: State) {
    && (forall j :: 0 <= j < |s.log| ==> forall i :: i in s.log[j].claimed ==>
         i < |s.books.holds| && s.books.holds[i].status != Active)
    && (forall j, m :: 0 <= j < m < |s.log| ==> s.log[j].claimed !! s.log[m].claimed)
  }

  predicate Inv(s: State, base: Inventory) {
    && Conserved(s.books, base) && UniqueHolds(s.books.holds)
    && (forall id :: id in s.txns ==> TxnOk(s.books, s.txns[id]))
    && (forall id, other :: id in s.txns && other in s.txns && id != other ==> Apart(s.txns[id], s.txns[other]))
    && LogOk(s)
  }
}
