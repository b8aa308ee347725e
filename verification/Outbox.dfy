/**
 The transactional outbox: events appended by tx2, and any number of relays that claim a batch with
 SKIP LOCKED, publish it event by event inside the claiming transaction, and mark it processed at
 commit. A relay may die at any point before its commit.
 */
module Outbox {
  import opened Common

  datatype Payload = Payload(order: nat, customer: int, warehouse: int, total: int, currency: int,
        reference: Option<int>)

  datatype Event = Event(payload: Payload, createdAt: int, attempts: nat, processedAt: Option<int>)

  /** An open relay transaction: the rows it locked and how many of them it has published. */
  datatype Relay = Relay(batch: seq<nat>, sent: nat)

  /** Open relays, deliveries per event, and those of them made by relays that died uncommitted. */
  datatype Wire = Wire(relays: map<nat, Relay>, delivered: multiset<nat>, lost: multiset<nat>)

  datatype Desk = Desk(events: seq<Event>, wire: Wire)

  datatype RelayAction =
    | Poll(id: nat, limit: nat)
    | Publish(id: nat)
    | Finish(id: nat, now: int)
    | Die(id: nat)

  // ---------------------------------------------------------------- the repository

  function Add(events: seq<Event>, payload: Payload, now: int): seq<Event> {
    events + [Event(payload, now, 0, None)]
  }

  /** ORDER BY created_at. A transaction's now() is when it started, so a row may be older than rows
      written before it; rows created at the same instant keep the order they were written in. */
  predicate Earlier(events: seq<Event>, i: nat, j: nat)
    requires i < |events| && j < |events|
  {
    events[i].createdAt < events[j].createdAt || (events[i].createdAt == events[j].createdAt && i < j)
  }

  predicate Rows(events: seq<Event>, ids: seq<nat>) {
    forall j :: 0 <= j < |ids| ==> ids[j] < |events|
  }

  predicate ByAge(events: seq<Event>, ids: seq<nat>) {
    Rows(events, ids) && forall j, m :: 0 <= j < m < |ids| ==> Earlier(events, ids[j], ids[m])
  }

  function InsertByAge(events: seq<Event>, ids: seq<nat>, i: nat): (r: seq<nat>)
    requires i < |events| && Rows(events, ids)
    ensures Rows(events, r)
  {
    if ids == [] || Earlier(events, ids[|ids| - 1], i) then ids + [i]
    else InsertByAge(events, ids[..|ids| - 1], i) + [ids[|ids| - 1]]
  }

  lemma {:induction false} InsertIds(events: seq<Event>, ids: seq<nat>, i: nat)
    requires i < |events| && Rows(events, ids)
    ensures Ids(InsertByAge(events, ids, i)) == Ids(ids) + {i}
  {
    if ids != [] && !Earlier(events, ids[|ids| - 1], i) {
      var n := |ids| - 1;
      InsertIds(events, ids[..n], i);
      IdsSnoc(InsertByAge(events, ids[..n], i), ids[n]);
      IdsSnoc(ids[..n], ids[n]);
      assert ids == ids[..n] + [ids[n]];
    } else {
      IdsSnoc(ids, i);
    }
  }

  lemma {:induction false} IdsSnoc(ids: seq<nat>, i: nat)
    ensures Ids(ids + [i]) == Ids(ids) + {i}
  {
    forall x ensures x in Ids(ids + [i]) <==> x in Ids(ids) + {i} {}
  }

  /** All of `ids` come before event i. */
  predicate AllEarlier(events: seq<Event>, ids: seq<nat>, i: nat)
    requires i < |events| && Rows(events, ids)
  {
    forall j :: 0 <= j < |ids| ==> Earlier(events, ids[j], i)
  }

  lemma {:induction false} AgeSnoc(events: seq<Event>, ids: seq<nat>, i: nat)
    requires ByAge(events, ids) && i < |events| && AllEarlier(events, ids, i)
    ensures ByAge(events, ids + [i])
  {
  }

  lemma {:induction false} InsertAllEarlier(events: seq<Event>, ids: seq<nat>, i: nat, k: nat)
    requires i < |events| && k < |events| && Rows(events, ids) && AllEarlier(events, ids, k) && Earlier(events, i, k)
    ensures AllEarlier(events, InsertByAge(events, ids, i), k)
  {
    if ids != [] && !Earlier(events, ids[|ids| - 1], i) {
      InsertAllEarlier(events, ids[..|ids| - 1], i, k);
    }
  }

  lemma {:induction false} InsertKeepsAge(events: seq<Event>, ids: seq<nat>, i: nat)
    requires i < |events| && ByAge(events, ids) && i !in ids
    ensures ByAge(events, InsertByAge(events, ids, i))
  {
    if ids == [] || Earlier(events, ids[|ids| - 1], i) {
      AgeSnoc(events, ids, i);
    } else {
      var n := |ids| - 1;
      InsertKeepsAge(events, ids[..n], i);
      InsertAllEarlier(events, ids[..n], i, ids[n]);
      AgeSnoc(events, InsertByAge(events, ids[..n], i), ids[n]);
    }
  }

  /** Positions below n that are unprocessed and not locked, oldest first. */
  function Open(events: seq<Event>, locked: set<nat>, n: nat): (r: seq<nat>)
    requires n <= |events|
    ensures ByAge(events, r)
    ensures forall i: nat :: i in Ids(r) <==> i < n && events[i].processedAt.None? && i !in locked
  {
    if n == 0 then []
    else
      var older := Open(events, locked, n - 1);
      if events[n - 1].processedAt.None? && n - 1 !in locked then
        assert n - 1 !in Ids(older);
        InsertKeepsAge(events, older, n - 1);
        InsertIds(events, older, n - 1);
        InsertByAge(events, older, n - 1)
      else older
  }

  /** `claim_batch`. */
  function ClaimBatch(events: seq<Event>, locked: set<nat>, limit: nat): seq<nat> {
    var open := Open(events, locked, |events|);
    if |open| <= limit then open else open[..limit]
  }

  /** No event a claim left behind, unprocessed and unlocked, is older than one it took. */
  lemma {:induction false} ClaimTakesOldest(events: seq<Event>, locked: set<nat>, limit: nat, i: nat, j: nat)
    requires i in ClaimBatch(events, locked, limit) && j !in ClaimBatch(events, locked, limit)
    requires j < |events| && events[j].processedAt.None? && j !in locked
    ensures i < |events| && events[i].createdAt <= events[j].createdAt
  {
    var open := Open(events, locked, |events|);
    assert j in Ids(open);
    var a :| 0 <= a < |open| && a < limit && open[a] == i;
    var b :| 0 <= b < |open| && open[b] == j;
    assert b >= limit;
  }

  /** A batch is published in the order in which its events were created. */
  lemma {:induction false} ClaimRises(events: seq<Event>, locked: set<nat>, limit: nat, j: nat, m: nat)
    requires j < m < |ClaimBatch(events, locked, limit)|
    ensures var batch := ClaimBatch(events, locked, limit);
            batch[j] < |events| && batch[m] < |events| && events[batch[j]].createdAt <= events[batch[m]].createdAt
  {
    var open := Open(events, locked, |events|);
    assert Earlier(events, open[j], open[m]);
  }

  lemma {:induction false} DistinctSize(ids: seq<nat>)
    requires forall j, m :: 0 <= j < m < |ids| ==> ids[j] != ids[m]
    ensures |Ids(ids)| == |ids|
  {
    if ids == [] {
      assert Ids(ids) == {};
    } else {
      var n := |ids| - 1;
      DistinctSize(ids[..n]);
      IdsSnoc(ids[..n], ids[n]);
      assert ids == ids[..n] + [ids[n]] && ids[n] !in Ids(ids[..n]);
    }
  }

  /** A claim takes as many of the events it may see as there are, up to the limit, each once. */
  lemma {:induction false} ClaimFillsBatch(events: seq<Event>, locked: set<nat>, limit: nat)
    ensures var batch := ClaimBatch(events, locked, limit);
            var seen := set i: nat | i < |events| && events[i].processedAt.None? && i !in locked;
            && Ids(batch) <= seen && |Ids(batch)| == |batch| == if |seen| <= limit then |seen| else limit
  {
    var open, batch := Open(events, locked, |events|), ClaimBatch(events, locked, limit);
    var seen := set i: nat | i < |events| && events[i].processedAt.None? && i !in locked;
    assert Ids(open) == seen;
    forall j, m | 0 <= j < m < |open| ensures open[j] != open[m] { assert Earlier(events, open[j], open[m]); }
    DistinctSize(open);
    DistinctSize(batch);
  }

  /** `mark_processed`. */
  function MarkProcessed(events: seq<Event>, ids: set<nat>, now: int): (r: seq<Event>)
    ensures |r| == |events|
    ensures forall i :: 0 <= i < |events| ==>
              r[i] == if i in ids then events[i].(processedAt := Some(now), attempts := events[i].attempts + 1)
                    else events[i]
  {
    seq(|events|, i requires 0 <= i < |events| =>
      if i in ids then events[i].(processedAt := Some(now), attempts := events[i].attempts + 1) else events[i])
  }

  // ---------------------------------------------------------------- relays

  function Locked(relays: map<nat, Relay>): set<nat> {
    set id, i | id in relays && i in relays[id].batch :: i
  }

  function RelayNext(d: Desk, a: RelayAction): Desk {
    var w := d.wire;
    match a
    case Poll(id, limit) =>
      if id in w.relays then d
      else d.(wire := w.(relays := w.relays[id := Relay(ClaimBatch(d.events, Locked(w.relays), limit), 0)]))
    case Publish(id) =>
      if id !in w.relays || w.relays[id].sent >= |w.relays[id].batch| then d
      else
        var r := w.relays[id];
        d.(wire := w.(relays := w.relays[id := r.(sent := r.sent + 1)], delivered := w.delivered +
              multiset{r.batch[r.sent]}))
    case Finish(id, now) =>
      if id !in w.relays || w.relays[id].sent < |w.relays[id].batch| then d
      else Desk(MarkProcessed(d.events, Ids(w.relays[id].batch), now), w.(relays := w.relays - {id}))
    case Die(id) =>
      if id !in w.relays || w.relays[id].sent > |w.relays[id].batch| then d
      else d.(wire := w.(relays := w.relays - {id}, lost := w.lost +
            multiset(Ids(w.relays[id].batch[..w.relays[id].sent]))))
  }

  // ---------------------------------------------------------------- delivery

  predicate RelayOk(events: seq<Event>, r: Relay) {
    && r.sent <= |r.batch|
    && (forall j :: 0 <= j < |r.batch| ==> r.batch[j] < |events| && events[r.batch[j]].processedAt.None?)
    && forall j, m :: 0 <= j < m < |r.batch| ==> r.batch[j] != r.batch[m]
  }

  /** Some open relay has already published event i. */
  predicate InFlight(relays: map<nat, Relay>, i: nat) {
    exists id :: id in relays && relays[id].sent <= |relays[id].batch| && i in relays[id].batch[..relays[id].sent]
  }

  predicate BatchesDisjoint(relays: map<nat, Relay>) {
    forall a, b :: a in relays && b in relays && a != b ==> Ids(relays[a].batch) !! Ids(relays[b].batch)
  }

  function Count(b: bool): nat { if b then 1 else 0 }

  /** Every delivery of event i is accounted for: the one its commit vouches for, the one an open
      relay has made, and those whose relays died. */
  predicate Accounted(d: Desk, i: nat) {
    d.wire.delivered[i] ==
      Count(i < |d.events| && d.events[i].processedAt.Some?) + d.wire.lost[i] + Count(InFlight(d.wire.relays, i))
  }

  predicate DeskOk(d: Desk) {
    && (forall id :: id in d.wire.relays ==> RelayOk(d.events, d.wire.relays[id]))
    && BatchesDisjoint(d.wire.relays)
    && (forall i :: 0 <= i < |d.events| ==> d.events[i].attempts == Count(d.events[i].processedAt.Some?))
  }

  ghost predicate DeskInv(d: Desk) {
    DeskOk(d) && forall i: nat :: Accounted(d, i)
  }

  lemma {:induction false} AddKeeps(d: Desk, payload: Payload, now: int)
    requires DeskInv(d)
    ensures DeskInv(d.(events := Add(d.events, payload, now)))
  {
    var after := d.(events := Add(d.events, payload, now));
    forall i: nat ensures Accounted(after, i) {
      assert Accounted(d, i);
    }
  }

  lemma {:induction false} PollOk(d: Desk, a: RelayAction)
    requires DeskOk(d) && a.Poll?
    ensures DeskOk(RelayNext(d, a))
  {
  }

  lemma {:induction false} PollKeeps(d: Desk, a: RelayAction)
    requires DeskInv(d) && a.Poll?
    ensures DeskInv(RelayNext(d, a))
  {
    PollOk(d, a);
    var after := RelayNext(d, a);
    forall i: nat ensures Accounted(after, i) {
      assert Accounted(d, i);
      SameFlights(d.wire.relays, after.wire.relays, i, a.id);
    }
  }

  lemma {:induction false} SameFlights(before: map<nat, Relay>, after: map<nat, Relay>, i: nat, id: nat)
    requires forall b :: b != id ==> (b in before <==> b in after) && (b in before ==> before[b] == after[b])
    requires id in before ==> id in after && before[id] == after[id]
    requires id !in before && id in after ==> after[id].sent == 0
    ensures InFlight(before, i) <==> InFlight(after, i)
  {
  }

  /** While one relay holds event i, whether i is in flight is that relay's business. */
  lemma {:induction false} FlightOfHolder(relays: map<nat, Relay>, id: nat, i: nat)
    requires BatchesDisjoint(relays) && id in relays && relays[id].sent <= |relays[id].batch| && i in relays[id].batch
    ensures InFlight(relays, i) <==> i in relays[id].batch[..relays[id].sent]
    ensures !InFlight(relays - {id}, i)
  {
    assert i in Ids(relays[id].batch);
    forall b | b in relays && b != id ensures i !in relays[b].batch {
      assert Ids(relays[b].batch) !! Ids(relays[id].batch);
      assert i !in Ids(relays[b].batch);
    }
  }

  /** What one relay does to its own entry leaves other events' flights alone. */
  lemma {:induction false} FlightOfOthers(before: map<nat, Relay>, after: map<nat, Relay>, id: nat, i: nat)
    requires id in before && i !in before[id].batch
    requires forall b :: b != id ==> (b in before <==> b in after) && (b in before ==> before[b] == after[b])
    requires id in after ==> after[id].batch == before[id].batch
    ensures InFlight(before, i) <==> InFlight(after, i)
  {
  }

  lemma {:induction false} PublishOk(d: Desk, a: RelayAction)
    requires DeskOk(d) && a.Publish?
    ensures DeskOk(RelayNext(d, a))
  {
  }

  /** Event i is in the publishing relay's batch. */
  lemma {:induction false} PublishOwn(d: Desk, a: RelayAction, i: nat)
    requires DeskOk(d) && a.Publish? && Accounted(d, i) && RelayNext(d, a) != d && i in d.wire.relays[a.id].batch
    ensures Accounted(RelayNext(d, a), i)
  {
    var before, after, r := d.wire.relays, RelayNext(d, a).wire.relays, d.wire.relays[a.id];
    PublishOk(d, a);
    FlightOfHolder(before, a.id, i);
    FlightOfHolder(after, a.id, i);
    assert after[a.id] == r.(sent := r.sent + 1);
    SentOnce(r.batch, r.sent, i);
  }

  lemma {:induction false} SentOnce(batch: seq<nat>, sent: nat, i: nat)
    requires sent < |batch| && forall j, m :: 0 <= j < m < |batch| ==> batch[j] != batch[m]
    ensures Count(i in batch[..sent + 1]) == Count(i in batch[..sent]) + Count(i == batch[sent])
  {
  }

  lemma {:induction false} PublishAccounted(d: Desk, a: RelayAction, i: nat)
    requires DeskOk(d) && a.Publish? && Accounted(d, i) && RelayNext(d, a) != d
    ensures Accounted(RelayNext(d, a), i)
  {
    if i in d.wire.relays[a.id].batch {
      PublishOwn(d, a, i);
    } else {
      FlightOfOthers(d.wire.relays, RelayNext(d, a).wire.relays, a.id, i);
    }
  }

  lemma {:induction false} PublishKeeps(d: Desk, a: RelayAction)
    requires DeskInv(d) && a.Publish?
    ensures DeskInv(RelayNext(d, a))
  {
    PublishOk(d, a);
    if RelayNext(d, a) != d {
      forall i: nat ensures Accounted(RelayNext(d, a), i) {
        assert Accounted(d, i);
        PublishAccounted(d, a, i);
      }
    }
  }

  lemma {:induction false} FinishKeeps(d: Desk, a: RelayAction)
    requires DeskInv(d) && a.Finish?
    ensures DeskInv(RelayNext(d, a))
  {
    var after := RelayNext(d, a);
    if a.id in d.wire.relays && d.wire.relays[a.id].sent >= |d.wire.relays[a.id].batch| {
      var before, r := d.wire.relays, d.wire.relays[a.id];
      forall id | id in after.wire.relays ensures RelayOk(after.events, after.wire.relays[id]) {
        assert Ids(before[id].batch) !! Ids(r.batch);
        forall j | 0 <= j < |before[id].batch| ensures before[id].batch[j] !in Ids(r.batch) {
          assert before[id].batch[j] in Ids(before[id].batch);
        }
      }
      forall i: nat ensures Accounted(after, i) {
        assert Accounted(d, i);
        if i in r.batch {
          FlightOfHolder(before, a.id, i);
          assert r.batch[..r.sent] == r.batch;
        } else {
          FlightOfOthers(before, after.wire.relays, a.id, i);
        }
      }
    }
  }

  lemma {:induction false} DieKeeps(d: Desk, a: RelayAction)
    requires DeskInv(d) && a.Die?
    ensures DeskInv(RelayNext(d, a))
  {
    var after := RelayNext(d, a);
    if a.id in d.wire.relays {
      var before, r := d.wire.relays, d.wire.relays[a.id];
      forall i: nat ensures Accounted(after, i) {
        assert Accounted(d, i);
        if i in r.batch {
          FlightOfHolder(before, a.id, i);
        } else {
          assert i !in Ids(r.batch[..r.sent]);
          FlightOfOthers(before, after.wire.relays, a.id, i);
        }
      }
    }
  }

  /** Every step of every relay, and every new event, keeps the account. */
  lemma {:induction false} RelayKeeps(d: Desk, a: RelayAction)
    requires DeskInv(d)
    ensures DeskInv(RelayNext(d, a))
  {
    match a
    case Poll(_, _) => PollKeeps(d, a);
    case Publish(_) => PublishKeeps(d, a);
    case Finish(_, _) => FinishKeeps(d, a);
    case Die(_) => DieKeeps(d, a);
  }

  /** A processed event was published at least once; exactly once when no relay that published it
      died before its commit; `attempts` says processed or not. */
  lemma {:induction false} AtLeastOnce(d: Desk, i: nat)
    requires DeskInv(d) && i < |d.events|
    ensures d.events[i].attempts == Count(d.events[i].processedAt.Some?)
    ensures d.events[i].processedAt.Some? ==>
              d.wire.delivered[i] == 1 + d.wire.lost[i] && !InFlight(d.wire.relays, i)
  {
    assert Accounted(d, i);
    if d.events[i].processedAt.Some? {
      forall id | id in d.wire.relays && d.wire.relays[id].sent <= |d.wire.relays[id].batch|
        ensures i !in d.wire.relays[id].batch[..d.wire.relays[id].sent]
      {
        assert RelayOk(d.events, d.wire.relays[id]);
      }
    }
  }

  /** No relay touches a processed event again, or delivers it again. */
  lemma {:induction false} ProcessedStays(d: Desk, a: RelayAction, e: nat)
    requires DeskInv(d) && e < |d.events| && d.events[e].processedAt.Some?
    ensures var after := RelayNext(d, a);
            && e < |after.events| && after.events[e] == d.events[e]
            && after.wire.delivered[e] == d.wire.delivered[e]
  {
    if !a.Poll? && a.id in d.wire.relays {
      assert RelayOk(d.events, d.wire.relays[a.id]);
    }
  }

  /** Relays change neither what the events say nor how many there are. */
  lemma {:induction false} RelaysKeepPayloads(d: Desk, a: RelayAction)
    ensures |RelayNext(d, a).events| == |d.events|
    ensures forall i :: 0 <= i < |d.events| ==>
              && RelayNext(d, a).events[i].payload == d.events[i].payload
              && RelayNext(d, a).events[i].createdAt == d.events[i].createdAt
  {
  }
}
