/** The outbox repository, the relay's publish loop, and the job that drains the backlog. */
module PublishOutbox {
  import opened Common
  import opened Outbox

  const DEFAULT_RELAY_BATCH: nat := 100

  function Payloads(events: seq<Event>, ids: seq<nat>): (r: seq<Payload>)
    requires forall j :: 0 <= j < |ids| ==> ids[j] < |events|
    ensures |r| == |ids| && forall j :: 0 <= j < |ids| ==> r[j] == events[ids[j]].payload
  {
    seq(|ids|, j requires 0 <= j < |ids| => events[ids[j]].payload)
  }

  class Publisher {
    var published: seq<Payload>

    constructor ()
      ensures published == []
    {
      published := [];
    }

    method Publish(payload: Payload)
      modifies this
      ensures published == old(published) + [payload]
    {
      published := published + [payload];
    }
  }

  class Repository {
    var events: seq<Event>

    constructor ()
      ensures events == []
    {
      events := [];
    }

    method AddEvent(payload: Payload, now: int)
      modifies this
      ensures events == Add(old(events), payload, now)
    {
      events := Add(events, payload, now);
    }

    /** `mark_processed`; nothing to do for no ids. */
    method Mark(ids: seq<nat>, now: int)
      modifies this
      ensures events == MarkProcessed(old(events), Ids(ids), now)
      ensures forall i :: 0 <= i < |events| ==>
                if i in Ids(ids)
                then events[i].processedAt == Some(now) && events[i].attempts == old(events)[i].attempts + 1
                else events[i] == old(events)[i]
    {
      if |ids| == 0 {
        assert MarkProcessed(events, Ids(ids), now) == events;
        return;
      }
      events := MarkProcessed(events, Ids(ids), now);
    }
  }

  // ---------------------------------------------------------------- the backlog

  lemma {:induction false} NotEmpty(s: seq<nat>)
    requires s != []
    ensures Ids(s) != {}
  {
    assert s[0] in Ids(s);
  }

  lemma {:induction false} SameNewest(events: seq<Event>, s: seq<nat>, t: seq<nat>)
    requires ByAge(events, s) && ByAge(events, t) && Ids(s) == Ids(t) && s != [] && t != []
    ensures s[|s| - 1] == t[|t| - 1]
  {
    var n, m := |s| - 1, |t| - 1;
    assert s[n] in Ids(t) && t[m] in Ids(s);
    var j :| 0 <= j < |t| && t[j] == s[n];
    var k :| 0 <= k < |s| && s[k] == t[m];
  }

  lemma {:induction false} InitIds(events: seq<Event>, s: seq<nat>)
    requires ByAge(events, s) && s != []
    ensures Ids(s[..|s| - 1]) == Ids(s) - {s[|s| - 1]}
  {
    var n := |s| - 1;
    forall j | 0 <= j < n ensures s[j] != s[n] { assert Earlier(events, s[j], s[n]); }
    IdsSnoc(s[..n], s[n]);
    assert s == s[..n] + [s[n]];
  }

  /** Oldest first, the same events make the same list. */
  lemma {:induction false} AgeUnique(events: seq<Event>, s: seq<nat>, t: seq<nat>)
    requires ByAge(events, s) && ByAge(events, t) && Ids(s) == Ids(t)
    ensures s == t
  {
    if s != [] { NotEmpty(s); }
    if t != [] { NotEmpty(t); }
    if s != [] && t != [] {
      SameNewest(events, s, t);
      InitIds(events, s);
      InitIds(events, t);
      AgeUnique(events, s[..|s| - 1], t[..|t| - 1]);
    }
  }

  lemma {:induction false} LaterMembers(events: seq<Event>, s: seq<nat>, k: nat, i: nat)
    requires ByAge(events, s) && k <= |s|
    ensures i in Ids(s[k..]) <==> i in Ids(s) && i !in Ids(s[..k])
  {
    assert s == s[..k] + s[k..];
    forall j, m | 0 <= j < m < |s| ensures s[j] != s[m] { assert Earlier(events, s[j], s[m]); }
  }

  lemma {:induction false} SameAges(events: seq<Event>, ids: set<nat>, now: int, s: seq<nat>)
    ensures ByAge(MarkProcessed(events, ids, now), s) <==> ByAge(events, s)
  {
    var after := MarkProcessed(events, ids, now);
    forall i: nat, j: nat | i < |events| && j < |events| ensures Earlier(after, i, j) <==> Earlier(events, i, j) {}
  }

  /** After the first k open events are marked, the open ones are the rest, in the same order. */
  lemma {:induction false} OpenAfter(events: seq<Event>, k: nat, now: int)
    requires k <= |Open(events, {}, |events|)|
    ensures var open := Open(events, {}, |events|);
            Open(MarkProcessed(events, Ids(open[..k]), now), {}, |events|) == open[k..]
  {
    var open := Open(events, {}, |events|);
    var after := MarkProcessed(events, Ids(open[..k]), now);
    var rest := Open(after, {}, |events|);
    forall i: nat ensures i in Ids(rest) <==> i in Ids(open[k..]) {
      LaterMembers(events, open, k, i);
    }
    SameAges(events, Ids(open[..k]), now, rest);
    AgeUnique(events, rest, open[k..]);
  }

  /** The payloads still to be published, oldest first. */
  function Backlog(events: seq<Event>): seq<Payload> {
    Payloads(events, Open(events, {}, |events|))
  }

  /** Marking changes no payload, so what is left is published as it was written. */
  lemma {:induction false} BacklogAfter(events: seq<Event>, k: nat, now: int)
    requires k <= |Open(events, {}, |events|)|
    ensures var open := Open(events, {}, |events|);
            Backlog(MarkProcessed(events, Ids(open[..k]), now)) == Payloads(events, open[k..])
  {
    var open := Open(events, {}, |events|);
    var after := MarkProcessed(events, Ids(open[..k]), now);
    OpenAfter(events, k, now);
    assert Payloads(after, open[k..]) == Payloads(events, open[k..]);
  }

  lemma {:induction false} PayloadsSplit(events: seq<Event>, ids: seq<nat>, k: nat)
    requires k <= |ids| && forall j :: 0 <= j < |ids| ==> ids[j] < |events|
    ensures Payloads(events, ids) == Payloads(events, ids[..k]) + Payloads(events, ids[k..])
  {
  }

  lemma {:induction false} BatchThenRest(events: seq<Event>, limit: nat, now: int)
    ensures var batch := ClaimBatch(events, {}, limit);
            var after := MarkProcessed(events, Ids(batch), now);
            && Backlog(events) == Payloads(events, batch) + Backlog(after)
            && |Backlog(events)| == |batch| + |Backlog(after)|
            && (limit > 0 && batch == [] ==> Backlog(events) == [])
  {
    var open, batch := Open(events, {}, |events|), ClaimBatch(events, {}, limit);
    assert open[..|batch|] == batch;
    BacklogAfter(events, |batch|, now);
    PayloadsSplit(events, open, |batch|);
  }

  lemma {:induction false} PublishedThenRest(events: seq<Event>, limit: nat, now: int, published: seq<Payload>)
    ensures var batch := ClaimBatch(events, {}, limit);
            var after := MarkProcessed(events, Ids(batch), now);
            && published + Payloads(events, batch) + Backlog(after) == published + Backlog(events)
            && |batch| + |Backlog(after)| == |Backlog(events)|
            && (limit > 0 && batch == [] ==> Backlog(after) == [])
  {
    BatchThenRest(events, limit, now);
    var batch := ClaimBatch(events, {}, limit);
    if batch == [] {
      assert MarkProcessed(events, Ids(batch), now) == events;
    }
  }

  lemma {:induction false} EmptyBacklog(events: seq<Event>)
    requires Backlog(events) == []
    ensures forall i :: 0 <= i < |events| ==> events[i].processedAt.Some?
  {
  }

  /** The publish loop: one delivery per claimed event, in batch order. */
  method PublishEach(events: seq<Event>, batch: seq<nat>, publisher: Publisher)
    requires forall j :: 0 <= j < |batch| ==> batch[j] < |events|
    modifies publisher
    ensures publisher.published == old(publisher.published) + Payloads(events, batch)
  {
    var sent := 0;
    while sent < |batch|
      invariant sent <= |batch|
      invariant publisher.published == old(publisher.published) + Payloads(events, batch[..sent])
    {
      publisher.Publish(events[batch[sent]].payload);
      assert Payloads(events, batch[..sent + 1]) == Payloads(events, batch[..sent]) + [events[batch[sent]].payload];
      sent := sent + 1;
    }
    assert batch[..sent] == batch;
  }

  /** One relay transaction, alone: publish the batch in order, then mark all of it. Nothing is
      skipped and nothing is published twice: what was to be published is what was published
      followed by what still is. */
  method PublishOnce(outbox: Repository, publisher: Publisher, batchSize: nat, now: int) returns (n: nat)
    modifies outbox, publisher
    ensures outbox.events == MarkProcessed(old(outbox.events), Ids(ClaimBatch(old(outbox.events), {}, batchSize)), now)
    ensures n == |ClaimBatch(old(outbox.events), {}, batchSize)|
    ensures n + |Backlog(outbox.events)| == |Backlog(old(outbox.events))|
    ensures publisher.published + Backlog(outbox.events) == old(publisher.published) + Backlog(old(outbox.events))
    ensures batchSize > 0 && n == 0 ==> Backlog(outbox.events) == []
  {
    var batch := ClaimBatch(outbox.events, {}, batchSize);
    PublishedThenRest(outbox.events, batchSize, now, publisher.published);
    PublishEach(outbox.events, batch, publisher);
    outbox.Mark(batch, now);
    n := |batch|;
  }

  // ---------------------------------------------------------------- draining

  predicate SamePayloads(before: seq<Event>, after: seq<Event>) {
    |before| == |after| && forall i :: 0 <= i < |before| ==> after[i].payload == before[i].payload
  }

  /** With no new events the job ends; by then each event that was open at the start has been
      published exactly once, in order, and every event is processed. */
  method Drain(outbox: Repository, publisher: Publisher, clock: nat -> int) returns (total: nat)
    modifies outbox, publisher
    ensures total == |Backlog(old(outbox.events))|
    ensures publisher.published == old(publisher.published) + Backlog(old(outbox.events))
    ensures SamePayloads(old(outbox.events), outbox.events)
    ensures forall i :: 0 <= i < |outbox.events| ==> outbox.events[i].processedAt.Some?
  {
    total := 0;
    var runs := 0;
    while true
      invariant SamePayloads(old(outbox.events), outbox.events)
      invariant total + |Backlog(outbox.events)| == |Backlog(old(outbox.events))|
      invariant publisher.published + Backlog(outbox.events) == old(publisher.published) + Backlog(old(outbox.events))
      decreases |Backlog(outbox.events)|
    {
      var n := PublishOnce(outbox, publisher, DEFAULT_RELAY_BATCH, clock(runs));
      if n == 0 {
        EmptyBacklog(outbox.events);
        return;
      }
      runs := runs + 1;
      total := total + n;
    }
  }

  // ---------------------------------------------------------------- the job as relay steps

  function SendAll(d: Desk, id: nat, n: nat): Desk {
    if n == 0 then d else RelayNext(SendAll(d, id, n - 1), Publish(id))
  }

  lemma {:induction false} PublishIs(d: Desk, id: nat)
    requires id in d.wire.relays && d.wire.relays[id].sent < |d.wire.relays[id].batch|
    ensures var r := d.wire.relays[id];
            RelayNext(d, Publish(id)) ==
            d.(wire := d.wire.(relays := d.wire.relays[id := r.(sent := r.sent + 1)], delivered := d.wire.delivered +
                  multiset{r.batch[r.sent]}))
  {
  }

  /** The desk after relay `id` has published the first n of its batch. */
  function Sent(d: Desk, id: nat, n: nat): Desk
    requires id in d.wire.relays && n <= |d.wire.relays[id].batch|
  {
    var r := d.wire.relays[id];
    d.(wire := d.wire.(relays := d.wire.relays[id := r.(sent := n)], delivered := d.wire.delivered +
          multiset(r.batch[..n])))
  }

  lemma {:induction false} SentNext(d: Desk, id: nat, n: nat)
    requires id in d.wire.relays && n < |d.wire.relays[id].batch|
    ensures RelayNext(Sent(d, id, n), Publish(id)) == Sent(d, id, n + 1)
  {
    var batch := d.wire.relays[id].batch;
    PublishIs(Sent(d, id, n), id);
    assert batch[..n + 1] == batch[..n] + [batch[n]];
  }

  lemma {:induction false} SentNone(d: Desk, id: nat)
    requires id in d.wire.relays && d.wire.relays[id].sent == 0
    ensures Sent(d, id, 0) == d
  {
  }

  lemma {:induction false} SendAllIs(d: Desk, id: nat, n: nat)
    requires id in d.wire.relays && d.wire.relays[id].sent == 0 && n <= |d.wire.relays[id].batch|
    ensures SendAll(d, id, n) == Sent(d, id, n)
  {
    hide RelayNext, Sent;
    if n == 0 {
      SentNone(d, id);
    } else {
      SendAllIs(d, id, n - 1);
      SentNext(d, id, n - 1);
    }
  }

  lemma {:induction false} FinishIs(d: Desk, id: nat, now: int)
    requires id in d.wire.relays && d.wire.relays[id].sent == |d.wire.relays[id].batch|
    ensures RelayNext(d, Finish(id, now)) ==
            Desk(MarkProcessed(d.events, Ids(d.wire.relays[id].batch), now), d.wire.(relays := d.wire.relays - {id}))
  {
  }

  lemma {:induction false} PollIs(d: Desk, id: nat, limit: nat)
    requires d.wire.relays == map[]
    ensures RelayNext(d, Poll(id, limit)) ==
          d.(wire := d.wire.(relays := map[id := Relay(ClaimBatch(d.events, {}, limit), 0)]))
  {
    assert Locked(d.wire.relays) == {};
  }

  /** What PublishOnce does to the events is what a relay that meets no other does: poll, publish the
      whole batch, finish. Each event of the batch is delivered once. */
  lemma {:induction false} RelayAlone(d: Desk, id: nat, limit: nat, now: int)
    requires d.wire.relays == map[]
    ensures var batch := ClaimBatch(d.events, {}, limit);
            var after := RelayNext(SendAll(RelayNext(d, Poll(id, limit)), id, |batch|), Finish(id, now));
            && after.events == MarkProcessed(d.events, Ids(batch), now)
            && after.wire.relays == map[] && after.wire.lost == d.wire.lost
            && after.wire.delivered == d.wire.delivered + multiset(batch)
  {
    hide RelayNext, ClaimBatch, MarkProcessed;
    var batch := ClaimBatch(d.events, {}, limit);
    var polled := RelayNext(d, Poll(id, limit));
    PollIs(d, id, limit);
    SendAllIs(polled, id, |batch|);
    FinishIs(Sent(polled, id, |batch|), id, now);
    assert batch[..|batch|] == batch;
  }
}
