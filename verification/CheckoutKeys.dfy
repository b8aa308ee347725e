/** Keys and orders are atomic with each other: no key without its order, no order without its key,
    and the key's status says how its order stands. */
module CheckoutKeys {
  import opened Common
  import opened Ledger
  import opened Settlement
  import opened OrderState
  import opened Checkout
  import opened CheckoutInvariant
  import opened CheckoutTx2
  import opened CheckoutTheorems

  predicate Tells(key: KeyStatus, order: OrderStatus) {
    || (key == InProgress && order == Reserved)
    || (key == Completed && order == Confirmed)
    || (key == FailedKey && order == PaymentFailed)
  }

  /** A settled key names its order; one in progress names the order that failed before, if any. */
  predicate PointsAt(k: Key, row: KeyRow, origin: seq<Key>, o: nat) {
    if row.status != InProgress then row.order == Some(o)
    else row.order == None || (row.order.value < o && row.order.value < |origin| && origin[row.order.value] == k)
  }

  /** Order o came from key k, and k's row says how it stands. */
  predicate Speaks(k: Key, row: KeyRow, orders: seq<Order>, origin: seq<Key>, o: nat) {
    && o < |orders| && o < |origin| && origin[o] == k
    && Tells(row.status, orders[o].status) && PointsAt(k, row, origin, o)
  }

  ghost predicate Spoken(k: Key, row: KeyRow, orders: seq<Order>, origin: seq<Key>) {
    exists o: nat :: Speaks(k, row, orders, origin, o)
  }

  ghost predicate AllSpoken(w: World) {
    forall k :: k in w.db.keys ==> Spoken(k, w.db.keys[k], w.db.orders, w.origin)
  }

  lemma {:induction false} Longer(k: Key, row: KeyRow, orders: seq<Order>, origin: seq<Key>, moreOrders: seq<Order>,
          moreOrigin: seq<Key>)
    requires Spoken(k, row, orders, origin) && orders <= moreOrders && origin <= moreOrigin
    ensures Spoken(k, row, moreOrders, moreOrigin)
  {
    var o: nat :| Speaks(k, row, orders, origin, o);
    assert Speaks(k, row, moreOrders, moreOrigin, o);
  }

  lemma {:induction false} NewestSpeaks(w: World, keys: Keys, k: Key, order: Order)
    requires AllSpoken(w) && |w.origin| == |w.db.orders| && TakenFrom(w.db.keys, keys, k) && order.status == Reserved
    ensures Speaks(k, keys[k], w.db.orders + [order], w.origin + [k], |w.db.orders|)
  {
    if k in w.db.keys {
      var failed: nat :| Speaks(k, w.db.keys[k], w.db.orders, w.origin, failed);
    }
  }

  lemma {:induction false} Tx1Speaks(w: World, keys: Keys, req: Request, shop: Shop, started: int)
    requires AllSpoken(w) && |w.origin| == |w.db.orders| && TakenFrom(w.db.keys, keys, req.key)
    ensures AllSpoken(Tx1(w, keys, req, shop, started))
  {
    var db := w.db.(keys := keys);
    if Place(db, req, shop, started).Ok? {
      var order := PlaceIsPlaced(db, req, shop, started);
      var after := Tx1(w, keys, req, shop, started);
      forall k | k in keys ensures Spoken(k, keys[k], after.db.orders, after.origin) {
        if k == req.key {
          NewestSpeaks(w, keys, k, order);
        } else {
          Longer(k, keys[k], w.db.orders, w.origin, after.db.orders, after.origin);
        }
      }
    }
  }

  /** A saga's end writes its own key to match its own order; other keys speak for other orders. */
  lemma {:induction false} EndSpeaks(w: World, s: nat, started: int, after: Order, payment: Payment, row: KeyRow,
          to: OrderStatus, end: Tables)
    requires AllSpoken(w) && Ends(w, s, started, after, payment, row, to)
    requires end == Ended(w, s, after, payment, row, end.books, end.events)
    ensures AllSpoken(Settled(w, s, end))
  {
    forall k | k in end.keys ensures Spoken(k, end.keys[k], end.orders, w.origin) {
      if k == w.origin[s] {
        assert Speaks(k, end.keys[k], end.orders, w.origin, s);
      } else {
        var o: nat :| Speaks(k, w.db.keys[k], w.db.orders, w.origin, o);
        assert Speaks(k, end.keys[k], end.orders, w.origin, o);
      }
    }
  }

  lemma {:induction false} Tx2Speaks(w: World, base: Inventory, s: nat, started: int)
    requires Inv(w, base) && AllSpoken(w) && MaySettle(w, s, started)
    ensures Tx2Of(w, s, started).Ok? && AllSpoken(Settled(w, s, Tx2Of(w, s, started).value))
  {
    hide Inv, AllSpoken;
    Tx2NeverRaises(w, base, s, started);
    match w.sagas[s].charged.value.outcome
    case Succeeds =>
      var after, payment, row := CompleteEnds(w, base, s, started);
      EndSpeaks(w, s, started, after, payment, row, Confirmed, Tx2Of(w, s, started).value);
    case Declines =>
      var after, payment, row := CompensateEnds(w, base, s, started);
      EndSpeaks(w, s, started, after, payment, row, PaymentFailed, Tx2Of(w, s, started).value);
    case Unknown =>
      UnresolvedSpeaks(w, Settled(w, s, Tx2Of(w, s, started).value));
  }

  lemma {:induction false} UnresolvedSpeaks(w: World, after: World)
    requires AllSpoken(w) && after.db.keys == w.db.keys && after.db.orders == w.db.orders && after.origin == w.origin
    ensures AllSpoken(after)
  {
  }

  lemma {:induction false} Settle2Speaks(w: World, base: Inventory, a: Action)
    requires Inv(w, base) && AllSpoken(w) && a.Settle2?
    ensures AllSpoken(Next(w, a))
  {
    hide Inv, AllSpoken, Next, Tx2Of;
    if MaySettle(w, a.order, a.started) {
      Tx2Speaks(w, base, a.order, a.started);
      Settle2Is(w, a.order, a.started);
    } else {
      IdleSettle(w, a.order, a.started);
    }
  }

  lemma {:induction false} ArriveSpeaks(w: World, a: Action)
    requires AllSpoken(w) && |w.origin| == |w.db.orders| && a.Arrive?
    ensures AllSpoken(Next(w, a))
  {
    var answer := ClaimKey(w.db.keys, a.req.key, a.req.hash);
    if answer.Taken? {
      Tx1Speaks(w, answer.keys, a.req, a.shop, a.started);
    }
  }

  lemma {:induction false} RetrySpeaks(w: World, a: Action)
    requires AllSpoken(w) && |w.origin| == |w.db.orders| && a.Retry?
    ensures AllSpoken(Next(w, a))
  {
    if a.ticket in w.retries {
      var attempt := w.retries[a.ticket];
      var keys := ReclaimFailed(w.db.keys, attempt.req.key);
      if keys.Some? {
        Tx1Speaks(w.(retries := w.retries - {a.ticket}), keys.value, attempt.req, a.shop, attempt.started);
      }
    }
  }

  lemma {:induction false} StepSpeaks(w: World, base: Inventory, a: Action)
    requires Inv(w, base) && AllSpoken(w)
    ensures AllSpoken(Next(w, a))
  {
    hide Inv, AllSpoken, Next;
    SizesFact(w, base);
    match a
    case Arrive(_, _, _, _) => ArriveSpeaks(w, a);
    case Retry(_, _) => RetrySpeaks(w, a);
    case Settle2(_, _) => Settle2Speaks(w, base, a);
    case _ => StillSpeaks(w, a);
  }

  lemma {:induction false} StillSpeaks(w: World, a: Action)
    requires AllSpoken(w) && (a.Charge? || a.Crash? || a.Sweep? || a.Relaying? || a.Tick?)
    ensures AllSpoken(Next(w, a))
  {
    var after := Next(w, a);
    assert after.db.keys == w.db.keys && after.db.orders == w.db.orders && after.origin == w.origin;
  }

  lemma {:induction false} RunSpeaks(base: Inventory, clock: int, actions: seq<Action>)
    requires Stocked(base)
    ensures AllSpoken(Run(Opening(base, clock), actions))
  {
    if actions != [] {
      var init := actions[..|actions| - 1];
      RunSpeaks(base, clock, init);
      OpeningInv(base, clock);
      RunKeeps(Opening(base, clock), base, init);
      hide Inv, AllSpoken, Next;
      StepSpeaks(Run(Opening(base, clock), init), base, actions[|actions| - 1]);
    }
  }

  /** In every reachable world a key in progress has a reserved order, a completed key a confirmed
      one and a failed key a declined one; and conversely an order that is not declined is the one
      its key speaks for. A key never outlives a transaction that rolled back. */
  lemma {:induction false} KeySpeaksForOrder(w: World, base: Inventory, k: Key) returns (o: nat)
    requires Reachable(w, base) && k in w.db.keys
    ensures o < |w.db.orders| && o < |w.origin| && w.origin[o] == k
    ensures Tells(w.db.keys[k].status, w.db.orders[o].status) && PointsAt(k, w.db.keys[k], w.origin, o)
    ensures forall p :: 0 <= p < |w.db.orders| && p < |w.origin| && w.origin[p] == k && p != o ==>
          w.db.orders[p].status == PaymentFailed
  {
    var clock, actions :| w == Run(Opening(base, clock), actions);
    RunSpeaks(base, clock, actions);
    o :| Speaks(k, w.db.keys[k], w.db.orders, w.origin, o);
    ReachableInv(w, base);
    forall p: nat | p < |w.db.orders| && p < |w.origin| && w.origin[p] == k && p != o
      ensures w.db.orders[p].status == PaymentFailed
    {
      OthersDeclined(w, base, k, o, p);
    }
  }

  lemma {:induction false} OthersDeclined(w: World, base: Inventory, k: Key, o: nat, p: nat)
    requires Inv(w, base) && k in w.db.keys && Speaks(k, w.db.keys[k], w.db.orders, w.origin, o)
    requires p < |w.db.orders| && p < |w.origin| && w.origin[p] == k && p != o
    ensures w.db.orders[p].status == PaymentFailed
  {
    if p < o {
      EarlierDeclined(w, base, p, o);
    } else {
      EarlierDeclined(w, base, o, p);
      assert OriginOk(p, w.db.orders[p], w.db.payments[p], w.origin[p], w.db.keys);
      assert OrderOk(w.db.orders[p]);
    }
  }

  // ---------------------------------------------------------------- keys nobody carries any more

  /** A key in progress whose saga is gone: its process died, or the provider never said what became
      of the charge. */
  predicate Stuck(w: World, k: Key) {
    && k in w.db.keys && w.db.keys[k].status == InProgress
    && forall o :: o in w.sagas ==> w.sagas[o].key != k
  }

  lemma {:induction false} Tx1Stuck(w: World, keys: Keys, req: Request, shop: Shop, started: int, k: Key)
    requires Stuck(w, k) && req.key != k && k in keys && keys[k] == w.db.keys[k]
    ensures Stuck(Tx1(w, keys, req, shop, started), k)
    ensures Tx1(w, keys, req, shop, started).db.keys[k] == w.db.keys[k]
  {
    if Place(w.db.(keys := keys), req, shop, started).Ok? {
      PlaceKeeps(w.db.(keys := keys), req, shop, started);
      hide Place;
    }
  }

  lemma {:induction false} ArriveStuck(w: World, a: Action, k: Key)
    requires Stuck(w, k) && a.Arrive?
    ensures Stuck(Next(w, a), k) && Next(w, a).db.keys[k] == w.db.keys[k]
  {
    hide Tx1;
    var answer := ClaimKey(w.db.keys, a.req.key, a.req.hash);
    if answer.Taken? {
      Tx1Stuck(w, answer.keys, a.req, a.shop, a.started, k);
    }
  }

  lemma {:induction false} RetryStuck(w: World, a: Action, k: Key)
    requires Stuck(w, k) && a.Retry?
    ensures Stuck(Next(w, a), k) && Next(w, a).db.keys[k] == w.db.keys[k]
  {
    hide Tx1;
    if a.ticket in w.retries {
      var attempt := w.retries[a.ticket];
      var keys := ReclaimFailed(w.db.keys, attempt.req.key);
      if keys.Some? {
        Tx1Stuck(w.(retries := w.retries - {a.ticket}), keys.value, attempt.req, a.shop, attempt.started, k);
      }
    }
  }

  lemma {:induction false} Settle2Stuck(w: World, a: Action, k: Key)
    requires Stuck(w, k) && a.Settle2?
    ensures Stuck(Next(w, a), k) && Next(w, a).db.keys[k] == w.db.keys[k]
  {
    if MaySettle(w, a.order, a.started) {
      Settle2KeepsKey(w, a.order, a.started, k);
      hide Tx2Of;
    }
  }

  lemma {:induction false} SmallStuck(w: World, a: Action, k: Key)
    requires Stuck(w, k) && (a.Charge? || a.Crash? || a.Sweep? || a.Relaying? || a.Tick?)
    ensures Stuck(Next(w, a), k) && Next(w, a).db.keys[k] == w.db.keys[k]
  {
  }

  lemma {:induction false} StuckStep(w: World, a: Action, k: Key)
    requires Stuck(w, k)
    ensures Stuck(Next(w, a), k) && Next(w, a).db.keys[k] == w.db.keys[k]
  {
    hide Next;
    match a
    case Arrive(_, _, _, _) => ArriveStuck(w, a, k);
    case Retry(_, _) => RetryStuck(w, a, k);
    case Settle2(_, _) => Settle2Stuck(w, a, k);
    case _ => SmallStuck(w, a, k);
  }

  /** No order of key k has been charged between the two worlds. */
  predicate NoChargeFor(before: World, after: World, k: Key) {
    && before.log <= after.log && before.origin <= after.origin
    && forall i :: |before.log| <= i < |after.log| ==> after.log[i] < |after.origin| && after.origin[after.log[i]] != k
  }

  lemma {:induction false} SagaOrigin(w: World, base: Inventory, o: nat)
    requires Inv(w, base) && o in w.sagas
    ensures o < |w.origin| && w.sagas[o].key == w.origin[o]
  {
    assert SagaOk(o, w.sagas[o], w.db.orders, w.origin, w.results);
  }

  lemma {:induction false} ChargedElsewhere(w: World, base: Inventory, a: Action, k: Key)
    requires Inv(w, base) && Stuck(w, k)
    ensures NoChargeFor(w, Next(w, a), k)
  {
    hide Next, Inv;
    OriginGrows(w, a);
    if Next(w, a).log != w.log {
      OnlyChargesLog(w, a);
      SagaOrigin(w, base, a.order);
    }
  }

  lemma {:induction false} OriginGrows(w: World, a: Action)
    ensures w.origin <= Next(w, a).origin
  {
  }

  lemma {:induction false} NoChargeOn(before: World, mid: World, after: World, k: Key)
    requires NoChargeFor(before, mid, k) && NoChargeFor(mid, after, k)
    ensures NoChargeFor(before, after, k)
  {
  }

  lemma {:induction false} StuckForEver(w: World, base: Inventory, actions: seq<Action>, k: Key)
    requires Inv(w, base) && Stuck(w, k)
    ensures var later := Run(w, actions);
            Stuck(later, k) && later.db.keys[k] == w.db.keys[k] && NoChargeFor(w, later, k)
  {
    hide Inv, Next, Stuck, NoChargeFor;
    if actions == [] {
      NothingYet(w, k);
    } else {
      var init, a := actions[..|actions| - 1], actions[|actions| - 1];
      var mid := Run(w, init);
      StuckForEver(w, base, init, k);
      RunKeeps(w, base, init);
      StuckStep(mid, a, k);
      ChargedElsewhere(mid, base, a, k);
      NoChargeOn(w, mid, Next(mid, a), k);
    }
  }

  lemma {:induction false} NothingYet(w: World, k: Key)
    ensures NoChargeFor(w, w, k)
  {
  }

  lemma {:induction false} StuckRefuses(w: World, a: Action)
    requires a.Arrive? && Stuck(w, a.req.key)
    ensures ClaimKey(w.db.keys, a.req.key, a.req.hash) ==
            Refused(if a.req.hash == w.db.keys[a.req.key].hash then IdempotencyInProgress else IdempotencyKeyReuse)
    ensures Next(w, a) == w
  {
  }

  /** The last step of a saga that learns nothing: its process dies, or its tx2 leaves the payment
      unresolved. */
  predicate Abandons(w: World, a: Action, o: nat) {
    && o in w.sagas
    && (a == Crash(o) ||
        (a.Settle2? && a.order == o && MaySettle(w, o, a.started) && w.sagas[o].charged.value.outcome == Unknown))
  }

  lemma {:induction false} OnlyCarrier(w: World, base: Inventory, o: nat)
    requires Reachable(w, base) && o in w.sagas
    ensures w.sagas[o].key in w.db.keys && w.db.keys[w.sagas[o].key].status == InProgress
    ensures forall s :: s in w.sagas && s != o ==> w.sagas[s].key != w.sagas[o].key
  {
    hide Inv, Reachable;
    ReachableInv(w, base);
    SagaKeyInProgress(w, base, o);
    forall s | s in w.sagas && s != o ensures w.sagas[s].key != w.sagas[o].key {
      if w.sagas[s].key == w.sagas[o].key { OneSagaPerKey(w, base, s, o); }
    }
  }

  lemma {:induction false} AbandonedIsStuck(w: World, base: Inventory, a: Action, o: nat)
    requires Reachable(w, base) && Abandons(w, a, o)
    ensures Stuck(Next(w, a), w.sagas[o].key) && Next(w, a).db.keys == w.db.keys
    ensures Next(w, a).log == w.log && Next(w, a).origin == w.origin
  {
    hide Reachable;
    OnlyCarrier(w, base, o);
  }

  /** Unknown is not failure: once a saga is abandoned, in every continuation its key's row stays as it
      is, no saga ever carries the key again, no order of the key is charged, and every request with
      the key is refused without a trace. */
  lemma {:induction false} AbandonedIsNeverRetried(w: World, base: Inventory, a: Action, o: nat, actions: seq<Action>,
          request: Action)
    requires Reachable(w, base) && Abandons(w, a, o) && request.Arrive? && request.req.key == w.sagas[o].key
    ensures var k, later := w.sagas[o].key, Run(Next(w, a), actions);
            && k in w.db.keys && k in later.db.keys && later.db.keys[k] == w.db.keys[k] && Stuck(later, k)
            && NoChargeFor(w, later, k)
            && ClaimKey(later.db.keys, k, request.req.hash) ==
               Refused(if request.req.hash == w.db.keys[k].hash then IdempotencyInProgress else IdempotencyKeyReuse)
            && Next(later, request) == later
  {
    hide Inv, Reachable, Next, Run, ClaimKey, NoChargeFor;
    var k, after := w.sagas[o].key, Next(w, a);
    ReachableInv(w, base);
    StepKeeps(w, base, a);
    AbandonedIsStuck(w, base, a, o);
    StuckForEver(after, base, actions, k);
    SameStart(w, after, Run(after, actions), k);
    StuckRefuses(Run(after, actions), request);
  }

  lemma {:induction false} SameStart(before: World, mid: World, after: World, k: Key)
    requires NoChargeFor(mid, after, k) && before.log == mid.log && before.origin == mid.origin
    ensures NoChargeFor(before, after, k)
  {
  }
}
