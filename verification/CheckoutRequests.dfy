/** What becomes of a request: the one that places an order decides what its key means from then on,
    and a declined one can be tried again. */
module CheckoutRequests {
  import opened Common
  import opened Ledger
  import opened Settlement
  import opened OrderState
  import opened Selection
  import opened Checkout
  import opened CheckoutAdmission
  import opened CheckoutInvariant
  import opened CheckoutSteps
  import opened CheckoutTheorems
  import opened CheckoutTx2

  // ---------------------------------------------------------------- hashes

  lemma {:induction false} Tx2Hashes(db: Tables, o: nat, payment: nat, key: Key, result: PaymentResult, now: int,
          k: Key)
    requires k in db.keys && Tx2(db, o, payment, key, result, now).Ok?
    ensures var after := Tx2(db, o, payment, key, result, now).value.keys;
            k in after && after[k].hash == db.keys[k].hash
  {
  }

  lemma {:induction false} Settle2Hashes(w: World, a: Action, k: Key)
    requires a.Settle2? && k in w.db.keys
    ensures k in Next(w, a).db.keys && Next(w, a).db.keys[k].hash == w.db.keys[k].hash
  {
    if MaySettle(w, a.order, a.started) && Tx2Of(w, a.order, a.started).Ok? {
      var saga := w.sagas[a.order];
      Tx2Hashes(w.db, a.order, saga.payment, saga.key, saga.charged.value, a.started, k);
      Settle2Is(w, a.order, a.started);
      hide Next, Tx2;
    }
  }

  /** No step changes the hash a key was taken with. */
  lemma {:induction false} HashStep(w: World, a: Action, k: Key)
    requires k in w.db.keys
    ensures k in Next(w, a).db.keys && Next(w, a).db.keys[k].hash == w.db.keys[k].hash
  {
    hide Next;
    if a.Arrive? {
      var keys := ArriveAppends(w, a);
    } else if a.Retry? {
      var keys := RetryAppends(w, a);
    } else if a.Settle2? {
      Settle2Hashes(w, a, k);
    } else {
      SmallStep(w, a);
    }
  }

  lemma {:induction false} HashForEver(w: World, actions: seq<Action>, k: Key)
    requires k in w.db.keys
    ensures k in Run(w, actions).db.keys && Run(w, actions).db.keys[k].hash == w.db.keys[k].hash
  {
    if actions != [] {
      HashForEver(w, actions[..|actions| - 1], k);
      HashStep(Run(w, actions[..|actions| - 1]), actions[|actions| - 1], k);
      hide Next;
    }
  }

  lemma {:induction false} OriginForEver(w: World, actions: seq<Action>)
    ensures w.origin <= Run(w, actions).origin
  {
    if actions != [] {
      OriginForEver(w, actions[..|actions| - 1]);
      OriginStep(Run(w, actions[..|actions| - 1]), actions[|actions| - 1]);
      hide Next;
    }
  }

  lemma {:induction false} OriginStep(w: World, a: Action)
    ensures w.origin <= Next(w, a).origin
  {
    hide Place, Tx2, Settle;
  }

  // ---------------------------------------------------------------- the request that places an order

  /** The step is the first transaction, or its retry, in which request `req` places order o. */
  predicate Places(w: World, a: Action, req: Request, o: nat) {
    && o == |w.db.orders| && |Next(w, a).db.orders| == o + 1
    && ((a.Arrive? && a.req == req) || (a.Retry? && a.ticket in w.retries && w.retries[a.ticket].req == req))
  }

  lemma {:induction false} Tx1Takes(w: World, keys: Keys, req: Request, shop: Shop, started: int)
    requires |Tx1(w, keys, req, shop, started).db.orders| > |w.db.orders|
    ensures var after := Tx1(w, keys, req, shop, started); after.db.keys == keys && after.origin == w.origin + [req.key]
  {
    PlaceKeeps(w.db.(keys := keys), req, shop, started);
    hide Place;
  }

  lemma {:induction false} ArrivalTakes(w: World, a: Action)
    requires a.Arrive? && |Next(w, a).db.orders| > |w.db.orders|
    ensures var after := Next(w, a);
            && after.origin == w.origin + [a.req.key]
            && a.req.key in after.db.keys && after.db.keys[a.req.key].hash == a.req.hash
  {
    hide Tx1;
    var answer := ClaimKey(w.db.keys, a.req.key, a.req.hash);
    if answer.Taken? {
      Tx1Takes(w, answer.keys, a.req, a.shop, a.started);
    }
  }

  lemma {:induction false} RetryHash(w: World, base: Inventory, ticket: nat)
    requires Inv(w, base) && ticket in w.retries
    ensures var req := w.retries[ticket].req; req.key in w.db.keys && w.db.keys[req.key].hash == req.hash
  {
  }

  lemma {:induction false} RetryTakes(w: World, base: Inventory, a: Action)
    requires Inv(w, base) && a.Retry? && |Next(w, a).db.orders| > |w.db.orders| && a.ticket in w.retries
    ensures var after, req := Next(w, a), w.retries[a.ticket].req;
            && after.origin == w.origin + [req.key]
            && req.key in after.db.keys && after.db.keys[req.key].hash == req.hash
  {
    RetryHash(w, base, a.ticket);
    hide Inv, Tx1;
    var attempt := w.retries[a.ticket];
    var keys := ReclaimFailed(w.db.keys, attempt.req.key);
    if keys.Some? {
      Tx1Takes(w.(retries := w.retries - {a.ticket}), keys.value, attempt.req, a.shop, attempt.started);
    }
  }

  lemma {:induction false} PlacedWith(w: World, base: Inventory, a: Action, req: Request, o: nat)
    requires Inv(w, base) && Places(w, a, req, o)
    ensures var after := Next(w, a);
            && o < |after.origin| && o < |after.db.orders| && after.origin[o] == req.key
            && req.key in after.db.keys && after.db.keys[req.key].hash == req.hash
  {
    SizesFact(w, base);
    if a.Arrive? {
      ArrivalTakes(w, a);
    } else {
      RetryTakes(w, base, a);
    }
    hide Inv, Next;
  }

  /** What a request with the key of order o is answered, as the order stands. */
  lemma {:induction false} AnswerByPhase(w: World, base: Inventory, o: nat, b: Action)
    requires Inv(w, base) && o < |w.db.orders| && o < |w.origin| && b.Arrive? && b.req.key == w.origin[o]
    ensures o < |w.db.payments| && b.req.key in w.db.keys
    ensures var answer, order := ClaimKey(w.db.keys, b.req.key, b.req.hash), w.db.orders[o];
            && (answer == Refused(IdempotencyKeyReuse) <==> b.req.hash != w.db.keys[b.req.key].hash)
            && (b.req.hash == w.db.keys[b.req.key].hash ==>
                  && (order.status == Reserved ==> answer == Refused(IdempotencyInProgress))
                  && (order.status == Confirmed ==> Replays(answer, o, order, w.db.payments[o])))
  {
    assert OriginOk(o, w.db.orders[o], w.db.payments[o], w.origin[o], w.db.keys);
  }

  /** The stored 201 answer of order o. */
  predicate Replays(answer: ClaimAnswer, o: nat, order: Order, payment: Payment) {
    && answer.Refused? && answer.error.ReplayedResponse? && answer.error.code == 201
    && answer.error.body.Some? && BodyOf(answer.error.body.value, o, order, payment)
  }

  /** The request that places an order decides what its key means. In every continuation a request
      with that key is refused as reuse exactly when its hash is another one, and leaves no trace;
      with the same hash it is refused while the order waits for its payment, and once the order is
      confirmed it gets the order's 201 body. */
  lemma {:induction false} FirstRequestDecides(w: World, base: Inventory, a: Action, req: Request, o: nat,
          actions: seq<Action>, b: Action)
    requires Reachable(w, base) && Places(w, a, req, o) && b.Arrive? && b.req.key == req.key
    ensures var later := Run(Next(w, a), actions);
            && o < |later.db.orders| && o < |later.db.payments|
            && var answer, order := ClaimKey(later.db.keys, b.req.key, b.req.hash), later.db.orders[o];
               && (answer == Refused(IdempotencyKeyReuse) <==> b.req.hash != req.hash)
               && (b.req.hash == req.hash && order.status == Reserved ==> answer == Refused(IdempotencyInProgress))
               && (b.req.hash == req.hash && order.status == Confirmed ==>
                     Replays(answer, o, order, later.db.payments[o]))
               && (answer.Refused? ==> Next(later, b) == later)
  {
    hide Inv, Reachable, Run, ClaimKey, Replays;
    var after := Next(w, a);
    ReachableInv(w, base);
    StepKeeps(w, base, a);
    PlacedWith(w, base, a, req, o);
    hide Next, Places;
    var later := Run(after, actions);
    RunKeeps(after, base, actions);
    HashForEver(after, actions, req.key);
    OriginForEver(after, actions);
    OrderHistoryGrows(after, base, actions, o);
    AnswerByPhase(later, base, o, b);
    if ClaimKey(later.db.keys, b.req.key, b.req.hash).Refused? { RefusedIsNothing(later, b); }
  }

  // ---------------------------------------------------------------- trying again

  /** A basket that can be sold and a warehouse that has it all, as the stock is. */
  predicate CanPlace(w: World, req: Request, shop: Shop) {
    Sellable(shop.products, req.items) && SomeSupplier(w.db.books.inventory, shop.warehouses, req.items)
  }

  /** The request has placed the next order, with a saga in flight and its key in progress. */
  predicate Started(w: World, after: World, req: Request) {
    var o := |w.db.orders|;
    && |after.db.orders| == o + 1
    && after.db.orders[o].status == Reserved && after.db.orders[o].customer == req.customer
    && after.origin == w.origin + [req.key]
    && o in after.sagas && after.sagas[o].key == req.key && after.sagas[o].charged == None
    && req.key in after.db.keys
    && after.db.keys[req.key].status == InProgress && after.db.keys[req.key].hash == req.hash
  }

  lemma {:induction false} Tx1Starts(w: World, base: Inventory, keys: Keys, req: Request, shop: Shop, started: int)
    requires Reachable(w, base) && DistinctProducts(req.items) && UniqueCodes(shop.warehouses)
    requires shop.seen == w.db.books.inventory
    requires req.key in keys && keys[req.key].status == InProgress && keys[req.key].hash == req.hash
    ensures var after := Tx1(w, keys, req, shop, started);
            if CanPlace(w, req, shop) then Started(w, after, req) else after == w
  {
    hide Reachable, Sellable, SomeSupplier, DistinctProducts, UniqueCodes, Place;
    PlaceOutcome(w, base, keys, req, shop, started);
    if Place(w.db.(keys := keys), req, shop, started).Ok? {
      var order, at := PlacedOrder(w, base, keys, req, shop, started);
    }
  }

  lemma {:induction false} FailedArrival(w: World, ticket: nat, req: Request, shop: Shop, started: int)
    requires DistinctProducts(req.items) && ticket !in w.retries && started <= w.clock
    requires req.key in w.db.keys && w.db.keys[req.key].status == FailedKey && w.db.keys[req.key].hash == req.hash
    ensures var keys := ReclaimFailed(w.db.keys, req.key);
            && keys.Some? && req.key in keys.value
            && keys.value[req.key].status == InProgress && keys.value[req.key].hash == req.hash
            && Next(w, Arrive(ticket, req, shop, started)) == w.(retries := w.retries[ticket := Attempt(req, started)])
            && Next(Next(w, Arrive(ticket, req, shop, started)), Retry(ticket, shop)) ==
               Tx1(w, keys.value, req, shop, started)
  {
    hide Tx1;
    assert w.retries[ticket := Attempt(req, started)] - {ticket} == w.retries;
  }

  /** A declined checkout can be tried again: a request with the hash of a failed key reads it as failed
      and takes it back, and places a new order exactly when the basket can be sold and some active
      warehouse has it all; otherwise the key stays failed and nothing has changed. */
  lemma {:induction false} FailedKeyIsRetried(w: World, base: Inventory, ticket: nat, req: Request, shop: Shop,
          started: int)
    requires Reachable(w, base) && DistinctProducts(req.items) && UniqueCodes(shop.warehouses)
    requires shop.seen == w.db.books.inventory && ticket !in w.retries && started <= w.clock
    requires req.key in w.db.keys && w.db.keys[req.key].status == FailedKey && w.db.keys[req.key].hash == req.hash
    ensures var after := Next(Next(w, Arrive(ticket, req, shop, started)), Retry(ticket, shop));
            if CanPlace(w, req, shop) then Started(w, after, req) else after == w
  {
    hide Next, Reachable, Tx1;
    FailedArrival(w, ticket, req, shop, started);
    Tx1Starts(w, base, ReclaimFailed(w.db.keys, req.key).value, req, shop, started);
  }

  lemma {:induction false} FreshArrival(w: World, ticket: nat, req: Request, shop: Shop, started: int)
    requires DistinctProducts(req.items) && ticket !in w.retries && started <= w.clock && req.key !in w.db.keys
    ensures var answer := ClaimKey(w.db.keys, req.key, req.hash);
            && answer.Taken? && req.key in answer.keys
            && answer.keys[req.key].status == InProgress && answer.keys[req.key].hash == req.hash
            && Next(w, Arrive(ticket, req, shop, started)) == Tx1(w, answer.keys, req, shop, started)
  {
    hide Tx1;
  }

  /** A request with a new key places an order exactly when the basket can be sold and some active
      warehouse has it all; otherwise not even the key is taken. */
  lemma {:induction false} NewKeyPlaces(w: World, base: Inventory, ticket: nat, req: Request, shop: Shop, started: int)
    requires Reachable(w, base) && DistinctProducts(req.items) && UniqueCodes(shop.warehouses)
    requires shop.seen == w.db.books.inventory && ticket !in w.retries && started <= w.clock
    requires req.key !in w.db.keys
    ensures var after := Next(w, Arrive(ticket, req, shop, started));
            if CanPlace(w, req, shop) then Started(w, after, req) else after == w
  {
    hide Next, Reachable, Tx1;
    FreshArrival(w, ticket, req, shop, started);
    Tx1Starts(w, base, ClaimKey(w.db.keys, req.key, req.hash).keys, req, shop, started);
  }

  /** A retry finds its key failed, or changes nothing but its own ticket. */
  lemma {:induction false} RetryNeedsFailed(w: World, ticket: nat, shop: Shop)
    requires ticket in w.retries
    requires var k := w.retries[ticket].req.key; k !in w.db.keys || w.db.keys[k].status != FailedKey
    ensures Next(w, Retry(ticket, shop)) == w.(retries := w.retries - {ticket})
  {
  }

  lemma {:induction false} RetryTakesKey(w: World, base: Inventory, a: Action)
    requires Inv(w, base) && a.Retry? && a.ticket in w.retries && |Next(w, a).db.orders| > |w.db.orders|
    ensures var k, after := w.retries[a.ticket].req.key, Next(w, a);
            && k in after.db.keys && after.db.keys[k].status == InProgress && after.retries == w.retries - {a.ticket}
  {
    hide Inv, Tx1;
    var attempt := w.retries[a.ticket];
    var keys := ReclaimFailed(w.db.keys, attempt.req.key);
    if keys.Some? {
      var rest := w.(retries := w.retries - {a.ticket});
      Tx1Takes(rest, keys.value, attempt.req, a.shop, attempt.started);
      Tx1Is(rest, keys.value, attempt.req, a.shop, attempt.started);
    }
  }

  /** Two requests that saw the same key failed: once one has placed an order, the other places none
      until that order is declined in turn. */
  lemma {:induction false} OneRetryWins(w: World, base: Inventory, first: Action, second: nat, shop: Shop,
          actions: seq<Action>)
    requires Reachable(w, base) && first.Retry? && first.ticket in w.retries
    requires |Next(w, first).db.orders| > |w.db.orders|
    requires second in w.retries && second != first.ticket
    requires w.retries[second].req.key == w.retries[first.ticket].req.key
    ensures var won, k := Next(w, first), w.retries[second].req.key;
            && second in won.retries && k in won.db.keys && won.db.keys[k].status == InProgress
            && Next(won, Retry(second, shop)).db == won.db && Next(won, Retry(second, shop)).sagas == won.sagas
    ensures var later, k := Run(Next(w, first), actions), w.retries[second].req.key;
            second in later.retries && later.retries[second].req.key == k && k in later.db.keys
            && later.db.keys[k].status != FailedKey ==>
              Next(later, Retry(second, shop)).db == later.db && Next(later, Retry(second, shop)).sagas == later.sagas
  {
    hide Inv, Reachable, Next, Run;
    ReachableInv(w, base);
    RetryTakesKey(w, base, first);
    RetryNeedsFailed(Next(w, first), second, shop);
    var later := Run(Next(w, first), actions);
    if second in later.retries && later.retries[second].req.key in later.db.keys
       && later.db.keys[later.retries[second].req.key].status != FailedKey
    {
      RetryNeedsFailed(later, second, shop);
    }
  }
}
