# Checkout saga and stock ledger: a Dafny model with proofs

`POST /orders` reserves stock, charges a card and confirms an order in two transactions with a network
call between them, beside other requests, expiry sweepers and outbox relays. This project models that
machinery and proves what it is meant to guarantee over every run.

There are two levels.

* **Statement level** (`Locking`, `LockingInvariant`, `LockingRefinement`, `Deadlock`): reserve, release,
  commit and sweep transactions interleaved one UPDATE at a time on inventory and reservations. A row that
  does not match the statement's snapshot is skipped; a row that matches is written only when nobody else
  holds its lock, and the WHERE clause is evaluated again then. Locks are held to commit. Any transaction may
  abort at any point.
* **Transaction level** (`Checkout`, `CheckoutInvariant`, `CheckoutTx2`, `CheckoutTheorems`,
  `CheckoutKeys`, `CheckoutAdmission`, `CheckoutReplies`, `CheckoutRequests`, `CheckoutSteps`): the whole
  committed database, the provider's charge log, the in-flight sagas, open relays and a clock. Steps are an
  arriving request's first transaction, the retry of a request that read its key as failed, a charge, a second
  transaction, a crash, a sweep, a relay step and the passing of time. `Reachable(w, base)` says that `w` is reached from inventory `base` by some sequence of
  such steps; theorems about reachable worlds are theorems about every run.

`Ledger` and `Settlement` define reserving and handing back as functions on both tables and prove the stock
law; `Selection` is the counting query, `Pricing` what a basket costs, `OrderState` the status table, `Outbox`
the relay machine and `Luhn` the card checksum.

The source's objects that change tables are classes (`ReservationRepository.Repository`,
`OrderRepository.Repository`, `IdempotencyRepository.Repository`, `PaymentRepository.Repository`,
`PublishOutbox.Repository`, `PaymentMock.MockPaymentProvider`, `OrderCreation.Service`,
`CheckoutService.OrderCheckoutService`), with the source's loops as loops. Their contracts equate the new
tables with the functions the theorems are about, and `CheckoutSteps` and `PublishOutbox.RelayAlone` show
that those functions are the steps of the transaction-level machine.

The one-statement handlers of `IdempotencyRepository` and `PaymentRepository` write their row as their functions
in `Checkout` do; what those writes add up to over whole runs is what `CheckoutTheorems`, `CheckoutKeys`
and `CheckoutRequests` state.

Two representations to know when reading: a row's id is its position in its table, and an order's lines and
history are stored in the order. Handing back and reserving share one guarded update with a negative or a
positive amount. PostgreSQL's `now()` is the start of the transaction, so the steps that are transactions carry
`started`, which is what they stamp and compare with, and take effect at the world's `clock`, which is no earlier.
`World.origin` records which key each order came from and `World.settled` when an order's second transaction took
effect; no step reads either.

Where the documentation and the code differ, the code is modelled: `app/domain/order_state.py:4-5` says that
`transition` consults `assert_allowed`; it consults `is_allowed` (`app/repositories/order.py:126`).

## Results that are not what one might expect

* A confirmed order may have an expired hold, even if the order's `updated_at` is no later than the hold's
  `expires_at` (`CheckoutAdmission.ConfirmedWithExpiredHold`): the stamp is the start of the confirming
  transaction, and a sweep may commit while it is open. All of its holds are committed exactly when all were
  still active at the instant the confirmation took effect (`CheckoutTheorems.CompletionCommitsIff`).
* The warehouse query's count accepts a basket with two lines for one product of which only one fits
  (`Selection.DuplicateLinesPassTheCount`); the duplicate check on requests is what makes the count mean
  "every item fits" (`Selection.EligibleIffAllAvailable`).
* The checksum misses the swap of 0 and 9, and only that one (`Luhn.AdjacentSwapDetected`).

## Model

| member | source | states |
|---|---|---|
| Ledger.ApplyAllExact | app/repositories/reservation.py:100-119 | a list of guarded increments (or decrements) goes through exactly when every row's total fits the initial row, and then moves each row by its total and no other row |
| Ledger.LockOrder | app/repositories/reservation.py:65-72 | the result is sorted by (warehouse, product) and is a permutation of the input |
| Ledger.LockOrderAscends | app/repositories/reservation.py:65-72 | locks are taken in rising order: ascending warehouse, and ascending product within a warehouse |
| Ledger.LockOrderUnique | app/repositories/reservation.py:65-72 | for distinct rows there is only one such order |
| Ledger.ReserveSucceedsIff | app/repositories/reservation.py:85-136 | for distinct products the reservation succeeds if and only if each item alone fits the initial availability |
| Ledger.ReserveMovesStock | app/repositories/reservation.py:100-119 | success raises each named row by exactly the item's quantity and leaves every other row alone |
| Ledger.ReserveAppends | app/repositories/reservation.py:121-130 | success keeps every earlier hold and appends only active holds of this order with this expiry |
| Ledger.ReserveAddsHolds | app/repositories/reservation.py:121-135 | success gives the order exactly one hold per item, with its row and quantity, and gives no other order anything |
| Ledger.ReserveFailure | app/repositories/reservation.py:116-119 | failure names an unavailable item, and every item before it in lock order was available |
| Ledger.ReserveOrderIrrelevant | app/repositories/reservation.py:65-72 | the outcome, tables included, is the same for every listing order of the items |
| Settlement.HandBackExact | app/repositories/reservation.py:240-268 | the decrement loop, over claimed rows returned in any order, fails exactly when some row holds less than the claimed sum, and otherwise lowers each row by that sum |
| Settlement.SettleNeverRaises | app/repositories/reservation.py:263-268 | while the stock law holds, "inventory invariant violated" is not raised, whatever ids are settled |
| Settlement.SettleConserves | app/repositories/reservation.py:218-270 | releasing or expiring holds keeps the stock law |
| Settlement.CommitConserves | app/repositories/reservation.py:157-177 | committing holds, which lowers neither column, keeps the stock law |
| Settlement.ReserveConserves | app/repositories/reservation.py:85-136 | reserving keeps the stock law, for any items |
| Settlement.ReservedInRange | app/models/inventory.py:65-69 | under the stock law every row has 0 <= reserved <= on_hand |
| Settlement.ReleaseUndoesReserve | app/repositories/reservation.py:138-155 | reserve then release gives back the very inventory one started with |
| Settlement.SecondReleaseIsNoOp | app/repositories/reservation.py:138-155 | after a release no hold of the order is active and a second release changes nothing |
| ReservationRepository.Repository.ReserveSortedRows | app/repositories/reservation.py:100-135 | the loop, whose pending hold the session writes before each next statement, leaves both tables and answers as the list of guarded increments and holds, taken one at a time, does: the first short row or the first repeated hold stops it |
| ReservationRepository.Repository.Flush | app/models/reservation.py:71-77 | the pending holds are written all together, or none of them when an (order, warehouse, product) would repeat; nothing pending is no statement |
| ReservationRepository.Repository.ReserveStock | app/repositories/reservation.py:85-136 | both tables and the returned items, or the error, are those of the atomic reservation |
| ReservationRepository.Repository.HandBackRows | app/repositories/reservation.py:244-268 | the loop applies the guarded decrements in order until one matches no row |
| ReservationRepository.Repository.SettleHolds | app/repositories/reservation.py:218-270 | both tables are those of the atomic settlement, and the returned rows are the claimed holds, each once |
| ReservationRepository.Repository.ReleaseReservation | app/repositories/reservation.py:138-155 | releases exactly the order's active holds |
| ReservationRepository.Repository.SettleForOrder | app/repositories/reservation.py:157-177 | ends exactly the order's active holds with the given status and leaves inventory alone |
| ReservationRepository.Repository.SweepExpired | app/repositories/reservation.py:179-216 | expires exactly the chosen batch of due holds and returns each of them once |
| ReservationRepository.SweepFillsBatch | app/repositories/reservation.py:192-201 | a batch names due holds only, each once, and as many as there are up to the limit |
| ReservationRepository.SweepTakesOldest | app/repositories/reservation.py:198-200 | no due hold left out of a batch expired earlier than one in it |
| ReservationRepository.SweepOnce | app/jobs/sweep_reservations.py:26-35 | one batch of any size: the count is the number of holds newly expired, zero from a batch that could take any means nothing is due, and the stock law is kept |
| ReservationRepository.Drain | app/jobs/sweep_reservations.py:38-45 | terminates; at the end nothing is due as of the last sweep, the total counts each expired hold once, holds differ from the start only by having been swept when due, and it never raises while the stock law holds |
| LockingRefinement.CommitRefines | app/repositories/reservation.py:3-28 | each commit changes the committed tables exactly as the transaction alone would change them at that moment |
| LockingRefinement.RunRefinesCommitOrder | app/repositories/reservation.py:3-28 | after any interleaving with any aborts, the tables are those of the committed transactions run one at a time in commit order, each sweep replaying the ids it claimed |
| LockingRefinement.RunConservesStock | app/repositories/reservation.py:100-130 | in every interleaving reserved = initial + active + committed quantities, and 0 <= reserved <= on_hand |
| LockingRefinement.RunEndsEachHoldOnce | app/repositories/reservation.py:202-214 | no hold is claimed by two committed transactions, though a sweeper may pick its id from an old snapshot |
| LockingRefinement.HandBackAlwaysMatches | app/repositories/reservation.py:244-268 | in every reachable state the next decrement of a release or sweep matches its row |
| Deadlock.WaitingClimbs | app/repositories/reservation.py:30-48 | whoever holds the row a transaction waits for can itself only wait for a later row |
| Deadlock.NoWaitCycle | app/repositories/reservation.py:30-48 | in every reachable state the wait-for graph over inventory rows has no cycle |
| Deadlock.SomeoneCanMove | app/repositories/reservation.py:30-48 | whenever some transaction is past its claim, one can go on, whatever the others are doing |
| Selection.EligibleIffSomeLineFits | app/repositories/warehouse.py:72-82 | for any basket, the HAVING count admits a warehouse iff every requested product has some line that fits there |
| Selection.EligibleIffAllAvailable | app/repositories/warehouse.py:72-82 | for distinct products it admits a warehouse iff every item fits there |
| Selection.DuplicateLinesPassTheCount | app/repositories/warehouse.py:72-82 | without distinct products the count is not "every item fits" |
| Selection.SelectBestIsNearestSupplier | app/repositories/warehouse.py:57-114 | the answer is the least by (distance, code) among active warehouses able to supply every item, and None iff there is none |
| Selection.SelectionAgreesWithReservation | app/repositories/warehouse.py:72-108 | on unchanged stock the reservation succeeds at the selected warehouse, and nothing is selected iff every active warehouse would answer InsufficientStock |
| Selection.RefusalTellsWhy | app/services/warehouse_selection.py:55-78 | an empty basket finds nothing; unknown products are reported first, exactly they; otherwise it refuses iff no active warehouse supplies the basket, and the two counts in the refusal differ iff some product is out of stock everywhere |
| OrderState.TerminalHasNoExit | app/domain/order_state.py:22-48 | the terminal statuses are exactly those with no way out |
| OrderState.TimelineIsShort | app/domain/order_state.py:22-31 | no allowed history has more than four rows |
| OrderState.OnlyWayToConfirmed | app/domain/order_state.py:22-31 | pending, reserved, paid, confirmed is the only history of a confirmed order |
| OrderState.WaysIn | app/domain/order_state.py:22-31 | from which statuses each status may be entered, all thirty-six pairs |
| OrderState.TimelineExtends | app/repositories/order.py:149-157 | appending a row keeps a history valid iff it leaves the current status by an allowed edge |
| OrderRepository.Repository.Create | app/repositories/order.py:38-80 | the new order is pending, without lines, with the creation row in its history, and no other order changes |
| OrderRepository.Repository.AddItems | app/repositories/order.py:82-108 | the loop appends one line per item with the product's SKU, name, price and currency as they are now, in order; a product listed twice is refused and nothing is written |
| OrderRepository.Repository.Transition | app/repositories/order.py:110-157 | moves the order and appends the history row iff the edge is allowed and the status is the expected one; otherwise reports the actual status and changes nothing |
| OrderRepository.LoserIsTold | app/repositories/order.py:126-147 | of two moves out of the same status one wins, and the other is refused with the status the winner left |
| OrderCreation.Service.CreateInTransaction | app/services/order_creation.py:106-176 | the tables, or the error, are those of: select, one currency, insert, reserve, mark reserved; `CheckoutAdmission.PlacedOrder` and the `Pricing` lemmas say what they come to |
| Pricing.OneItemWorth | app/services/order_creation.py:138-141 | an order's total for a basket of one item is the product's price times the quantity |
| Pricing.JoinedWorth | app/services/order_creation.py:138-141 | two baskets joined total what they total apart |
| Pricing.PermutedWorth | app/services/order_creation.py:138-141 | the total does not depend on the order in which items are listed |
| Pricing.OneMoreUnit | app/services/order_creation.py:138-141 | one more unit of any item raises the total by exactly that product's unit price |
| Pricing.WorthPositiveIff | app/models/payment.py:58 | no total is negative, and it passes the check on the amount iff some item of the basket is not free |
| Pricing.CountIsOneIff | app/services/order_creation.py:128-132 | the count of currencies is at most one iff all items are in the same currency |
| PaymentMock.MockPaymentProvider.Charge | app/adapters/payment_mock.py:52-116 | a known key gets its remembered answer and no new charge; a new one is charged once and remembered; no key is ever charged twice |
| PaymentMock.MockPaymentProvider.GetByKey | app/adapters/payment_mock.py:118-127 | there is an answer exactly for the orders that were charged, and it is the remembered one |
| PaymentMock.SpacingIrrelevant | app/adapters/payment_mock.py:68-99 | spaces and hyphens in the card number, anywhere, do not change the outcome |
| PaymentMock.LastFourDecide | app/adapters/payment_mock.py:68-99 | under any spacing 0002 is declined, 0069 and 0119 leave the outcome unknown, every other ending succeeds with a reference of the order's own, and each failure carries its reason |
| CheckoutService.OrderCheckoutService.ClaimKey | app/services/order_checkout.py:183-210 | takes a new key, reclaims a failed one, and otherwise refuses without writing; the hash is compared first; what the row then means for later requests is `CheckoutRequests.FirstRequestDecides` |
| CheckoutService.OrderCheckoutService.PlaceOrder | app/services/order_checkout.py:136-147 | order, lines, holds and pending payment for the order's total, or the first error |
| CheckoutService.OrderCheckoutService.RunTx1 | app/services/order_checkout.py:133-150 | commits key, order, holds and pending payment together, or raises and leaves every table as it was |
| CheckoutService.OrderCheckoutService.ChargeCard | app/services/order_checkout.py:152-162 | needs no open transaction; an order already charged gets its first answer and no second charge |
| CheckoutService.OrderCheckoutService.Complete | app/services/order_checkout.py:214-267 | payment, two transitions, holds, event and key end as the completing step says, and the returned body is the stored one |
| CheckoutService.OrderCheckoutService.Compensate | app/services/order_checkout.py:291-315 | payment, stock, order and key end as the compensating step says |
| CheckoutService.OrderCheckoutService.RunTx2 | app/services/order_checkout.py:165-179 | commits one of the three endings, or raises and leaves every table as it was; when it commits, the answer agrees with the tables field by field: a body iff the order is confirmed, Declined iff it is payment_failed, Unresolved iff it is still reserved |
| CheckoutService.OrderCheckoutService.Checkout | app/services/order_checkout.py:111-179 | the whole saga with no other request in between: tx1, a charge with no transaction open, tx2 on the provider's answer; the answer agrees with the tables when tx2 commits, and an error in tx2 leaves exactly what tx1 committed |
| CheckoutSteps.Tx1IsArrival | app/services/order_checkout.py:133-149 | tx1 as specified for the method is the world's arrival step (and retry, for a failed key) |
| CheckoutSteps.SweepIsStep | app/repositories/reservation.py:192-216 | the repository's sweep, of any batch size, is a sweep step of the world |
| CheckoutInvariant.ArriveKeeps | app/services/order_checkout.py:133-149 | tx1 keeps the joint invariant of all tables, sagas, charges and relays |
| CheckoutInvariant.RetryKeeps | app/services/order_checkout.py:205-210 | so does a retry that reclaims a failed key, or loses the race for it |
| CheckoutInvariant.SweepKeeps | app/repositories/reservation.py:179-216 | so does expiring any set of due holds |
| CheckoutInvariant.RelayingKeeps | app/jobs/publish_outbox.py:29-47 | so does every relay step |
| CheckoutTx2.Settle2Keeps | app/services/order_checkout.py:165-173 | so does every tx2, although the key and payment updates have no status guard |
| CheckoutTheorems.RunKeeps | app/services/order_checkout.py:5-18 | the joint invariant holds after any sequence of steps |
| CheckoutTheorems.OrderPhases | app/services/order_checkout.py:214-267 | every order is in exactly one of three phases in which payment, holds, events and, but for a declined order whose key may have moved on, the key's row agree field by field with each other and with what the provider answered; `paid` is never visible |
| CheckoutTheorems.OneSagaPerKey | app/repositories/idempotency.py:69-93 | at most one saga is in flight for a key |
| CheckoutTheorems.OneUndeclinedChargePerKey | app/adapters/payment_mock.py:61-71 | no order is charged twice, and at most one charge ever made for a key was not a definite decline |
| CheckoutTheorems.ChargeFollowsPayment | app/services/order_checkout.py:142-162 | a charge is made only for an order with a committed pending payment for its positive total, never charged before |
| CheckoutTheorems.CompletedKeyIsFinal | app/repositories/idempotency.py:95-138 | a completed key's row never changes again in any continuation |
| CheckoutTheorems.CompletedKeyReplays | app/services/order_checkout.py:189-203 | after an order is confirmed its key, for ever, replays a 201 body with that order's fields and its payment's reference to the hash stored and refuses any other hash, and neither request changes anything |
| CheckoutRequests.FirstRequestDecides | app/services/order_checkout.py:183-210 | for ever after a request has placed an order, a request with its key is refused as reuse iff its hash differs from the placing request's; with the same hash it is refused as in progress while the order is reserved and gets the order's 201 body, field by field, once it is confirmed; no refusal leaves a trace |
| CheckoutRequests.FailedKeyIsRetried | app/services/order_checkout.py:205-210 | a request with the hash of a failed key takes it back and places a new order, with a saga in flight, iff its basket is sellable and some active warehouse supplies it on the stock as it is; otherwise the key stays failed and nothing changes |
| CheckoutRequests.NewKeyPlaces | app/services/order_checkout.py:133-149 | so does a request with a new key; otherwise not even the key is taken |
| CheckoutRequests.OneRetryWins | app/repositories/idempotency.py:69-93 | of two requests that saw the same key failed, once one has placed an order the other changes nothing, in any continuation in which the key has not failed again |
| CheckoutReplies.Tx2Tells | app/services/order_checkout.py:165-179 | from waiting tables, whatever tx2 commits, the answer is a body iff the order is confirmed, with the order's and payment's fields and stored under the key; Declined iff it is payment_failed and the key failed; Unresolved iff it is reserved, the payment pending and the key in progress; each reason is the one recorded |
| CheckoutReplies.CallerIsTold | app/services/order_checkout.py:165-179 | the same for every saga of a reachable world, and which of the three it is follows from what the provider answered |
| CheckoutKeys.KeySpeaksForOrder | app/repositories/idempotency.py:3-6 | in every reachable world every key has its order: reserved while in progress, confirmed once completed, declined once failed; the row names it once settled, and until then at most an earlier, declined one; every other order of the key was declined |
| CheckoutKeys.AbandonedIsNeverRetried | app/services/order_checkout.py:317-326 | after a saga dies or learns nothing from the provider, in every continuation its key's row stays, no saga carries the key again, no order of the key is charged, and every request with the key is refused (409) without a trace |
| CheckoutTheorems.OrderStep | app/repositories/order.py:110-157 | only the second transaction of an order's own saga moves the order |
| CheckoutTheorems.OrderHistoryGrows | app/repositories/order.py:69-80 | in any continuation an order keeps its lines, total and warehouse, its history only grows by allowed rows and ends in its status, and a terminal order never changes |
| CheckoutTheorems.ConfirmedHistory | app/domain/order_state.py:22-31 | a reachable confirmed order has the one confirmed history |
| CheckoutTheorems.NoTx2Raises | app/services/order_checkout.py:228-239 | in a reachable world tx2 never raises, whatever the outcome |
| CheckoutTheorems.StockConserved | app/repositories/reservation.py:157-177 | in every reachable world reserved = initial + active + committed quantities, and 0 <= reserved <= on_hand |
| CheckoutTheorems.ConfirmedInTimeIsCommitted | app/services/order_checkout.py:241-243 | an order whose confirmation took effect no later than its holds' expiry has exactly one committed hold per line, at its warehouse, with the line's quantity; its time stamp is only a lower bound of that instant |
| CheckoutTheorems.CompletionCommitsIff | app/services/order_checkout.py:241-243 | a successful tx2 confirms the order in any case, stamped with its start; all of the order's holds are committed, then and in every continuation, iff all were still active when it took effect, which they are if none was past its expiry then |
| CheckoutTheorems.EndedHoldsAreFinal | app/repositories/reservation.py:148-155 | in any continuation the holds of an order that has ended never change and no new one appears |
| CheckoutTheorems.HoldStamps | app/repositories/reservation.py:148-216 | in every reachable world a hold is without `released_at` exactly while it is active; an expired one was ended by a sweep that started after its expiry; a committed or released one carries the time stamp its order got in the same transaction |
| CheckoutTheorems.EventsDelivered | app/repositories/outbox.py:54-72 | open batches are disjoint; a processed event was delivered once, plus once per relay that died after publishing it; `attempts` is 1 iff processed, else 0 |
| CheckoutTheorems.ProcessedIsFinal | app/repositories/outbox.py:54-72 | in every continuation a processed event's row stays as it is and no relay delivers it again |
| CheckoutTheorems.AnnouncedOnce | app/services/order_checkout.py:245-256 | a confirmed order has exactly one event, stamped with its confirmation, which carries the order's fields and its payment's reference |
| CheckoutTheorems.NothingElseAnnounced | app/services/order_checkout.py:245-256 | every event is about a confirmed order |
| CheckoutAdmission.PlaceOutcome | app/services/order_creation.py:121-166 | on a fresh reading of stock tx1 places the order iff the basket is sellable (known products, one currency, a positive total) and some active warehouse supplies it; running short needs a stale reading; no status change or unique constraint ever fails |
| CheckoutAdmission.WhyRefused | app/services/order_creation.py:121-166 | on a fresh reading of stock, which refusal a request gets and what it names: empty basket, unknown products, no supplier, mixed currencies, nothing to pay, in this order |
| CheckoutAdmission.PlacedOrder | app/services/order_creation.py:123-166 | the order placed is the one asked for: each line's SKU, name, price, currency and quantity against product and item; a total and a pending payment of what the basket costs; the nearest supplying warehouse; one active hold per line until 900 seconds after the start; each row's stock raised by its item and no other |
| CheckoutAdmission.LateConfirmation | app/repositories/reservation.py:189-190 | from any state with a due hold and an answered charge, a sweep then tx2, which may have started first, gives a confirmed order with that hold expired |
| CheckoutAdmission.ConfirmedWithExpiredHold | app/repositories/order.py:131-136 | a concrete run, from an empty database, that ends with a confirmed order, stamped no later than its hold's expiry, and that hold expired |
| Outbox.Open | app/repositories/outbox.py:54-63 | the events a claim may see are exactly the unprocessed and unlocked ones, each once, oldest first by creation time |
| Outbox.ClaimTakesOldest | app/repositories/outbox.py:54-63 | no event a claim left behind, unprocessed and unlocked, is older than one it took |
| Outbox.ClaimFillsBatch | app/repositories/outbox.py:54-63 | a claim takes unprocessed, unlocked events only, each once, and as many as there are up to the limit |
| Outbox.ClaimRises | app/repositories/outbox.py:54-63 | a batch lists its events in the order in which they were created |
| Outbox.RelayKeeps | app/jobs/publish_outbox.py:29-47 | every step of every relay keeps the account of deliveries |
| Outbox.AtLeastOnce | app/repositories/outbox.py:17-19 | a processed event was delivered once plus once per relay that died after publishing it |
| PublishOutbox.Repository.Mark | app/repositories/outbox.py:65-72 | marks exactly the given events, stamps them and counts one attempt for each |
| PublishOutbox.PublishEach | app/jobs/publish_outbox.py:40-45 | the loop publishes each claimed event once, in batch order |
| PublishOutbox.PublishOnce | app/jobs/publish_outbox.py:29-47 | publishes the batch in order and marks exactly it: what was published and what is left are what there was to publish, in order |
| PublishOutbox.Drain | app/jobs/publish_outbox.py:50-56 | terminates; each event open at the start is published exactly once, in order, every event is processed, and the total counts each once |
| PublishOutbox.RelayAlone | app/jobs/publish_outbox.py:29-47 | the job's batch is poll, publish each, finish of the relay machine |
| Luhn.LuhnOk | app/schemas/order.py:60-69 | the loop accepts exactly the strings whose digits add up to a multiple of ten when, from the right, every second digit counts with the digits of its double, as worked out by a recursion that uses neither the weights nor the sum of the other lemmas |
| Luhn.CheckDigitCompletes | app/schemas/order.py:60-69 | a final digit is accepted after a prefix iff it completes the prefix's contribution, doubled digits last, to a multiple of ten |
| Luhn.ZerosAccepted | app/schemas/order.py:60-69 | all zeros, of any length, are accepted |
| Luhn.LoneDigit | app/schemas/order.py:60-69 | which positions count doubled: one digit among zeros with a check digit after it is accepted iff the two, the first doubled digit-wise exactly at an odd distance from the right end, add up to a multiple of ten |
| Luhn.SingleDigitErrorDetected | app/schemas/order.py:60-69 | changing one digit of an accepted number gives a rejected one |
| Luhn.AdjacentSwapDetected | app/schemas/order.py:60-69 | swapping neighbours goes unnoticed iff they are equal or are 0 and 9 |
| Luhn.OneCheckDigit | app/schemas/order.py:60-69 | every prefix has exactly one accepted final digit |
| Luhn.NoDuplicateProducts | app/schemas/order.py:113-120 | accepts iff the products are distinct, and otherwise names the first repeated one |

## Left out

- CheckoutService.OrderCheckoutService.Checkout: describes a request that meets no other; interleavings are the steps of the world, where a retry of a failed key reads and swaps in two steps.
- OrderRepository.Repository.Create: stores no shipping address and no point; selection takes the distances as given.
- OrderRepository.Repository.Transition: records no free-text reason in the history row.
- PaymentMock.MockPaymentProvider.Charge: remembers neither card brand nor last four digits; nothing in the saga reads them.
- Rows with equal `created_at` are relayed in insertion order, and UUIDs are compared as integers.
- Event types: every event is `order_confirmed` for an order, so the two type columns are constant and not stored.
- Statement-by-statement interleaving of keys, orders, payments and the outbox: tx1 and tx2 are single steps there. Stock and holds, which are shared between requests, are interleaved statement by statement.
- Deadlock among stock_reservations rows: the code claims no order inside that single UPDATE, so only inventory rows are covered.
- Selection reads a snapshot that may be older than the reservation's; the world takes it as an arbitrary inventory `seen`, with no bound on how stale.
- Distances are an arbitrary function into the reals, so PostGIS and floating point do not appear; geocoding is a success that happened before.
- A sweep step may pick any set of due holds; the ORDER BY and LIMIT of the real query are in `ReservationRepository.SweepBatch`.
- Column widths: a sum over 64 bits raises and rolls back in the source; integers here are unbounded.
- Provider references: the twelve-character prefix of the order id is modelled as a token that differs between orders, so the unique index on references never refuses.
- Failure at commit itself, and failures of the database other than the constraints modelled.
- Card brand, last four digits, masking, length and character checks of the card number, addresses, history reasons and timestamps of created rows.
- The request hash and the stored body are opaque values with equality; sha256 and JSON are not modelled.
- `cancelled` is in the table but no shipped code moves an order there; `OrderCreationService.create` is not reached by the API.
- app/jobs/reconcile_payments.py: it logs and counts and changes no row.
- Routes, middleware, settings, logging, migrations, seeds, customers.
