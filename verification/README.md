# A verified model of the ticketing system's durable protocol

The ticketing system sells numbered seats. A reservation holds seats for a while, a payment callback
turns the hold into bookings or into a refund, and everything that changes is announced through an
outbox, consumed once, and projected into a Redis seat map that browsers read. This project models
those parts as steps over explicit state and proves what holds in every run.

**Durable commerce.** `Domain`, `Commerce`, `Transactions` describe the tables and every transaction of
the reservation store and of the event consumer as a function of the whole database: it commits all its
writes or fails and returns the database unchanged. `ReservationStore` is the store as it runs, a class
whose methods loop over rows and reassign tables, each proved equal to its transaction function.
`Outcomes` and `PaymentOutcomes` say in terms of rows what every transaction answers and leaves behind, when
exactly it fails and with which code. `CommerceProofs`, `Forward`, `Ledger`, `Records`, `Runs` prove that every transaction keeps the seat,
order, money, ticket and record invariants; `StoreTheorems`, `HoldHistory` and `Fulfilment` state the results for
every run from a fresh store, under any interleaving, any redelivery and a clock that never goes back.

**Projection.** `SeatMaps` is the Lua `PUT` (full, patch, and cut off between any two commands), `SeatCache` the same
script as a loop in place, `SeatMapReads` the tags, deltas and reordering results. `Announcements`,
`Projection`, `ProjectionProofs`, `ProjectionRuns` add deliveries, refresh requests and workers that read
the database and write Redis later, stall, crash or lose their lease, and prove convergence.
`ProjectionReads` and `ProjectionMeta` state tag and delta soundness and what layout and sale window say for
what those workers really write, key loss included, and
`RefreshQueue` adds the history of requests and reads. `Tags`, `BrowseBodies`, `BrowseThreads` are
conditional browsing with the bounded in-process body cache, shared by any number of threads.

**Redis-first intake.** `IntakeScripts` and `ReservationIntake` are `ENQUEUE`, `MARK_DURABLE` and
`MARK_FAILED`; `IntakeRuns`, `IntakeProofs`, `IntakeTheorems`, `IntakeWitness` put them together with at-least-once
delivery, crashing writers, keys that run out, map writes and all other traffic of the durable store.

**Leases and reconciliation.** `Leases` is the token fencing shared by outbox, refresh, reconciliation and
simulator rows. `Reconciler` is the oldest-first schedule with bounded backoff.

Conventions. Times are integers on one clock and uuids are naturals; a new uuid is an argument required
to be unused. A digest is modelled by the value it digests. An event's id is its position in the outbox.
A request's seats are a set, except in the intake scripts, where their order decides the stamps. Bookings
and tickets are identified by their unique (event, seat) and booking keys. Inventory and prices are fixed,
and a full write carries the whole inventory.

Atomic rollback is an assumption of the model: a transaction that fails returns the database it was given.

One statement one might expect is false of the code: a persisted command can be, or become, FAILED in
Redis. `IntakeWitness.FailedPersistedIsReached` gives a run from an empty system that ends that way (a
writer is refused while another hold still covers the seat, marks the command FAILED, dies before
acknowledging, and the redelivered message succeeds once that hold has run out), and
`IntakeTheorems.PersistedCanFailExactly` says exactly when a persisted command can still become FAILED:
while its hash is PENDING and some writer holds a refusal. `IntakeWitness.PersistedCanFailIsReached` shows
that this condition occurs.

`payment_decision` leaves a success on a paid order alone. No money is lost there: an order has one payment,
and a payment that succeeded once is answered as a duplicate before the decision, so every success that is
decided books or refunds (`StoreTheorems.SuccessIsHonoured`).

## Model

| member | source | states |
|---|---|---|
| Domain.PaymentDecision | src/ticketing/domain.py:10-16 | A success is left undecided only if the order is already paid; BOOK exactly for a success on a pending order with a valid hold; FAILED exactly for a decline on a pending order |
| ReservationStore.PostgresReservations.SeatsAvailable | src/ticketing/infrastructure/reservations.py:92-93 | Row-by-row check answers true exactly when every requested seat is neither booked nor still reserved |
| ReservationStore.PostgresReservations.SeatsAvailableTo | src/ticketing/infrastructure/reservations.py:180-189 | The same for a command, which may also take seats carrying its own hold |
| ReservationStore.PostgresReservations.TotalPrice | src/ticketing/infrastructure/reservations.py:96-96 | The loop adds up exactly the prices of the requested rows |
| ReservationStore.PostgresReservations.ReserveSeats | src/ticketing/infrastructure/reservations.py:64-126 | All tables and the answer after a synchronous reservation, on success, replay and every failure |
| ReservationStore.PostgresReservations.PersistReservationCommand | src/ticketing/infrastructure/reservations.py:128-268 | All tables and the answer after persisting a Redis-first command, including command and key replays and mismatches |
| ReservationStore.PostgresReservations.CheckoutHold | src/ticketing/infrastructure/reservations.py:270-295 | Tables and answer of a checkout, replay and expiry included |
| ReservationStore.PostgresReservations.ReleaseByActor | src/ticketing/infrastructure/reservations.py:319-350 | Tables and answer of a release: own unbooked seats freed, hold and pending order closed, seats announced |
| ReservationStore.PostgresReservations.ExpireBatch | src/ticketing/infrastructure/reservations.py:352-364 | The loop releases exactly the selected due orders, in order, and returns their number; a limit outside 1 to 100 is an error and changes nothing |
| ReservationStore.PostgresReservations.StartPayment | src/ticketing/infrastructure/reservations.py:369-403 | Tables and answer of a payment initiation, one payment per order |
| ReservationStore.PostgresReservations.HoldStillValid | src/ticketing/infrastructure/reservations.py:440-455 | The loop answers true exactly when the hold still entitles the order to every item |
| ReservationStore.PostgresReservations.HandleCallback | src/ticketing/infrastructure/reservations.py:405-497 | Tables and answer of a payment callback: mismatch, duplicate, book, refund, fail, unchanged, and rollback on a double booking |
| ReservationStore.PostgresReservations.ConsumeEvent | src/ticketing/workers.py:478-523 | Tables after one delivery: inbox deduplication, refresh request, tickets and fulfilment, refund settlement, errors |
| Outcomes.ReserveExactly | src/ticketing/infrastructure/reservations.py:64-126 | For every request in every reachable state: which failure and exactly when, replay of a used key only for the same request, and on success the exact new seat, hold, order, item, record and event rows and nothing else |
| Outcomes.PersistExactly | src/ticketing/infrastructure/reservations.py:128-268 | The same for a command: mismatch, command and key replays, expiry, and the rows made with the command's own ids and expiry |
| Outcomes.CheckoutExactly | src/ticketing/infrastructure/reservations.py:270-295 | The actor's own order on the hold with its id, status, total and currency; expired exactly when pending and out of time; only the record is added |
| Outcomes.ReleaseExactly | src/ticketing/infrastructure/reservations.py:319-350 | Exactly the seats carrying the hold are free again, one version later; hold, order and announcement follow; not found and already booked exactly when they should be |
| Outcomes.ExpireExactly | src/ticketing/infrastructure/reservations.py:352-364 | Every order of the batch is EXPIRED with its hold and has given its seats back; nothing else changed |
| PaymentOutcomes.PayExactly | src/ticketing/infrastructure/reservations.py:369-403 | One payment per order, with the requested outcome, due time and deliveries; not payable exactly when not pending or out of time; a second request names the first payment |
| PaymentOutcomes.CallbackExactly | src/ticketing/infrastructure/reservations.py:405-497 | For every callback in every reachable state: not found, payment mismatch (order, amount or currency), callback mismatch and duplicate exactly when they should be; booking exactly on a pending order whose hold lasts; and the exact rows and events of book, refund, fail and unchanged |
| PaymentOutcomes.SuccessWasPaid | src/ticketing/infrastructure/reservations.py:418-458 | Over every run a payment succeeds only at a successful callback that names its order, amount and currency |
| PaymentOutcomes.ConsumeExactly | src/ticketing/workers.py:478-523 | Which error a delivery raises and exactly when, and on success the exact inbox, ticket, order, refund, queue and event rows |
| Fulfilment.EventsDoTheirWork | src/ticketing/workers.py:482-519 | In every reachable state a consumed OrderPaid means a FULFILLED order with a ticket per item, a consumed RefundRequested a REFUNDED order and settled row; a PAID or REFUND_PENDING order has its event still unconsumed |
| Fulfilment.DrainedOutboxSettlesAll | src/ticketing/workers.py:482-519 | Once every event is consumed no order is PAID without tickets or REFUND_PENDING |
| CommerceProofs.CreateHoldSound | src/ticketing/infrastructure/reservations.py:94-112 | Creating a hold keeps ownership, lockstep, prices, charges, tickets and live-hold custody |
| CommerceProofs.ReleaseSound | src/ticketing/infrastructure/reservations.py:331-350 | Releasing, in any closing state and for any order, keeps them |
| CommerceProofs.BookSound | src/ticketing/infrastructure/reservations.py:460-473 | Booking keeps them: the rows updated by hold id are exactly the seats given bookings |
| CommerceProofs.RefundSound | src/ticketing/infrastructure/reservations.py:474-490 | Refunding keeps them, with one refund row per payment |
| CommerceProofs.FailSound | src/ticketing/infrastructure/reservations.py:474-479 | A decline keeps them |
| CommerceProofs.FulfilSound | src/ticketing/workers.py:495-508 | Fulfilment keeps them, with a ticket for each booked seat of the order and no other |
| Ledger.BookBalances | src/ticketing/infrastructure/reservations.py:457-473 | Booking adds the same amount to money received and to items delivered |
| Ledger.RefundBalances | src/ticketing/infrastructure/reservations.py:457-490 | Refunding adds the same amount to money received and to money returned |
| Runs.NoDoubleBooking | src/ticketing/infrastructure/reservations.py:440-465 | A valid hold never leads to a second booking of a seat, so the unique constraint is not hit |
| Runs.StepOk | src/ticketing/infrastructure/reservations.py:64-497 | Every transaction keeps the whole database invariant and moves no row backwards |
| Runs.RunOk | src/ticketing/infrastructure/reservations.py:54-59 | So does every run |
| StoreTheorems.InventoryIsReachable | migrations/001_initial.sql:16-24 | Every inventory, any events and seats at any prices, is the start of runs the theorems speak about |
| StoreTheorems.SeatOwnership | src/ticketing/infrastructure/reservations.py:82-111 | In every reachable state a seat is never held and booked, is booked exactly if a booking exists, and a hold reference names an ACTIVE hold whose pending order lists the seat |
| StoreTheorems.LiveHoldsDisjoint | src/ticketing/infrastructure/reservations.py:167-239 | Two active holds on one seat are never both unexpired, across both creation paths |
| StoreTheorems.OrderHoldLockstep | src/ticketing/infrastructure/reservations.py:331-364 | A hold is ACTIVE exactly while its order is PENDING and CONSUMED exactly when it is paid |
| StoreTheorems.PaymentHonoured | src/ticketing/infrastructure/reservations.py:456-490 | A succeeded payment has either a booking for every item and no refund, or one refund and no booking |
| StoreTheorems.MoneyConserved | src/ticketing/infrastructure/reservations.py:369-497 | In every reachable state the total of succeeded orders equals booked item prices plus refunded totals |
| StoreTheorems.TicketsMatchBookings | src/ticketing/workers.py:501-507 | A fulfilled order has a ticket for each item, other orders have none, and no ticket exists without a booking |
| StoreTheorems.DeliveriesSucceed | src/ticketing/workers.py:482-523 | No delivery of an outbox event raises, in any order and number: "OrderPaid has no paid order" is unreachable |
| StoreTheorems.RedeliveryIsNoop | src/ticketing/workers.py:483-489 | A second delivery of an event changes nothing |
| StoreTheorems.CallbackNeverViolates | src/ticketing/infrastructure/reservations.py:405-465 | In reachable states a callback fails only as not found, mismatch or callback mismatch; no constraint is violated |
| StoreTheorems.SuccessIsHonoured | src/ticketing/infrastructure/reservations.py:435-490 | In every reachable state a success that is decided books or refunds; none is left undecided |
| StoreTheorems.RunSince | src/ticketing/infrastructure/reservations.py:331-497 | Over any run prices stay, a seat's version fixes its row, booked seats never change again, statuses only move forward, successes and recorded responses stay |
| StoreTheorems.SettledPaymentIsFinal | src/ticketing/infrastructure/reservations.py:427-436 | After a success, in every later state, any callback of that payment changes no order, seat, refund or event |
| StoreTheorems.LatePaymentTakesNothing | src/ticketing/infrastructure/reservations.py:447-490 | A callback never touches a seat that carries another hold |
| StoreTheorems.KeyAnswersOnce | src/ticketing/infrastructure/reservations.py:24-51 | A recorded hold key, used later on either path, returns the recorded response or fails, and changes nothing |
| StoreTheorems.OrderKeysAnswerOnce | src/ticketing/infrastructure/reservations.py:270-403 | The same for checkout and payment keys |
| StoreTheorems.OneKeyPerHold | src/ticketing/infrastructure/reservations.py:24-51 | Every hold was created under exactly one key |
| HoldHistory.HoldsNeverOverlap | scripts/verify_cloud_holds.py:62-75 | Over every run the hold intervals on one seat, from creation to the earlier of closing and expiry, are pairwise disjoint |
| HoldHistory.PreviousHoldsOver | src/ticketing/infrastructure/reservations.py:87-106 | When a hold takes a seat, every earlier interval on that seat is over |
| SeatCache.SeatMapHash.ComputeVersion | src/ticketing/infrastructure/cache.py:30-44 | The first pass computes the version from the gains of all rows |
| SeatCache.SeatMapHash.EvalPut | src/ticketing/infrastructure/cache.py:26-64 | The script in place equals the PUT function and returns -1 exactly for a refused patch |
| SeatMaps.PutJoins | src/ticketing/infrastructure/cache.py:30-52 | A complete PUT leaves each seat at the larger source version, restores the sum invariant from any state, and stores only contents the seat really had |
| SeatMaps.PutExactly | src/ticketing/infrastructure/cache.py:26-63 | What one write does to every seat, stamp, layout, incarnation and window, and when a patch is refused |
| SeatMaps.NextVersionIsSum | src/ticketing/infrastructure/cache.py:35-43 | The incrementally computed version is the sum of the joined source versions |
| SeatMaps.CutKeeps | src/ticketing/infrastructure/cache.py:45-62 | A PUT that stops after any command between setting and clearing `updating` (among the seats, after the version, the layout, the incarnation or the sale window) leaves a map marked as updating, with no content lost |
| SeatMaps.RepairAfterCut | tests/integration/test_incremental.py:188-202 | From each of these stops patches are refused, and the next full PUT restores every invariant, stamps every seat and loses no newer seat |
| BrowseThreads.InterruptedMapRefuses | src/ticketing/infrastructure/cache.py:27-29 | From each of these stops browsing, patches and intake all refuse and change nothing |
| SeatMapReads.WholeMapIsReadable | src/ticketing/infrastructure/cache.py:45-62 | A map with a version and no write in progress always has its layout and incarnation, so reading and browsing answer in the same states |
| SeatMapReads.PutAllIsMaximum | src/ticketing/infrastructure/cache.py:27-52 | From any state of the key, empty and interrupted included, any sequence of writes leaves each seat at the maximum source version stored or accepted; refused writes leave no trace |
| SeatMapReads.OrderDoesNotMatter | src/ticketing/infrastructure/cache.py:27-52 | From any state of the key, two sequences with the same accepted writes, in any order and multiplicity, end with the same contents and version; on a whole map, or when the first write is full, every write is accepted |
| ProjectionReads.TagsAreSound | src/ticketing/infrastructure/cache.py:65-88 | In every run of store, workers and cache, two reads with one incarnation and version see identical seats, whatever transactions, stale writes, cuts and key losses lie between |
| ProjectionReads.DeltasAreComplete | src/ticketing/api.py:297-302 | In every such run, laying the seats stamped after v over the snapshot read at v gives the current snapshot of the same incarnation |
| SeatMapReads.ETagSound | src/ticketing/infrastructure/cache.py:26-88 | The same tag soundness for arbitrary writes, given that rows take their contents from one history |
| SeatMapReads.DeltaComplete | src/ticketing/infrastructure/cache.py:45-52 | The same delta completeness for arbitrary writes from one history |
| Announcements.StepAnnounces | src/ticketing/infrastructure/reservations.py:345-350 | Every transaction announces each seat whose version it changed |
| Projection.QuietMeansEqual | src/ticketing/workers.py:106-118 | With no announcement and no request open, an existing map shows each row as it is: SOLD exactly if booked, HELD exactly if held and not booked, AVAILABLE exactly if neither, with the row's price, expiry and version, under the sum of the row versions |
| ProjectionProofs.CommitOk | src/ticketing/infrastructure/reservations.py:491-496 | A commit keeps "every trailing seat is announced or requested" for the cache and for all workers in flight |
| ProjectionProofs.DeliverOk | src/ticketing/workers.py:490-494 | A delivery turns announcements into requests without losing a seat |
| ProjectionRuns.MoveOk | src/ticketing/workers.py:235-294 | So does every claim, read, write, cut write, acknowledgement, stale acknowledgement and crash of a worker |
| ProjectionRuns.FreshStarts | src/ticketing/workers.py:91-119 | Every fresh store, for each of its events, is a start of the runs that convergence and reads speak about |
| ProjectionRuns.Convergence | src/ticketing/workers.py:194-294 | In every run each seat the cache trails on is announced or requested; when both queues are empty the map shows each row as it is, as above |
| ProjectionMeta.MapDescribesEvent | src/ticketing/workers.py:91-131 | In every run, with stale workers, cuts and key loss, a whole map's layout is the event's seats at their prices and its window and currency are the event's |
| ProjectionRuns.RefreshMonotone | src/ticketing/workers.py:272-291 | Generations only grow, completion never passes them, and moves only by the acknowledgement of the latest claim |
| RefreshQueue.NothingIsLost | src/ticketing/workers.py:194-206 | Over every run the stored seats, NULL meaning all, cover every request newer than the completed generation |
| RefreshQueue.RequestExactly | src/ticketing/workers.py:194-206 | A request starts or raises the generation by one and replaces or joins the seats; no other row changes |
| RefreshQueue.ClaimExactly | src/ticketing/workers.py:245-291 | A claimed row is nobody else's for 30 seconds; an acknowledged one is completed to the copied generation and rests for the cool-down |
| RefreshQueue.CompletedAfterReading | src/ticketing/workers.py:245-291 | Each request is completed by a worker whose copy covers it and that read the database after it was recorded |
| Tags.ParseExactly | src/ticketing/infrastructure/cache.py:201-201 | The parser finds a star or tag exactly when the list spells it between commas, padded with white space, with or without the weak prefix |
| Tags.ParseAppend | src/ticketing/infrastructure/cache.py:243-246 | Appending the server's tag to any header value adds exactly that one candidate |
| BrowseThreads.AnswersExactly | src/ticketing/infrastructure/cache.py:198-256 | In every run an answer is warming exactly when the map is not readable, 304 exactly when the client's own list spells a star or the current tag, weakly compared, and otherwise 200 with the current tag and every seat's status and expiry as the map holds them |
| BrowseBodies.TagFixesBody | src/ticketing/infrastructure/cache.py:67-88 | Equal tags mean equal representations |
| BrowseBodies.BrowseRefines | src/ticketing/infrastructure/cache.py:236-270 | With any honest cached body the answer is "validate, then encode the current representation" and the assertion does not fire |
| BrowseThreads.EveryAnswerIsReference | src/ticketing/infrastructure/cache.py:236-270 | So is every answer in every interleaving of threads for any events sharing one cache, with writes, cuts, key losses and the cache's own evictions, starting from an empty cache |
| BrowseThreads.CacheStaysBounded | src/ticketing/infrastructure/cache.py:258-267 | In every such run no slot is kept twice and entry count and bytes stay within their limits |
| BrowseBodies.StoredKeeps | src/ticketing/infrastructure/cache.py:259-267 | Storing keeps the limits, adds only the new entry, replaces the slot's old one, and a storable new entry survives the eviction |
| BrowseBodies.WithoutKeepsOrder | src/ticketing/infrastructure/cache.py:242-259 | Taking an entry out leaves the others in their order |
| BrowseBodies.TrimmedKeeps | src/ticketing/infrastructure/cache.py:265-267 | Eviction drops the oldest entries, and no more of them than the limits demand |
| BrowseBodies.BodyCache.Lookup | src/ticketing/infrastructure/cache.py:239-242 | The locked section equals the lookup step of the thread system: the slot's entry exactly if there is one, moved to the end, nothing lost |
| BrowseBodies.BodyCache.Store | src/ticketing/infrastructure/cache.py:258-267 | The locked section equals the store step of the thread system; the byte count stays the sum of entry lengths |
| IntakeScripts.EnqueueExactly | src/ticketing/infrastructure/redis_reservations.py:17-39 | Accepted exactly when the map is whole, the sale open, the key unused, the backlog below its limit and every seat takeable; any other answer changes nothing |
| IntakeScripts.RefusalExactly | src/ticketing/infrastructure/redis_reservations.py:17-39 | Which refusal or replay a request gets, and exactly when; the first bad seat decides between not found and unavailable |
| IntakeScripts.AdmissionExactly | src/ticketing/infrastructure/redis_reservations.py:40-66 | Answer, command hash and stream message of an accepted command carry the demand's own ids, actor, key, seats and expiry, the sale's currency and the sum of the seats' prices |
| IntakeScripts.MarksExactly | src/ticketing/infrastructure/redis_reservations.py:69-106 | Answer codes of both marks and what each changes beside the seats |
| IntakeScripts.OccupiedAt | src/ticketing/infrastructure/redis_reservations.py:47-57 | Exactly the wanted seats change, carry the new hold and expiry, and are stamped above the old version |
| IntakeScripts.VacatedAt | src/ticketing/infrastructure/redis_reservations.py:87-102 | Compensation changes a seat exactly when it is named and still carries the hold |
| IntakeScripts.FailureUndoesAdmission | src/ticketing/infrastructure/redis_reservations.py:79-105 | Compensation right after acceptance gives back every seat at its own price and source version |
| ReservationIntake.RedisReservationIntake.SelectSeats | src/ticketing/infrastructure/redis_reservations.py:30-39 | The first loop reports the first seat that cannot be taken, or the total price |
| ReservationIntake.RedisReservationIntake.Enqueue | src/ticketing/infrastructure/redis_reservations.py:11-67 | The whole hash slot and the answer after ENQUEUE |
| ReservationIntake.RedisReservationIntake.MarkDurable | src/ticketing/infrastructure/redis_reservations.py:69-77 | The slot and return code of MARK_DURABLE |
| ReservationIntake.RedisReservationIntake.MarkFailed | src/ticketing/infrastructure/redis_reservations.py:79-106 | The slot and return code of MARK_FAILED |
| IntakeProofs.PersistedReplays | src/ticketing/infrastructure/reservations.py:138-146 | Once the command row exists every delivery succeeds with the stored response |
| IntakeProofs.SuccessLeavesRow | src/ticketing/infrastructure/reservations.py:148-268 | A delivery succeeds only by leaving the command's row in the store |
| IntakeProofs.MoveOk | src/ticketing/workers.py:54-87 | Every move of the intake system keeps its invariant |
| IntakeTheorems.StatusMeaning | src/ticketing/workers.py:62-86 | In every reachable state DURABLE means a command row, PENDING means the message is still in the stream, FAILED means no expiry entry, and the stream is within the backlog |
| IntakeTheorems.PersistedAsAnswered | src/ticketing/infrastructure/redis_reservations.py:160-178 | In every reachable state a persisted command's order and hold are those of the client's answer, belong together and to its actor, expire as answered and list exactly the answered seats |
| IntakeTheorems.ReplayNamesFirst | src/ticketing/infrastructure/redis_reservations.py:21-25 | A replay answers with the first command of that key: same actor, key and seats |
| IntakeTheorems.StatusIsFinal | src/ticketing/infrastructure/redis_reservations.py:69-106 | Over any run DURABLE and FAILED never change as long as the key lives, and a lapsed key never returns |
| IntakeTheorems.PersistedCanFailExactly | src/ticketing/workers.py:62-85 | A persisted command not shown FAILED can still become FAILED if and only if its hash is PENDING and some writer holds a refusal |
| IntakeTheorems.PersistedNeverFails | src/ticketing/workers.py:62-85 | Without such a refusal it stays that way over every run, whatever is redelivered |
| IntakeWitness.FailedPersistedIsReached | src/ticketing/workers.py:64-82 | A run from an empty system reaches a state where a command is FAILED in Redis and persisted in the store |
| IntakeWitness.PersistedCanFailIsReached | src/ticketing/workers.py:56-82 | A run from an empty system reaches a persisted, PENDING command with a refusal in a writer's hands |
| IntakeTheorems.FailedYetPersisted | src/ticketing/workers.py:64-82 | From every state with a refusal in hand whose command the store would accept later, the four moves that lead to FAILED and persisted |
| IntakeTheorems.ProvisionalExclusive | src/ticketing/infrastructure/redis_reservations.py:30-57 | Between map writes two accepted, unexpired, non-FAILED commands share no seat |
| IntakeTheorems.CompensationFreesOwn | src/ticketing/infrastructure/redis_reservations.py:87-102 | Marking FAILED changes only seats still carrying that command's hold |
| Leases.AckIsFenced | src/ticketing/workers.py:140-184 | Over every interleaving an acknowledgement takes effect only if its claim is the latest on the row, once per claim, on an unfinished row; a stale one changes no row |
| Leases.TakeLeases | src/ticketing/workers.py:148-152 | A claim puts its token and lease end on exactly the claimed rows |
| Leases.LeaseExcludes | src/ticketing/workers.py:140-152 | From a claim until its lease is over or the claim settles the row, no run lets anybody else claim it |
| Leases.CompletionsAreConfirmed | src/ticketing/workers.py:153-187 | Completions never exceed the target, come from different claims, and behind each the outside effect happened: an event is published at most once, and only if the broker has it |
| Leases.SendAll | src/ticketing/workers.py:153-177 | The loops collect what a publisher then acknowledges, and report an error exactly when a send or confirmation failed |
| Leases.ConfirmedExactly | src/ticketing/workers.py:155-177 | Collected are exactly the rows sent before deadline and first error whose future resolved |
| Reconciler.DelayBounds | src/ticketing/workers.py:405-417 | The delay is base * 2^min(failures, 5), starts at the base, never shrinks with more failures, and is at most 32 times the base |
| Reconciler.FinishedExactly | src/ticketing/workers.py:393-417 | A success resets the failures and sets the next due time; a deferral counts one more and waits by the failures before it; a stale token changes nothing |
| Reconciler.BackoffSequence | src/ticketing/workers.py:405-417 | The n-th failure in a row waits base * 2^min(n - 1, 5) |
| Reconciler.LeaseExactly | src/ticketing/workers.py:369-390 | A claimed event is claimable again exactly when its lease is over, a returned one at once |
| Reconciler.FrontIsClaimed | src/ticketing/workers.py:369-378 | Once fewer events than a batch are ahead of a waiting due event, the next claim takes it |
| Reconciler.WaitShrinks | src/ticketing/workers.py:364-417 | While a due event waits, the number of events ahead falls by exactly one with each completion or deferral of such an event and changes by nothing else |
| Reconciler.FinishedClaimLowersWait | src/ticketing/workers.py:364-417 | Every claim that passes over a waiting due event strictly lowers that number when any of its events finishes, after any interleaving |
| Reconciler.ReconciliationTable.ClaimDue | src/ticketing/workers.py:364-390 | The selected events are leased and the abandoned leases among them counted |
| Reconciler.ReconciliationTable.CompleteReconciliation | src/ticketing/workers.py:393-402 | Takes effect, and says so, exactly when the token still holds the event |
| Reconciler.ReconciliationTable.DeferReconciliation | src/ticketing/workers.py:405-417 | Backs off one event, or nothing for a stale token |
| Reconciler.ReconciliationTable.ReconcileClaimed | src/ticketing/workers.py:421-462 | Every claimed event still held is processed or has its lease handed back at the deadline; an event claimed by another worker or gone from the schedule is untouched; a failure stops no other event |

## Left out

- Load generators, observers, documentation, HTTP routes, command line, configuration, connection admission, JWT and HMAC checks: plumbing around the protocol.
- Metrics, logging and connection pooling: a transaction is one atomic step.
- Lock waits and NOWAIT failures: such a transaction is no step at all.
- Rate limiting, shield keys and TTL refresh: advisory; the store's results hold without them.
- Replica acknowledgement (WAIT), stream discovery and consumer-group bookkeeping: any message still in the stream may be delivered to any writer at any time.
- The application wrapper's check of seat id lengths: it only refuses requests earlier.
- `get_order`, `get_hold` and the intake status query: plain reads.
- `maintain_schedule` and `reconcile_pass`: seeding and pruning of the schedule, and the outer time budget, are not modelled; the in-window set is an argument.
- JSON, SHA-256 and Kafka: abstract injective rendering, identity digests, and an at-least-once, reordering message set.
- Convergence and deltas across the loss of the seat-map key: the system does not promise them. Tags remain sound across a loss.
- Tags, deltas and sums once intake scripts write the same map: they bump the version without a source version, so those results are for the default mode.
- The ordering column `requested_at` of refresh requests and the batch limits of the refresh and publish queries: safety does not depend on the order in which rows are claimed.
- `refresh_batch`, `persist_reservation_batch` and `simulate_one` are modelled as moves of a state machine on values, so that their steps interleave with everything else, not as methods.
- The display text of an expiry kept beside its epoch in the seat map.
- ReservationStore.PostgresReservations.ExpireBatch: the selected rows are an argument constrained to be what the query returns, because row selection is the database's.
- Reconciler.ReconciliationTable.ReconcileClaimed: no other worker acts inside one call; interleavings are covered by Leases.AckIsFenced and Reconciler.FinishedClaimLowersWait.
- Leases.CompletionsAreConfirmed: that a producer future resolves, and a call returns, only if the effect happened is assumed of Kafka, HTTP and Redis.
- Leases.AckIsFenced: each row's own eligibility (due times, generations) is replaced by "any eligible row may be claimed", which allows more runs than the code does.
- StoreTheorems.TicketsMatchBookings: ticket and booking uuids are not modelled; a ticket is identified by its booked seat.
