// What the invariant means over whole runs of the durable store.
module StoreTheorems {
  import opened Domain
  import opened Sums
  import opened Commerce
  import opened Forward
  import opened Ledger
  import opened Transactions
  import opened Records
  import opened Runs

  // ---------- every reachable state ----------

  // A database some run reaches from an unsold inventory.
  ghost predicate Reachable(db: Db, now: Time) {
    exists start: Db, t0: Time, run: seq<Tick> ::
      Fresh(start) && Legal(start, t0, run) && db == Exec(start, t0, run) && now == Clock(t0, run)
  }

  // A store that just received its inventory: any events, any seats at any prices.
  function OpenInventory(events: map<Uuid, EventRow>, prices: map<SeatKey, nat>): Db {
    Db(Store(events, map k | k in prices :: SeatRow(prices[k], None, None, None, 0),
             map[], map[], map[], map[], map[], map[], map[], {}, map[]),
       map[], map[], map[], [], {}, map[])
  }

  // Every inventory is a start of runs.
  lemma InventoryIsReachable(events: map<Uuid, EventRow>, prices: map<SeatKey, nat>, now: Time)
    ensures Reachable(OpenInventory(events, prices), now)
  {
    var db := OpenInventory(events, prices);
    assert Fresh(db);
    var run: seq<Tick> := [];
    assert Legal(db, now, run) && Exec(db, now, run) == db && Clock(now, run) == now;
  }

  lemma ReachableOk(db: Db, now: Time)
    requires Reachable(db, now)
    ensures DbOk(db, now)
  {
    hide DbOk, Fresh, Legal, Exec, Clock;
    var start: Db, t0: Time, run: seq<Tick> :|
      Fresh(start) && Legal(start, t0, run) && db == Exec(start, t0, run) && now == Clock(t0, run);
    FreshOk(start, t0);
    RunOk(start, t0, run);
  }

  // A seat is never both held and booked, and a hold reference names a pending order that lists the seat.
  lemma SeatOwnership(db: Db, now: Time, k: SeatKey)
    requires Reachable(db, now) && k in db.store.seats
    ensures var st := db.store; var r := st.seats[k];
      && !(r.holdId.Some? && r.bookedOrder.Some?)
      && (r.bookedOrder.Some? <==> k in st.bookings)
      && (r.bookedOrder.Some? ==>
            var o := r.bookedOrder.value;
            o in st.orders && IsPaid(st.orders[o].status) && o in st.items && k in st.items[o])
      && (r.holdId.Some? ==>
            var h := r.holdId.value;
            && h in st.holds && st.holds[h].status.ACTIVE? && r.reservedUntil == Some(st.holds[h].expiresAt)
            && exists o :: o in st.orders && st.orders[o].holdId == h && st.orders[o].status.Pending? &&
                o in st.items && k in st.items[o])
  {
    hide Reachable, Priced, Charged, Ticketed, Current, Balanced, Recorded, EventsOk, OrdersKnown;
    ReachableOk(db, now);
    var st := db.store;
    assert SeatOk(st, k);
    if st.seats[k].holdId.Some? {
      var h := st.seats[k].holdId.value;
      assert HoldOk(st, h);
      assert OrderOk(st, st.orderByHold[h]);
    }
    if k in st.bookings {
      assert BookingOk(st, k);
    }
  }

  // Two live holds never list the same seat, whichever path created them.
  lemma LiveHoldsDisjoint(db: Db, now: Time, a: Uuid, b: Uuid, k: SeatKey)
    requires Reachable(db, now) && a in db.store.orders && b in db.store.orders && a != b
    requires a in db.store.items && b in db.store.items && k in db.store.items[a] && k in db.store.items[b]
    requires var st := db.store; forall o :: o in {a, b} ==>
      st.orders[o].holdId in st.holds && st.holds[st.orders[o].holdId].status.ACTIVE?
    ensures var st := db.store;
      st.holds[st.orders[a].holdId].expiresAt <= now || st.holds[st.orders[b].holdId].expiresAt <= now
  {
    hide Reachable, Owned, Priced, Charged, Ticketed, Balanced, Recorded, EventsOk, OrdersKnown;
    ReachableOk(db, now);
    var st := db.store;
    assert OrderOk(st, a) && OrderOk(st, b);
    assert st.holds[st.orders[a].holdId].expiresAt > now ==> st.seats[k].holdId == Some(st.orders[a].holdId);
    assert st.holds[st.orders[b].holdId].expiresAt > now ==> st.seats[k].holdId == Some(st.orders[b].holdId);
  }

  // A hold is ACTIVE exactly while its order is PENDING, and CONSUMED exactly when it was paid.
  lemma OrderHoldLockstep(db: Db, now: Time, o: Uuid)
    requires Reachable(db, now) && o in db.store.orders
    ensures var st := db.store; var h := st.orders[o].holdId;
      && h in st.holds
      && (st.holds[h].status.ACTIVE? <==> st.orders[o].status.Pending?)
      && (st.holds[h].status.CONSUMED? <==> IsPaid(st.orders[o].status))
  {
    hide Reachable, Owned, Priced, Charged, Ticketed, Current, Balanced, Recorded, EventsOk, OrdersKnown;
    ReachableOk(db, now);
    assert OrderOk(db.store, o);
  }

  // Every success has exactly one of: a booking for each order item, one refund request.
  lemma PaymentHonoured(db: Db, now: Time, p: Uuid)
    requires Reachable(db, now) && p in db.store.payments && db.store.payments[p].status.Succeeded?
    ensures var st := db.store; var o := st.payments[p].order;
      && o in st.orders && o in st.items
      && (p in st.refunds ==> st.refunds[p].order == o && BookedBy(st.bookings, o) == {})
      && (p !in st.refunds ==> BookedBy(st.bookings, o) == st.items[o].Keys)
  {
    hide Reachable, Priced, Ticketed, Current, Balanced, Recorded, EventsOk, OrdersKnown;
    ReachableOk(db, now);
    var st := db.store;
    assert PaymentOk(st, p);
    var o := st.payments[p].order;
    assert OrderOk(st, o);
    if p in st.refunds {
      assert RefundOk(st, p);
    }
    forall k | k in BookedBy(st.bookings, o)
      ensures k in st.items[o] && IsPaid(st.orders[o].status)
    {
      assert BookingOk(st, k);
    }
  }

  // The sum of successful order totals is the sum of booked item prices plus the sum refunded.
  lemma MoneyConserved(db: Db, now: Time)
    requires Reachable(db, now)
    ensures MapSum(Received(db.store.payments, db.store.orders)) ==
            MapSum(Delivered(db.store.bookings, db.store.items)) + MapSum(Returned(db.store.refunds, db.store.orders))
  {
    hide Reachable, Owned, Lockstep, Priced, Charged, Ticketed, Current, Recorded, EventsOk, OrdersKnown, MapSum;
    ReachableOk(db, now);
  }

  // A fulfilled order has a ticket for each item and no ticket exists without a booking.
  lemma TicketsMatchBookings(db: Db, now: Time, o: Uuid)
    requires Reachable(db, now) && o in db.store.orders
    ensures var st := db.store;
      && st.tickets <= st.bookings.Keys
      && o in st.items
      && (st.orders[o].status.Fulfilled? ==> st.items[o].Keys <= st.tickets)
      && (!st.orders[o].status.Fulfilled? ==> forall k :: k in st.tickets ==> st.bookings[k] != o)
  {
    hide Reachable, Owned, Priced, Charged, Current, Balanced, Recorded, EventsOk, OrdersKnown;
    ReachableOk(db, now);
    assert OrderOk(db.store, o);
  }

  // No delivery of an outbox event, first or repeated, in or out of order, ever raises.
  lemma DeliveriesSucceed(db: Db, now: Time, id: nat)
    requires Reachable(db, now) && id < |db.outbox|
    ensures Consume(db, Envelope(id, 1, db.outbox[id]), now).out.Ok?
  {
    hide Reachable, DbOk;
    ReachableOk(db, now);
    ConsumeOk(db, id, now);
  }

  // A repeated delivery changes nothing at all.
  lemma RedeliveryIsNoop(db: Db, id: nat, now: Time, later: Time)
    requires id < |db.outbox| && Consume(db, Envelope(id, 1, db.outbox[id]), now).out.Ok?
    ensures var db' := Consume(db, Envelope(id, 1, db.outbox[id]), now).db;
      && id < |db'.outbox| && db'.outbox[id] == db.outbox[id]
      && Consume(db', Envelope(id, 1, db'.outbox[id]), later).db == db'
  {
  }

  // The unique-booking constraint and the foreign keys are never hit by a callback.
  lemma CallbackNeverViolates(db: Db, now: Time, c: Callback)
    requires Reachable(db, now)
    ensures var out := PaymentCallback(db, c, now).out;
      out.Err? ==> out.code in {PaymentNotFound, PaymentMismatch, CallbackMismatch}
  {
    hide Reachable, Books, Recorded, EventsOk, OrdersKnown, Settle;
    ReachableOk(db, now);
    if c.payment in db.store.payments {
      PaymentsAreLinked(db.store, now, c.payment);
      if !db.store.payments[c.payment].status.Succeeded? {
        SettleGood(db, c, now);
      }
    }
  }

  // No success is lost: a callback that is decided on a success books or refunds. The decision that
  // leaves a paid order alone is never taken for a success, because an order has one payment.
  lemma SuccessIsHonoured(db: Db, now: Time, c: Callback)
    requires Reachable(db, now) && c.outcome.OutcomeSucceeded?
    ensures var out := PaymentCallback(db, c, now).out;
      out.Ok? && out.value.Decided? ==> out.value.decision.Book? || out.value.decision.Refund?
  {
    hide Reachable, Books, Recorded, EventsOk, OrdersKnown, Decide, ValidHold, NoteOutcome;
    ReachableOk(db, now);
    if c.payment in db.store.payments && !db.store.payments[c.payment].status.Succeeded? {
      PaymentsAreLinked(db.store, now, c.payment);
      UndecidedPayment(db.store, now, c.payment);
    }
  }

  lemma PaymentsAreLinked(st: Store, now: Time, p: Uuid)
    requires Books(st, now) && p in st.payments
    ensures Linked(st, p)
  {
    assert PaymentOk(st, p);
    assert OrderOk(st, st.payments[p].order);
  }

  // ---------- what a run never takes back ----------

  ghost predicate Since(st: Store, st': Store) {
    && st'.seats.Keys == st.seats.Keys
    && (forall k :: k in st.seats ==>
          && st'.seats[k].price == st.seats[k].price && st.seats[k].version <= st'.seats[k].version
          && (st.seats[k].version == st'.seats[k].version || st.seats[k].bookedOrder.Some? ==>
                st'.seats[k] == st.seats[k]))
    && (forall k :: k in st.bookings ==> k in st'.bookings && st'.bookings[k] == st.bookings[k])
    && (forall o :: o in st.orders ==>
          o in st'.orders && SameOrder(st.orders[o], st'.orders[o]) && Leads(st.orders[o].status, st'.orders[o].status))
    && (forall p :: p in st.payments && st.payments[p].status.Succeeded? ==>
          p in st'.payments && st'.payments[p].status.Succeeded?)
  }

  ghost predicate RecordsKept(a: map<IdemKey, IdemRow>, b: map<IdemKey, IdemRow>) {
    forall key :: key in a ==> key in b && b[key] == a[key]
  }

  lemma SinceStays(st: Store)
    ensures Since(st, st)
  {
  }

  lemma SinceExtends(st: Store, mid: Store, st': Store)
    requires Advance(st, mid) && Since(mid, st')
    ensures Since(st, st')
  {
    hide MoneyStep;
    assert MoneyStep(st, mid);
    SinceSeats(st, mid, st');
    SinceMoney(st, mid, st');
    forall o | o in st.orders
      ensures o in st'.orders && SameOrder(st.orders[o], st'.orders[o]) &&
        Leads(st.orders[o].status, st'.orders[o].status)
    {
      LeadsSteps(st.orders[o].status, mid.orders[o].status, st'.orders[o].status);
    }
  }

  lemma SinceSeats(st: Store, mid: Store, st': Store)
    requires SeatsStep(st, mid) && Since(mid, st')
    ensures st'.seats.Keys == st.seats.Keys
    ensures forall k :: k in st.seats ==>
          && st'.seats[k].price == st.seats[k].price && st.seats[k].version <= st'.seats[k].version
          && (st.seats[k].version == st'.seats[k].version || st.seats[k].bookedOrder.Some? ==>
                st'.seats[k] == st.seats[k])
    ensures forall k :: k in st.bookings ==> k in st'.bookings && st'.bookings[k] == st.bookings[k]
  {
  }

  lemma SinceMoney(st: Store, mid: Store, st': Store)
    requires MoneyStep(st, mid) && Since(mid, st')
    ensures forall p :: p in st.payments && st.payments[p].status.Succeeded? ==>
      p in st'.payments && st'.payments[p].status.Succeeded?
  {
  }

  // A committed idempotency record is never rewritten.
  lemma HoldStepKeepsRecords(db: Db, now: Time, s: Step)
    requires Recorded(db) && Enabled(db, now, s) && (s.DoReserve? || s.DoPersist?)
    ensures RecordsKept(db.idem, Apply(db, now, s).idem)
  {
    hide Recorded, CheckSale, CreateHold;
    match s {
      case DoReserve(actor, event, seatIds, key, holdSeconds, hold, order) =>
        var ik := IdemKey(actor, HoldOp, key);
        if CheckReserve(db, ik, event, seatIds, now) == Ok(None) {
          GoAheadIsFresh(db, ik, HoldRequest(event, set s | s in seatIds));
        }
      case DoPersist(c) =>
        if CheckPersist(db, c, now) == Ok(None) {
          GoAheadIsFresh(db, IdemKey(c.actor, HoldOp, c.key), HoldRequest(c.event, c.seats));
        }
    }
  }

  lemma OrderStepKeepsRecords(db: Db, now: Time, s: Step)
    requires Recorded(db) && Enabled(db, now, s) && (s.DoCheckout? || s.DoPay?)
    ensures RecordsKept(db.idem, Apply(db, now, s).idem)
  {
    hide Recorded, Checkout, InitiatePayment;
    match s {
      case DoCheckout(actor, hold, key) => CheckoutKeepsRecords(db, actor, hold, key, now);
      case DoPay(actor, order, key, outcome, delay, duplicates, payment) =>
        PayKeepsRecords(db, actor, order, key, outcome, delay, duplicates, now, payment);
    }
  }

  lemma CheckoutKeepsRecords(db: Db, actor: Actor, hold: Uuid, key: string, now: Time)
    requires Recorded(db)
    ensures RecordsKept(db.idem, Checkout(db, actor, hold, key, now).db.idem)
  {
    hide Recorded;
    if Idem(db.idem, IdemKey(actor, OrderOp, key), OrderRequest(hold)).1 == Ok(None) {
      GoAheadIsFresh(db, IdemKey(actor, OrderOp, key), OrderRequest(hold));
    }
  }

  lemma PayKeepsRecords(db: Db, actor: Actor, order: Uuid, key: string, outcome: PaymentOutcome, delay: nat,
                        duplicates: nat, now: Time, payment: Uuid)
    requires Recorded(db)
    ensures var db' := InitiatePayment(db, actor, order, key, outcome, delay, duplicates, now, payment).db;
      RecordsKept(db.idem, db'.idem)
  {
    hide Recorded, OpenPayment;
    var request := PaymentRequest(order, outcome, delay, duplicates);
    if Idem(db.idem, IdemKey(actor, PaymentOp, key), request).1 == Ok(None) {
      GoAheadIsFresh(db, IdemKey(actor, PaymentOp, key), request);
    }
  }

  lemma StepKeepsRecords(db: Db, now: Time, s: Step)
    requires DbOk(db, now) && Enabled(db, now, s)
    ensures RecordsKept(db.idem, Apply(db, now, s).idem)
  {
    hide Books, EventsOk, OrdersKnown, Recorded, Commerce.Release, PaymentCallback, Reserve, Persist, Checkout,
      InitiatePayment;
    match s {
      case DoReserve(_, _, _, _, _, _, _) => HoldStepKeepsRecords(db, now, s);
      case DoPersist(_) => HoldStepKeepsRecords(db, now, s);
      case DoCheckout(_, _, _) => OrderStepKeepsRecords(db, now, s);
      case DoPay(_, _, _, _, _, _, _) => OrderStepKeepsRecords(db, now, s);
      case DoExpire(limit, locked, batch) => ExpireOk(db, now, batch);
      case DoCallback(c) => CallbackKeepsRecords(db, c, now);
      case DoRelease(_, _) =>
      case DoConsume(_) =>
    }
  }

  lemma CallbackKeepsRecords(db: Db, c: Callback, now: Time)
    ensures PaymentCallback(db, c, now).db.idem == db.idem
  {
    hide Decide, ValidHold, PaymentDecision;
    if Linked(db.store, c.payment) {
      var o := db.store.payments[c.payment].order;
      DecideFrame(NoteOutcome(db, c), c.payment, o,
        PaymentDecision(db.store.orders[o].status, ValidHold(db.store, o, now), c.outcome));
    }
  }

  // Over any run: prices are fixed, versions only grow and determine their row, sold seats stay sold,
  // statuses only move forward, successes stay successes, and recorded responses are never rewritten.
  lemma {:induction false} RunSince(db: Db, now: Time, run: seq<Tick>)
    requires DbOk(db, now) && Legal(db, now, run)
    ensures Since(db.store, Exec(db, now, run).store)
    ensures RecordsKept(db.idem, Exec(db, now, run).idem)
    decreases |run|
  {
    hide DbOk, Enabled, Apply, Since, SeatsStep, OrdersStep, MoneyStep;
    if run == [] {
      SinceStays(db.store);
    } else {
      var t := run[0];
      DbOkLater(db, now, t.now);
      StepOk(db, t.now, t.step);
      StepKeepsRecords(db, t.now, t.step);
      var db1 := Apply(db, t.now, t.step);
      RunSince(db1, t.now, run[1..]);
      SinceExtends(db.store, db1.store, Exec(db, now, run).store);
    }
  }

  // ---------- idempotency ----------

  // Once a hold is recorded under a key, every later use of that key, on either path and after any run,
  // returns the recorded response or fails, and changes nothing.
  lemma KeyAnswersOnce(db: Db, now: Time, run: seq<Tick>, ik: IdemKey, event: Uuid, seatIds: seq<SeatId>,
                       at: Time, holdSeconds: int, hold: Uuid, order: Uuid, c: Command)
    requires DbOk(db, now) && Legal(db, now, run)
    requires ik in db.idem && ik.op.HoldOp? && c.actor == ik.actor && c.key == ik.key
    ensures var later := Exec(db, now, run);
      var sync := Reserve(later, ik.actor, event, seatIds, ik.key, at, holdSeconds, hold, order);
      var async := Persist(later, c, at);
      && sync.db == later && (sync.out.Ok? ==> Some(sync.out.value) == db.idem[ik].response)
      && async.db == later &&
          (async.out.Ok? && c.id !in later.commands ==> Some(async.out.value) == db.idem[ik].response)
  {
    hide Books, EventsOk, OrdersKnown, Since, Exec, Legal, AllCommandsOk, OneEffect;
    var later := Exec(db, now, run);
    RunSince(db, now, run);
    assert RecordOk(db.store, ik, db.idem[ik]);
    assert later.idem[ik].response.Some?;
  }

  // The same for checkout and payment keys.
  lemma OrderKeysAnswerOnce(db: Db, now: Time, run: seq<Tick>, ik: IdemKey, hold: Uuid, order: Uuid,
                            outcome: PaymentOutcome,
                            delay: nat, duplicates: nat, at: Time, payment: Uuid)
    requires DbOk(db, now) && Legal(db, now, run) && ik in db.idem
    ensures var later := Exec(db, now, run);
      && (ik.op.OrderOp? ==>
            var tx := Checkout(later, ik.actor, hold, ik.key, at);
            tx.db == later && (tx.out.Ok? ==> Some(tx.out.value) == db.idem[ik].response))
      && (ik.op.PaymentOp? ==>
            var tx := InitiatePayment(later, ik.actor, order, ik.key, outcome, delay, duplicates, at, payment);
            tx.db == later && (tx.out.Ok? ==> Some(tx.out.value) == db.idem[ik].response))
  {
    hide Books, EventsOk, OrdersKnown, Since, Exec, Legal, AllCommandsOk, OneEffect;
    var later := Exec(db, now, run);
    RunSince(db, now, run);
    assert RecordOk(db.store, ik, db.idem[ik]);
    assert later.idem[ik].response.Some?;
  }

  // Rollback as the model assumes it: an aborted attempt leaves no trace, its idempotency record included.
  lemma FailureLeavesNoTrace(db: Db, now: Time, actor: Actor, event: Uuid, seatIds: seq<SeatId>, key: string,
                             holdSeconds: int, hold: Uuid, order: Uuid, c: Command)
    ensures var tx := Reserve(db, actor, event, seatIds, key, now, holdSeconds, hold, order); tx.out.Err? ==>
      tx.db == db
    ensures var tx := Persist(db, c, now); tx.out.Err? ==> tx.db == db
  {
    hide CommitHold, ReserveRecord, PersistRecord;
  }

  // Each hold in the table was created under exactly one key.
  lemma OneKeyPerHold(db: Db, now: Time, h: Uuid)
    requires Reachable(db, now) && h in db.store.holds
    ensures exists key :: RecordsHold(db.idem, key, h) && forall other :: RecordsHold(db.idem, other, h) ==>
      other == key
  {
    hide Reachable, Books, EventsOk, OrdersKnown, AllRecordsOk, AllCommandsOk, RecordsHold;
    ReachableOk(db, now);
    var key :| RecordsHold(db.idem, key, h);
    assert forall other :: RecordsHold(db.idem, other, h) ==> other == key;
  }

  // ---------- late callbacks ----------

  lemma DecideMovesOwnSeats(db: Db, p: Uuid, o: Uuid, d: Decision, k: SeatKey)
    requires o in db.store.orders && o in db.store.items && db.store.orders[o].holdId in db.store.holds
    requires k in db.store.seats && db.store.seats[k].holdId != Some(db.store.orders[o].holdId)
    ensures var st' := Decide(db, p, o, d).store; k in st'.seats && st'.seats[k] == db.store.seats[k]
  {
  }

  // A callback moves only seats that still carry its own order's hold: a newer holder is untouched.
  lemma LatePaymentTakesNothing(db: Db, now: Time, c: Callback, k: SeatKey)
    requires c.payment in db.store.payments && k in db.store.seats
    requires var o := db.store.payments[c.payment].order;
      o in db.store.orders ==> db.store.seats[k].holdId != Some(db.store.orders[o].holdId)
    ensures var st' := PaymentCallback(db, c, now).db.store; k in st'.seats && st'.seats[k] == db.store.seats[k]
  {
    hide Decide, ValidHold, PaymentDecision;
    if Linked(db.store, c.payment) {
      var o := db.store.payments[c.payment].order;
      var d := PaymentDecision(db.store.orders[o].status, ValidHold(db.store, o, now), c.outcome);
      DecideMovesOwnSeats(NoteOutcome(db, c), c.payment, o, d, k);
    }
  }

  // After a success, in any later state, every callback of that payment is an error or a duplicate:
  // no order, seat, booking, refund or event changes.
  lemma SettledPaymentIsFinal(db: Db, now: Time, run: seq<Tick>, c: Callback, at: Time)
    requires DbOk(db, now) && Legal(db, now, run)
    requires c.payment in db.store.payments && db.store.payments[c.payment].status.Succeeded?
    ensures var later := Exec(db, now, run); var tx := PaymentCallback(later, c, at);
      && tx.db.store == later.store && tx.db.outbox == later.outbox
      && (tx.out.Err? || tx.out.value.Duplicate?)
  {
    hide DbOk, Exec, Legal, Settle;
    RunSince(db, now, run);
  }
}
