// Runs of the durable store: any interleaving of transactions under a clock that never goes back,
// and the invariant that holds in every state of every run.
module Runs {
  import opened Domain
  import opened Sums
  import opened Commerce
  import opened CommerceProofs
  import opened Forward
  import opened Ledger
  import opened Transactions
  import opened Records

  // One committed or aborted transaction. Fresh uuids are arguments.
  datatype Step =
    | DoReserve(actor: Actor, event: Uuid, seatIds: seq<SeatId>, key: string, holdSeconds: int, hold: Uuid, order: Uuid)
    | DoPersist(command: Command)
    | DoCheckout(actor: Actor, hold: Uuid, key: string)
    | DoRelease(actor: Actor, hold: Uuid)
    | DoExpire(limit: nat, locked: set<Uuid>, batch: seq<Uuid>)
    | DoPay(actor: Actor, order: Uuid, key: string, outcome: PaymentOutcome, delay: nat, duplicates: nat, payment: Uuid)
    | DoCallback(callback: Callback)
    | DoConsume(id: nat)                 // any delivery, in any order and any number of times, of an outbox event

  ghost predicate Enabled(db: Db, now: Time, s: Step) {
    match s
    case DoReserve(_, _, _, _, _, hold, order) => hold !in db.store.holds && order !in db.store.orders
    case DoExpire(limit, locked, batch) => 1 <= limit <= 100 && IsDueBatch(db.store, now, limit, locked, batch)
    case DoPay(_, _, _, _, _, _, payment) => payment !in db.store.payments
    case DoConsume(id) => id < |db.outbox|
    case _ => true
  }

  ghost function Apply(db: Db, now: Time, s: Step): Db
    requires Enabled(db, now, s)
  {
    match s
    case DoReserve(actor, event, seatIds, key, holdSeconds, hold, order) =>
      Reserve(db, actor, event, seatIds, key, now, holdSeconds, hold, order).db
    case DoPersist(c) => Persist(db, c, now).db
    case DoCheckout(actor, hold, key) => Checkout(db, actor, hold, key, now).db
    case DoRelease(actor, hold) => ReleaseHold(db, actor, hold).db
    case DoExpire(limit, locked, batch) => ExpireAll(db, batch)
    case DoPay(actor, order, key, outcome, delay, duplicates, payment) =>
      InitiatePayment(db, actor, order, key, outcome, delay, duplicates, now, payment).db
    case DoCallback(c) => PaymentCallback(db, c, now).db
    case DoConsume(id) => Consume(db, Envelope(id, 1, db.outbox[id]), now).db
  }

  // ---------- the store part of every step ----------

  ghost predicate Books(st: Store, now: Time) { Sound(st, now) && Balanced(st) }

  // A good move: the books stay in order and nothing is taken back.
  ghost predicate Good(st: Store, st': Store, now: Time) { Books(st', now) && Advance(st, st') }

  lemma CommitHoldGood(db: Db, n: NewHold)
    requires Books(db.store, n.now)
    requires CanHold(db.store, n.hold, n.row, n.order, n.now, Keys(n.row.event, n.seats))
    requires n.total == MapSum(Prices(db.store.seats, Keys(n.row.event, n.seats)))
    ensures Good(db.store, CommitHold(db, n).store, n.now)
  {
    hide Owned, Lockstep, Priced, Charged, Ticketed, Current, Balanced, SeatsStep, OrdersStep, MoneyStep;
    var st := db.store;
    var keys := Keys(n.row.event, n.seats);
    var st' := CreateHold(st, n.hold, n.row, n.order, n.total, n.currency, n.now, keys);
    CreateHoldSound(st, n.hold, n.row, n.order, n.total, n.currency, n.now, keys);
    CreateHoldAdvances(st, n.hold, n.row, n.order, n.total, n.currency, n.now, keys);
    UndecidedWriteBalances(st, st');
  }

  lemma StayGood(st: Store, now: Time)
    requires Books(st, now)
    ensures Good(st, st, now)
  {
    StayAdvances(st);
  }

  // A hold id that is not in the table names no seat, so the command path's extra allowance is never used.
  lemma FreeForIsFree(st: Store, now: Time, keys: set<SeatKey>, hold: Uuid)
    requires Owned(st) && hold !in st.holds && AllFreeFor(st.seats, keys, now, hold)
    ensures AllFree(st.seats, keys, now)
  {
    forall k | k in keys
      ensures Free(st.seats[k], now)
    {
      assert SeatOk(st, k);
    }
  }

  lemma ReleaseGood(st: Store, now: Time, o: Uuid, state: HoldStatus)
    requires Books(st, now) && o in st.orders && Closing(state)
    ensures Good(st, Release(st, o, state), now)
  {
    hide Owned, Lockstep, Priced, Charged, Ticketed, Current, Balanced, SeatsStep, OrdersStep, MoneyStep;
    ReleaseSound(st, now, o, state);
    ReleaseAdvances(st, o, state);
    UndecidedWriteBalances(st, Release(st, o, state));
  }

  lemma OpenPaymentGood(st: Store, now: Time, p: Uuid, row: PaymentRow)
    requires Books(st, now) && p !in st.payments && row.order in st.orders && row.order !in st.paymentByOrder
    requires row.status.Awaiting? && st.orders[row.order].status.Pending?
    ensures Good(st, OpenPayment(st, p, row), now)
  {
    hide Owned, Lockstep, Priced, Charged, Ticketed, Current, Balanced, SeatsStep, OrdersStep, MoneyStep;
    OpenPaymentSound(st, now, p, row);
    OpenPaymentAdvances(st, p, row);
    UndecidedWriteBalances(st, OpenPayment(st, p, row));
  }

  lemma InitiatePaymentGood(db: Db, actor: Actor, order: Uuid, key: string, outcome: PaymentOutcome, delay: nat,
                            duplicates: nat, now: Time, payment: Uuid)
    requires Books(db.store, now) && payment !in db.store.payments
    ensures var db' := InitiatePayment(db, actor, order, key, outcome, delay, duplicates, now, payment).db;
      Good(db.store, db'.store, now)
  {
    hide Books, Good;
    StayGood(db.store, now);
    if InitiatePayment(db, actor, order, key, outcome, delay, duplicates, now, payment).db.store != db.store {
      OpenPaymentGood(db.store, now, payment, PaymentRow(order, Awaiting, outcome, now + delay, duplicates));
    }
  }

  // The checks `callback` makes are exactly what booking needs.
  lemma ValidHoldBookable(st: Store, o: Uuid, now: Time)
    requires o in st.orders && OrderOk(st, o) && ItemsOk(st, o) && st.orders[o].status.Pending? && ValidHold(st, o, now)
    ensures Bookable(st, o)
  {
  }

  // The unique-booking constraint is never hit.
  lemma NoDoubleBooking(st: Store, o: Uuid, now: Time)
    requires Owned(st) && o in st.orders && OrderOk(st, o) && ItemsOk(st, o)
    requires st.orders[o].status.Pending? && ValidHold(st, o, now)
    ensures !DoubleBooking(st, o)
  {
    ValidHoldBookable(st, o, now);
    BookedSeatsUnsold(st, o);
  }

  // What a payment that has not succeeded knows about its order.
  lemma UndecidedPayment(st: Store, now: Time, p: Uuid)
    requires Books(st, now) && Linked(st, p) && !st.payments[p].status.Succeeded?
    ensures var o := st.payments[p].order; Undecided(st, p, o) && OrderOk(st, o) && ItemsOk(st, o)
  {
    assert PaymentOk(st, p);
    assert OrderOk(st, st.payments[p].order) && ItemsOk(st, st.payments[p].order);
  }

  lemma SettleGood(db: Db, c: Callback, now: Time)
    requires Books(db.store, now) && Linked(db.store, c.payment) && !db.store.payments[c.payment].status.Succeeded?
    ensures Good(db.store, Settle(db, c, now).db.store, now)
    ensures Settle(db, c, now).out.Ok?
  {
    hide Good, Owned, Lockstep, Priced, Charged, Ticketed, Current, Balanced, OrderOk, ItemsOk;
    var st := db.store;
    var p := c.payment;
    var o := st.payments[p].order;
    UndecidedPayment(st, now, p);
    var d := PaymentDecision(st.orders[o].status, ValidHold(st, o, now), c.outcome);
    match d {
      case Book =>
        NoDoubleBooking(st, o, now);
        ValidHoldBookable(st, o, now);
        BookGood(st, now, p, o);
      case Refund => RefundGood(st, now, p, o);
      case Fail => FailGood(st, now, p, o);
      case Unchanged => DeclineGood(st, now, p, o);
    }
  }

  lemma BookGood(st: Store, now: Time, p: Uuid, o: Uuid)
    requires Books(st, now) && Undecided(st, p, o) && Bookable(st, o)
    ensures Good(st, Booked(st, p, o), now)
  {
    hide Owned, Lockstep, Charged, Ticketed, Current, Balanced, SeatsStep, OrdersStep, MoneyStep;
    BookSound(st, now, p, o);
    BookAdvances(st, p, o);
    assert ItemsOk(st, o);
    BookBalances(st, p, o);
  }

  lemma RefundGood(st: Store, now: Time, p: Uuid, o: Uuid)
    requires Books(st, now) && Undecided(st, p, o)
    ensures Good(st, RefundOrder(RecordOutcome(st, p, OutcomeSucceeded), p, o), now)
  {
    hide Owned, Lockstep, Priced, Charged, Ticketed, Current, Balanced, SeatsStep, OrdersStep, MoneyStep;
    RefundSound(st, now, p, o);
    RefundAdvances(st, p, o);
    RefundBalances(st, p, o);
  }

  lemma FailGood(st: Store, now: Time, p: Uuid, o: Uuid)
    requires Books(st, now) && Undecided(st, p, o) && !st.payments[p].status.Succeeded? && st.orders[o].status.Pending?
    ensures Good(st, FailOrder(RecordOutcome(st, p, OutcomeFailed), o), now)
  {
    hide Owned, Lockstep, Priced, Charged, Ticketed, Current, Balanced, SeatsStep, OrdersStep, MoneyStep;
    FailSound(st, now, p, o);
    FailAdvances(st, p, o);
    UndecidedWriteBalances(st, FailOrder(RecordOutcome(st, p, OutcomeFailed), o));
  }

  lemma DeclineGood(st: Store, now: Time, p: Uuid, o: Uuid)
    requires Books(st, now) && Undecided(st, p, o) && !st.payments[p].status.Succeeded?
    ensures Good(st, RecordOutcome(st, p, OutcomeFailed), now)
  {
    hide Owned, Lockstep, Priced, Charged, Ticketed, Current, Balanced, SeatsStep, OrdersStep, MoneyStep;
    DeclineSound(st, now, p, o);
    DeclineAdvances(st, p, o);
    UndecidedWriteBalances(st, RecordOutcome(st, p, OutcomeFailed));
  }

  lemma ConsumeGood(db: Db, id: nat, now: Time)
    requires Books(db.store, now) && id < |db.outbox| && EventOk(db.store, db.outbox[id])
    ensures Good(db.store, Consume(db, Envelope(id, 1, db.outbox[id]), now).db.store, now)
    // "OrderPaid has no paid order" and every other consumer error are unreachable for outbox events.
    ensures Consume(db, Envelope(id, 1, db.outbox[id]), now).out.Ok?
  {
    hide Books, Good;
    var st := db.store;
    StayGood(st, now);
    match db.outbox[id] {
      case SeatsChanged(event, seats) =>
      case OrderPaid(o) =>
        FulfilGood(st, now, o);
      case RefundRequested(p, o) =>
        SettleRefundGood(st, now, p, o);
      case TicketsIssued(o) =>
    }
  }

  lemma FulfilGood(st: Store, now: Time, o: Uuid)
    requires Books(st, now) && o in st.orders && IsPaid(st.orders[o].status)
    ensures Good(st, FulfilOrder(st, o), now)
  {
    hide Owned, Lockstep, Priced, Charged, Ticketed, Current, Balanced, SeatsStep, OrdersStep, MoneyStep;
    FulfilSound(st, now, o);
    FulfilAdvances(st, o);
    UndecidedWriteBalances(st, FulfilOrder(st, o));
  }

  lemma SettleRefundGood(st: Store, now: Time, p: Uuid, o: Uuid)
    requires Books(st, now) && p in st.refunds && st.refunds[p].order == o
    ensures Good(st, SettleRefund(st, p, o), now)
  {
    hide Owned, Lockstep, Priced, Charged, Ticketed, Current, Balanced, SeatsStep, OrdersStep, MoneyStep;
    SettleSound(st, now, p, o);
    SettleAdvances(st, p, o);
    UndecidedWriteBalances(st, SettleRefund(st, p, o));
  }

  // ---------- the invariant of every reachable database ----------

  ghost predicate DbOk(db: Db, now: Time) {
    Books(db.store, now) && Recorded(db) && EventsOk(db.store, db.outbox) && OrdersKnown(db.store)
  }

  // A transaction that writes no idempotency record and opens no hold.
  lemma QuietOk(db: Db, db': Db, now: Time)
    requires DbOk(db, now) && Good(db.store, db'.store, now)
    requires db'.idem == db.idem && db'.commands == db.commands
    requires db'.store.holds.Keys == db.store.holds.Keys && db'.store.orders.Keys == db.store.orders.Keys
    requires db.outbox <= db'.outbox
    requires forall i :: |db.outbox| <= i < |db'.outbox| ==> EventOk(db'.store, db'.outbox[i])
    ensures DbOk(db', now)
  {
    hide Books, SeatsStep, OrdersStep, MoneyStep, EventOk;
    EventsSurvive(db.store, db'.store, db.outbox);
    forall i | 0 <= i < |db'.outbox|
      ensures EventOk(db'.store, db'.outbox[i])
    {
      assert i < |db.outbox| ==> db'.outbox[i] == db.outbox[i];
    }
    QuietRecords(db, db');
    KnownOrdersStay(db.store, db'.store);
  }

  lemma QuietRecords(db: Db, db': Db)
    requires Recorded(db) && Advance(db.store, db'.store)
    requires db'.idem == db.idem && db'.commands == db.commands && db'.store.holds.Keys == db.store.holds.Keys
    ensures Recorded(db')
  {
    hide SeatsStep, OrdersStep, MoneyStep, RecordOk, CommandOk, RecordsHold;
    RecordsSurvive(db.store, db'.store, db.idem);
  }

  lemma KnownOrdersStay(st: Store, st': Store)
    requires OrdersKnown(st) && Advance(st, st') && st'.orders.Keys == st.orders.Keys
    ensures OrdersKnown(st')
  {
  }

  // A transaction that only adds a record of its own operation.
  lemma RecordedReplyOk(db: Db, db': Db, now: Time, key: IdemKey, row: IdemRow)
    requires DbOk(db, now) && Good(db.store, db'.store, now)
    requires db'.idem == db.idem[key := row] && db'.commands == db.commands && db'.outbox == db.outbox
    requires db'.store.holds.Keys == db.store.holds.Keys && db'.store.orders.Keys == db.store.orders.Keys
    requires key !in db.idem && !key.op.HoldOp? && RecordOk(db'.store, key, row)
    ensures DbOk(db', now)
  {
    hide Books, SeatsStep, OrdersStep, MoneyStep, EventOk, RecordOk, CommandOk, RecordsHold;
    EventsSurvive(db.store, db'.store, db.outbox);
    KnownOrdersStay(db.store, db'.store);
    RecordsSurvive(db.store, db'.store, db.idem);
    OtherRecord(db'.store, db.idem, key, row);
    CommandsSurvive(db.idem, db.commands, key, row);
  }

  lemma CommitHoldOk(db: Db, n: NewHold)
    requires DbOk(db, n.now)
    requires CanHold(db.store, n.hold, n.row, n.order, n.now, Keys(n.row.event, n.seats))
    requires n.total == MapSum(Prices(db.store.seats, Keys(n.row.event, n.seats)))
    requires n.key !in db.idem && n.key.op.HoldOp? && n.request.HoldRequest? && n.row.event in db.store.events
    requires n.command.Some? ==> n.command.value !in db.commands
    ensures DbOk(CommitHold(db, n), n.now) && Advance(db.store, CommitHold(db, n).store)
  {
    hide Books, SeatsStep, OrdersStep, MoneyStep, Recorded, CanHold, OneEffect;
    var db' := CommitHold(db, n);
    CommitHoldGood(db, n);
    assert n.hold !in db.store.holds by { CanHoldFresh(db.store, n); }
    CommitHoldRecorded(db, n);
    EventsSurvive(db.store, db'.store, db.outbox);
    NewOrderKnown(db, n);
  }

  lemma CanHoldFresh(st: Store, n: NewHold)
    requires CanHold(st, n.hold, n.row, n.order, n.now, Keys(n.row.event, n.seats))
    ensures n.hold !in st.holds && n.order !in st.orders
  {
  }

  lemma NewOrderKnown(db: Db, n: NewHold)
    requires OrdersKnown(db.store) && n.row.event in db.store.events
    requires Advance(db.store, CommitHold(db, n).store)
    ensures OrdersKnown(CommitHold(db, n).store)
  {
  }

  lemma ReserveOk(db: Db, actor: Actor, event: Uuid, seatIds: seq<SeatId>, key: string, now: Time, holdSeconds: int,
                  hold: Uuid, order: Uuid)
    requires DbOk(db, now) && hold !in db.store.holds && order !in db.store.orders
    ensures var db' := Reserve(db, actor, event, seatIds, key, now, holdSeconds, hold, order).db;
      DbOk(db', now) && Advance(db.store, db'.store)
  {
    hide Books, Recorded, EventsOk, OrdersKnown, SeatsStep, OrdersStep, MoneyStep;
    var ik := IdemKey(actor, HoldOp, key);
    StayAdvances(db.store);
    if CheckReserve(db, ik, event, seatIds, now) == Ok(None) {
      GoAheadIsFresh(db, ik, HoldRequest(event, set s | s in seatIds));
      CommitHoldOk(db, ReserveRecord(db, ik, event, seatIds, now, holdSeconds, hold, order));
    }
  }

  lemma PersistOk(db: Db, c: Command, now: Time)
    requires DbOk(db, now)
    ensures DbOk(Persist(db, c, now).db, now) && Advance(db.store, Persist(db, c, now).db.store)
  {
    hide Books, Recorded, EventsOk, OrdersKnown, SeatsStep, OrdersStep, MoneyStep, CheckPersist, CommitHold;
    StayAdvances(db.store);
    if CheckPersist(db, c, now) == Ok(None) {
      PersistReady(db, c, now);
      CommitHoldOk(db, PersistRecord(db, c, now));
    }
  }

  // What "go ahead" means for a command: an unused key and free seats.
  lemma PersistReady(db: Db, c: Command, now: Time)
    requires DbOk(db, now) && CheckPersist(db, c, now) == Ok(None)
    ensures IdemKey(c.actor, HoldOp, c.key) !in db.idem && c.id !in db.commands && c.event in db.store.events
    ensures CanHold(db.store, c.holdId, HoldRow(c.actor, c.event, c.expiresAt, ACTIVE), c.orderId, now,
      Keys(c.event, c.seats))
  {
    hide Books, Recorded, EventsOk, OrdersKnown;
    GoAheadIsFresh(db, IdemKey(c.actor, HoldOp, c.key), HoldRequest(c.event, c.seats));
    BooksOwned(db.store, now);
    FreeForIsFree(db.store, now, Keys(c.event, c.seats), c.holdId);
  }

  lemma BooksOwned(st: Store, now: Time)
    requires Books(st, now)
    ensures Owned(st)
  {
  }

  lemma CheckoutOk(db: Db, actor: Actor, hold: Uuid, key: string, now: Time)
    requires DbOk(db, now)
    ensures DbOk(Checkout(db, actor, hold, key, now).db, now) &&
      Advance(db.store, Checkout(db, actor, hold, key, now).db.store)
  {
    hide Books, Recorded, EventsOk, OrdersKnown, SeatsStep, OrdersStep, MoneyStep;
    var db' := Checkout(db, actor, hold, key, now).db;
    var ik := IdemKey(actor, OrderOp, key);
    StayGood(db.store, now);
    if db' != db {
      GoAheadIsFresh(db, ik, OrderRequest(hold));
      RecordedReplyOk(db, db', now, ik, db'.idem[ik]);
    }
  }

  lemma InitiatePaymentOk(db: Db, actor: Actor, order: Uuid, key: string, outcome: PaymentOutcome, delay: nat,
                          duplicates: nat, now: Time, payment: Uuid)
    requires DbOk(db, now) && payment !in db.store.payments
    ensures var db' := InitiatePayment(db, actor, order, key, outcome, delay, duplicates, now, payment).db;
      DbOk(db', now) && Advance(db.store, db'.store)
  {
    hide Books, Recorded, EventsOk, OrdersKnown, SeatsStep, OrdersStep, MoneyStep;
    var db' := InitiatePayment(db, actor, order, key, outcome, delay, duplicates, now, payment).db;
    var ik := IdemKey(actor, PaymentOp, key);
    InitiatePaymentGood(db, actor, order, key, outcome, delay, duplicates, now, payment);
    if db' != db {
      GoAheadIsFresh(db, ik, PaymentRequest(order, outcome, delay, duplicates));
      if order in db.store.paymentByOrder {
        IndexedPayment(db.store, now, order);
      }
      RecordedReplyOk(db, db', now, ik, db'.idem[ik]);
    }
  }

  lemma IndexedPayment(st: Store, now: Time, o: Uuid)
    requires Books(st, now) && o in st.orders && o in st.paymentByOrder
    ensures st.paymentByOrder[o] in st.payments && st.payments[st.paymentByOrder[o]].order == o
  {
    assert ChargedOk(st, o);
  }

  lemma ReleaseOrderOk(db: Db, now: Time, o: Uuid, state: HoldStatus)
    requires DbOk(db, now) && o in db.store.orders && Closing(state)
    ensures DbOk(ReleaseOrder(db, o, state), now) && Advance(db.store, ReleaseOrder(db, o, state).store)
  {
    hide Books, Recorded, EventsOk, SeatsStep, OrdersStep, MoneyStep;
    ReleaseGood(db.store, now, o, state);
    QuietOk(db, ReleaseOrder(db, o, state), now);
  }

  lemma CallbackOk(db: Db, c: Callback, now: Time)
    requires DbOk(db, now)
    ensures DbOk(PaymentCallback(db, c, now).db, now) && Advance(db.store, PaymentCallback(db, c, now).db.store)
  {
    hide Books, Recorded, EventsOk, OrdersKnown, SeatsStep, OrdersStep, MoneyStep, Settle;
    var db' := PaymentCallback(db, c, now).db;
    StayGood(db.store, now);
    if Linked(db.store, c.payment) && !db.store.payments[c.payment].status.Succeeded? {
      SettleOk(db, c, now);
    }
    if db'.store == db.store && db'.outbox == db.outbox && db'.idem == db.idem && db'.commands == db.commands {
      QuietOk(db, db', now);
    }
  }

  // What a decided callback adds to the outbox is true of the store it commits.
  lemma DecideEvents(db: Db, p: Uuid, o: Uuid, d: Decision, i: nat)
    requires o in db.store.orders && o in db.store.items && db.store.orders[o].holdId in db.store.holds
    requires OrdersKnown(db.store) && p !in db.store.refunds
    requires |db.outbox| <= i < |Decide(db, p, o, d).outbox|
    ensures EventOk(Decide(db, p, o, d).store, Decide(db, p, o, d).outbox[i])
  {
  }

  lemma DecideFrame(db: Db, p: Uuid, o: Uuid, d: Decision)
    requires o in db.store.orders && o in db.store.items && db.store.orders[o].holdId in db.store.holds
    ensures var r := Decide(db, p, o, d);
      && r.idem == db.idem && r.commands == db.commands && db.outbox <= r.outbox && r.store.events == db.store.events
      && r.store.holds.Keys == db.store.holds.Keys && r.store.orders.Keys == db.store.orders.Keys
  {
  }

  lemma UndecidedHasNoRefund(st: Store, now: Time, p: Uuid)
    requires Books(st, now) && Linked(st, p) && !st.payments[p].status.Succeeded?
    ensures p !in st.refunds
  {
    assert PaymentOk(st, p);
  }

  lemma SettleOk(db: Db, c: Callback, now: Time)
    requires DbOk(db, now) && Linked(db.store, c.payment) && !db.store.payments[c.payment].status.Succeeded?
    ensures DbOk(Settle(db, c, now).db, now) && Advance(db.store, Settle(db, c, now).db.store)
  {
    hide Books, Recorded, EventsOk, SeatsStep, OrdersStep, MoneyStep, ValidHold, Decide;
    var st, p := db.store, c.payment;
    var o := st.payments[p].order;
    var d := PaymentDecision(st.orders[o].status, ValidHold(st, o, now), c.outcome);
    var mid := NoteOutcome(db, c);
    var db' := Settle(db, c, now).db;
    SettleGood(db, c, now);
    UndecidedHasNoRefund(st, now, p);
    DecideFrame(mid, p, o, d);
    forall i | |db.outbox| <= i < |db'.outbox|
      ensures EventOk(db'.store, db'.outbox[i])
    {
      if i < |Decide(mid, p, o, d).outbox| {
        DecideEvents(mid, p, o, d, i);
      }
    }
    QuietOk(db, db', now);
  }

  lemma ConsumeOk(db: Db, id: nat, now: Time)
    requires DbOk(db, now) && id < |db.outbox|
    ensures var tx := Consume(db, Envelope(id, 1, db.outbox[id]), now);
      DbOk(tx.db, now) && Advance(db.store, tx.db.store) && tx.out.Ok?
  {
    hide Books, Recorded, OrdersKnown, SeatsStep, OrdersStep, MoneyStep, Consume;
    ConsumeGood(db, id, now);
    ConsumeFrame(db, Envelope(id, 1, db.outbox[id]), now);
    ConsumeOutbox(db, Envelope(id, 1, db.outbox[id]), now);
    QuietOk(db, Consume(db, Envelope(id, 1, db.outbox[id]), now).db, now);
  }

  // A delivery writes no record and no hold, and announces at most the issued tickets.
  lemma ConsumeFrame(db: Db, e: Envelope, now: Time)
    ensures var db' := Consume(db, e, now).db;
      && db'.idem == db.idem && db'.commands == db.commands
      && db'.store.holds.Keys == db.store.holds.Keys && db'.store.orders.Keys == db.store.orders.Keys
  {
    hide FulfilOrder, SettleRefund, RequestRefresh;
    match e.payload {
      case OrderPaid(o) => DeliveryFrame(db.store, 0, o);
      case RefundRequested(p, o) => DeliveryFrame(db.store, p, o);
      case _ =>
    }
  }

  lemma ConsumeOutbox(db: Db, e: Envelope, now: Time)
    ensures var db' := Consume(db, e, now).db;
      && db.outbox <= db'.outbox
      && (forall i :: |db.outbox| <= i < |db'.outbox| ==> EventOk(db'.store, db'.outbox[i]))
  {
    hide FulfilOrder, SettleRefund, RequestRefresh;
  }

  lemma DeliveryFrame(st: Store, p: Uuid, o: Uuid)
    ensures o in st.orders ==>
      FulfilOrder(st, o).holds.Keys == st.holds.Keys && FulfilOrder(st, o).orders.Keys == st.orders.Keys
    ensures SettleRefund(st, p, o).holds.Keys == st.holds.Keys && SettleRefund(st, p, o).orders.Keys == st.orders.Keys
  {
  }

  // ---------- expiry ----------

  // Expiry frees seats, closes holds and expires pending orders; nothing else moves.
  ghost predicate ExpireStep(st: Store, st': Store) {
    && st' == st.(seats := st'.seats, holds := st'.holds, orders := st'.orders)
    && st'.seats.Keys == st.seats.Keys && st'.holds.Keys == st.holds.Keys && st'.orders.Keys == st.orders.Keys
    && (forall k :: k in st.seats ==>
          st'.seats[k] == st.seats[k] ||
            (st.seats[k].holdId.Some? && st.seats[k].bookedOrder.None? && st'.seats[k] == Freed(st.seats[k])))
    && (forall h :: h in st.holds ==>
          st'.holds[h] == st.holds[h] ||
            (st.holds[h].status.ACTIVE? && st'.holds[h] == st.holds[h].(status := EXPIRED)))
    && (forall o :: o in st.orders ==>
          st'.orders[o] == st.orders[o] ||
            (st.orders[o].status.Pending? && st'.orders[o] == st.orders[o].(status := Expired)))
  }

  lemma ExpireStepExtends(st: Store, mid: Store, o: Uuid)
    requires ExpireStep(st, mid) && o in mid.orders
    ensures ExpireStep(st, Release(mid, o, EXPIRED))
  {
  }

  lemma ExpireStepAdvances(st: Store, st': Store)
    requires ExpireStep(st, st')
    ensures Advance(st, st')
  {
  }

  lemma {:induction false} ExpireOk(db: Db, now: Time, batch: seq<Uuid>)
    requires DbOk(db, now) && forall o :: o in batch ==> o in db.store.orders
    ensures var db' := ExpireAll(db, batch);
      DbOk(db', now) && ExpireStep(db.store, db'.store) && Advance(db.store, db'.store) && db'.idem == db.idem
  {
    hide DbOk, ExpireStep, SeatsStep, OrdersStep, MoneyStep;
    if batch == [] {
      assert ExpireStep(db.store, db.store) by { ExpireStepStays(db.store); }
    } else {
      var front, o := batch[..|batch| - 1], batch[|batch| - 1];
      ExpireOk(db, now, front);
      var mid := ExpireAll(db, front);
      ExpireStepOrders(db.store, mid.store);
      ReleaseOrderOk(mid, now, o, EXPIRED);
      ExpireStepExtends(db.store, mid.store, o);
    }
    ExpireStepAdvances(db.store, ExpireAll(db, batch).store);
  }

  lemma ExpireStepStays(st: Store)
    ensures ExpireStep(st, st)
  {
  }

  lemma ExpireStepOrders(st: Store, st': Store)
    requires ExpireStep(st, st')
    ensures st'.orders.Keys == st.orders.Keys
  {
  }

  // ---------- one step, whole runs ----------

  lemma StepOk(db: Db, now: Time, s: Step)
    requires DbOk(db, now) && Enabled(db, now, s)
    ensures DbOk(Apply(db, now, s), now)
    ensures Advance(db.store, Apply(db, now, s).store)
  {
    hide DbOk, SeatsStep, OrdersStep, MoneyStep;
    match s {
      case DoReserve(actor, event, seatIds, key, holdSeconds, hold, order) =>
        ReserveOk(db, actor, event, seatIds, key, now, holdSeconds, hold, order);
      case DoPersist(c) => PersistOk(db, c, now);
      case DoCheckout(actor, hold, key) => CheckoutOk(db, actor, hold, key, now);
      case DoRelease(actor, hold) =>
        var found := OrderFor(db.store, hold, actor);
        StayAdvances(db.store);
        if found.Some? {
          ReleaseOrderOk(db, now, found.value, RELEASED);
        }
      case DoExpire(limit, locked, batch) => ExpireOk(db, now, batch);
      case DoPay(actor, order, key, outcome, delay, duplicates, payment) =>
        InitiatePaymentOk(db, actor, order, key, outcome, delay, duplicates, now, payment);
      case DoCallback(c) => CallbackOk(db, c, now);
      case DoConsume(id) => ConsumeOk(db, id, now);
    }
  }

  datatype Tick = Tick(now: Time, step: Step)

  // A run from `db` at `now`: time never goes back and every step is one the code can take.
  ghost predicate Legal(db: Db, now: Time, run: seq<Tick>)
    decreases |run|
  {
    run == [] ||
    (now <= run[0].now && Enabled(db, run[0].now, run[0].step) &&
     Legal(Apply(db, run[0].now, run[0].step), run[0].now, run[1..]))
  }

  ghost function Exec(db: Db, now: Time, run: seq<Tick>): Db
    requires Legal(db, now, run)
    decreases |run|
  {
    if run == [] then db
    else Exec(Apply(db, run[0].now, run[0].step), run[0].now, run[1..])
  }

  ghost function Clock(now: Time, run: seq<Tick>): Time {
    if run == [] then now else run[|run| - 1].now
  }

  lemma DbOkLater(db: Db, now: Time, later: Time)
    requires DbOk(db, now) && now <= later
    ensures DbOk(db, later)
  {
    hide Owned, Lockstep, Priced, Charged, Ticketed, Recorded, EventsOk, Balanced;
    TimePasses(db.store, now, later);
  }

  // The store before anything was sold: an inventory of free seats and no rows elsewhere.
  ghost predicate Fresh(db: Db) {
    && db.store.holds.Keys == {} && db.store.orders.Keys == {}
    && db.store.orderByHold.Keys == {} && db.store.items.Keys == {}
    && db.store.payments.Keys == {} && db.store.paymentByOrder.Keys == {} && db.store.bookings.Keys == {}
    && db.store.tickets == {} && db.store.refunds.Keys == {}
    && db.idem.Keys == {} && db.commands.Keys == {} && db.callbacks.Keys == {}
    && db.outbox == [] && db.inbox == {} && db.refresh.Keys == {}
    && forall k :: k in db.store.seats ==>
         db.store.seats[k].holdId.None? && db.store.seats[k].reservedUntil.None? &&
         db.store.seats[k].bookedOrder.None? && db.store.seats[k].version == 0
  }

  lemma FreshOk(db: Db, now: Time)
    requires Fresh(db)
    ensures DbOk(db, now)
  {
    hide Fresh, Sound, Balanced, Recorded, EventsOk, OrdersKnown;
    FreshSound(db, now);
    FreshBalanced(db);
    FreshRecorded(db);
  }

  lemma FreshSound(db: Db, now: Time)
    requires Fresh(db)
    ensures Sound(db.store, now)
  {
  }

  lemma FreshRecorded(db: Db)
    requires Fresh(db)
    ensures Recorded(db) && EventsOk(db.store, db.outbox) && OrdersKnown(db.store)
  {
  }

  lemma FreshBalanced(db: Db)
    requires Fresh(db)
    ensures Balanced(db.store)
  {
    NothingReceived(db.store.payments, db.store.orders);
    NothingDelivered(db.store.bookings, db.store.items);
    NothingReturned(db.store.refunds, db.store.orders);
  }

  // Every state of every run satisfies the invariant.
  lemma {:induction false} RunOk(db: Db, now: Time, run: seq<Tick>)
    requires DbOk(db, now) && Legal(db, now, run)
    ensures DbOk(Exec(db, now, run), Clock(now, run))
    decreases |run|
  {
    hide DbOk, Enabled, Apply;
    if run != [] {
      var t := run[0];
      DbOkLater(db, now, t.now);
      StepOk(db, t.now, t.step);
      RunOk(Apply(db, t.now, t.step), t.now, run[1..]);
    }
  }
}
