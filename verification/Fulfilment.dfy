// Nothing paid for is forgotten: a PAID order is waiting for an OrderPaid event that nobody consumed,
// a REFUND_PENDING order for a RefundRequested event, and a consumed event has done its work.
module Fulfilment {
  import opened Domain
  import opened Commerce
  import opened Forward
  import opened Transactions
  import opened Records
  import opened Runs
  import opened Announcements
  import opened StoreTheorems

  // What a consumed event has left behind.
  ghost predicate Done(st: Store, p: Payload) {
    match p
    case OrderPaid(o) => o in st.orders && st.orders[o].status.Fulfilled? && o in st.items &&
      st.items[o].Keys <= st.tickets
    case RefundRequested(r, o) =>
      r in st.refunds && st.refunds[r].refunded && o in st.orders && st.orders[o].status.Refunded?
    case _ => true
  }

  ghost predicate Waiting(outbox: seq<Payload>, inbox: set<nat>, i: nat) { i < |outbox| && i !in inbox }

  ghost predicate AwaitsTickets(outbox: seq<Payload>, inbox: set<nat>, o: Uuid) {
    exists i: nat :: Waiting(outbox, inbox, i) && outbox[i] == OrderPaid(o)
  }

  ghost predicate AwaitsRefund(outbox: seq<Payload>, inbox: set<nat>, o: Uuid) {
    exists i: nat :: Waiting(outbox, inbox, i) && outbox[i].RefundRequested? && outbox[i].refundOf == o
  }

  ghost predicate Consumed(db: Db) {
    forall i :: i in db.inbox ==> i < |db.outbox| && Done(db.store, db.outbox[i])
  }

  ghost predicate Pursued(db: Db) {
    forall o :: o in db.store.orders ==>
      && (db.store.orders[o].status.Paid? ==> AwaitsTickets(db.outbox, db.inbox, o))
      && (db.store.orders[o].status.RefundPending? ==> AwaitsRefund(db.outbox, db.inbox, o))
  }

  ghost predicate Settling(db: Db) { Consumed(db) && Pursued(db) }

  // ---------- steps that consume nothing ----------

  // New obligations come with their event.
  ghost predicate Owes(db: Db, db': Db) {
    forall o :: o in db'.store.orders ==>
      && (db'.store.orders[o].status.Paid? ==>
            (o in db.store.orders && db.store.orders[o].status.Paid?) || AwaitsTickets(db'.outbox, db'.inbox, o))
      && (db'.store.orders[o].status.RefundPending? ==>
            (o in db.store.orders && db.store.orders[o].status.RefundPending?) ||
              AwaitsRefund(db'.outbox, db'.inbox, o))
  }

  lemma DoneStays(st: Store, st': Store, p: Payload)
    requires Done(st, p) && Advance(st, st')
    ensures Done(st', p)
  {
  }

  lemma StillAwaited(outbox: seq<Payload>, outbox': seq<Payload>, inbox: set<nat>, o: Uuid)
    requires outbox <= outbox'
    ensures AwaitsTickets(outbox, inbox, o) ==> AwaitsTickets(outbox', inbox, o)
    ensures AwaitsRefund(outbox, inbox, o) ==> AwaitsRefund(outbox', inbox, o)
  {
    if AwaitsTickets(outbox, inbox, o) {
      var i: nat :| Waiting(outbox, inbox, i) && outbox[i] == OrderPaid(o);
      assert Waiting(outbox', inbox, i) && outbox'[i] == OrderPaid(o);
    }
    if AwaitsRefund(outbox, inbox, o) {
      var i: nat :| Waiting(outbox, inbox, i) && outbox[i].RefundRequested? && outbox[i].refundOf == o;
      assert Waiting(outbox', inbox, i) && outbox'[i] == outbox[i];
    }
  }

  lemma QuietSettling(db: Db, db': Db)
    requires Settling(db) && Advance(db.store, db'.store) && db'.inbox == db.inbox && db.outbox <= db'.outbox &&
      Owes(db, db')
    ensures Settling(db')
  {
    hide Advance, AwaitsTickets, AwaitsRefund, Done;
    forall i | i in db'.inbox
      ensures i < |db'.outbox| && Done(db'.store, db'.outbox[i])
    {
      assert db'.outbox[i] == db.outbox[i];
      DoneStays(db.store, db'.store, db.outbox[i]);
    }
    forall o | o in db'.store.orders
      ensures db'.store.orders[o].status.Paid? ==> AwaitsTickets(db'.outbox, db'.inbox, o)
      ensures db'.store.orders[o].status.RefundPending? ==> AwaitsRefund(db'.outbox, db'.inbox, o)
    {
      StillAwaited(db.outbox, db'.outbox, db.inbox, o);
    }
  }

  // A new order is PENDING and a release only expires a pending one.
  lemma CommitOwes(db: Db, n: NewHold)
    ensures Owes(db, CommitHold(db, n))
  {
    hide AwaitsTickets, AwaitsRefund;
  }

  lemma ReleaseOwes(db: Db, o: Uuid, state: HoldStatus)
    requires o in db.store.orders
    ensures Owes(db, ReleaseOrder(db, o, state))
  {
    hide AwaitsTickets, AwaitsRefund;
  }

  lemma SameOrdersOwe(db: Db, db': Db)
    requires db'.store.orders == db.store.orders
    ensures Owes(db, db')
  {
    hide AwaitsTickets, AwaitsRefund;
  }

  lemma {:induction false} ExpireOwes(db: Db, batch: seq<Uuid>)
    requires forall o :: o in batch ==> o in db.store.orders
    ensures var db' := ExpireAll(db, batch);
      forall o :: o in db'.store.orders ==>
        o in db.store.orders &&
        (db'.store.orders[o].status == db.store.orders[o].status || db'.store.orders[o].status.Expired?)
  {
    if batch != [] {
      ExpireOwes(db, batch[..|batch| - 1]);
    }
  }

  lemma LastAwaited(outbox: seq<Payload>, inbox: set<nat>, i: nat, o: Uuid)
    requires Waiting(outbox, inbox, i)
    ensures outbox[i] == OrderPaid(o) ==> AwaitsTickets(outbox, inbox, o)
    ensures outbox[i].RefundRequested? && outbox[i].refundOf == o ==> AwaitsRefund(outbox, inbox, o)
  {
  }

  // A booking emits OrderPaid, a refund RefundRequested; a decline moves no other order.
  lemma DecideEmits(db: Db, p: Uuid, o: Uuid, d: Decision)
    requires o in db.store.orders && o in db.store.items && db.store.orders[o].holdId in db.store.holds
    ensures var db' := Decide(db, p, o, d);
      && db'.inbox == db.inbox
      && (d.Book? ==>
            db'.outbox == db.outbox + [OrderPaid(o)] && db'.store.orders == SetOrder(db.store.orders, o, Paid))
      && (d.Refund? ==>
            && |db'.outbox| == |db.outbox| + 2 && db'.outbox[|db.outbox| + 1] == RefundRequested(p, o)
            && db'.store.orders == SetOrder(db.store.orders, o, RefundPending))
      && (d.Fail? ==> db'.store.orders == SetOrder(db.store.orders, o, Failed))
      && (d.Unchanged? ==> db'.store.orders == db.store.orders)
  {
    hide ReleaseSeats, BookSeats, CloseHold, BookingsFor, SeatsOf, ReleasedKeys;
  }

  lemma DecideOwes(db: Db, p: Uuid, o: Uuid, d: Decision)
    requires o in db.store.orders && o in db.store.items && db.store.orders[o].holdId in db.store.holds
    requires forall i :: i in db.inbox ==> i < |db.outbox|
    ensures Owes(db, Decide(db, p, o, d))
  {
    hide AwaitsTickets, AwaitsRefund, Decide;
    DecideEmits(db, p, o, d);
    var db' := Decide(db, p, o, d);
    if d.Book? {
      LastAwaited(db'.outbox, db'.inbox, |db.outbox|, o);
    } else if d.Refund? {
      LastAwaited(db'.outbox, db'.inbox, |db.outbox| + 1, o);
    }
  }

  lemma EmitOwes(db: Db, mid: Db, p: Payload)
    requires Owes(db, mid)
    ensures Owes(db, Emit(mid, p))
  {
    hide AwaitsTickets, AwaitsRefund;
    forall o | o in mid.store.orders
      ensures AwaitsTickets(mid.outbox, mid.inbox, o) ==> AwaitsTickets(Emit(mid, p).outbox, mid.inbox, o)
      ensures AwaitsRefund(mid.outbox, mid.inbox, o) ==> AwaitsRefund(Emit(mid, p).outbox, mid.inbox, o)
    {
      StillAwaited(mid.outbox, Emit(mid, p).outbox, mid.inbox, o);
    }
  }

  lemma CallbackOwes(db: Db, c: Callback, now: Time)
    requires forall i :: i in db.inbox ==> i < |db.outbox|
    ensures Owes(db, PaymentCallback(db, c, now).db)
  {
    hide Owes, Decide, ValidHold, PaymentDecision;
    SameOrdersOwe(db, db);
    if Linked(db.store, c.payment) {
      var o := db.store.payments[c.payment].order;
      var d := PaymentDecision(db.store.orders[o].status, ValidHold(db.store, o, now), c.outcome);
      var noted := NoteOutcome(db, c);
      DecideOwes(noted, c.payment, o, d);
      SameOrdersBefore(db, noted, Decide(noted, c.payment, o, d));
      EmitOwes(db, Decide(noted, c.payment, o, d), OrderSeats(db.store, o));
      SameOrdersOwe(db, db.(callbacks := db.callbacks[c.id := CallbackRow(c.payment, c)]));
    }
  }

  lemma SameOrdersBefore(db: Db, mid: Db, db': Db)
    requires mid.store.orders == db.store.orders && Owes(mid, db')
    ensures Owes(db, db')
  {
    hide AwaitsTickets, AwaitsRefund;
  }

  lemma StepOwes(db: Db, now: Time, s: Step)
    requires Enabled(db, now, s) && !s.DoConsume? && (forall i :: i in db.inbox ==> i < |db.outbox|)
    ensures Owes(db, Apply(db, now, s))
  {
    hide Owes, IsDueBatch, CommitHold, CheckReserve, CheckPersist, PaymentCallback, ReleaseOrder, OpenPayment;
    SameOrdersOwe(db, db);
    match s {
      case DoReserve(actor, event, seatIds, key, holdSeconds, hold, order) =>
        ReserveOwes(db, now, s);
      case DoPersist(c) => PersistOwes(db, c, now);
      case DoCallback(c) => CallbackOwes(db, c, now);
      case DoExpire(_, _, batch) => ExpiryOwes(db, now, s);
      case DoRelease(actor, hold) =>
        var found := OrderFor(db.store, hold, actor);
        if found.Some? {
          ReleaseOwes(db, found.value, RELEASED);
        }
      case _ => OtherOwes(db, now, s);
    }
  }

  lemma OtherOwes(db: Db, now: Time, s: Step)
    requires Enabled(db, now, s) && (s.DoCheckout? || s.DoPay?)
    ensures Owes(db, Apply(db, now, s))
  {
    hide Owes;
    SameOrdersOwe(db, Apply(db, now, s));
  }

  lemma ReserveOwes(db: Db, now: Time, s: Step)
    requires s.DoReserve? && Enabled(db, now, s)
    ensures Owes(db, Apply(db, now, s))
  {
    hide Owes, CommitHold;
    SameOrdersOwe(db, db);
    var ik := IdemKey(s.actor, HoldOp, s.key);
    if CheckReserve(db, ik, s.event, s.seatIds, now) == Ok(None) {
      CommitOwes(db, ReserveRecord(db, ik, s.event, s.seatIds, now, s.holdSeconds, s.hold, s.order));
    }
  }

  lemma PersistOwes(db: Db, c: Command, now: Time)
    ensures Owes(db, Persist(db, c, now).db)
  {
    hide Owes, CommitHold;
    SameOrdersOwe(db, db);
    if CheckPersist(db, c, now) == Ok(None) {
      CommitOwes(db, PersistRecord(db, c, now));
    }
  }

  lemma ExpiryOwes(db: Db, now: Time, s: Step)
    requires s.DoExpire? && Enabled(db, now, s)
    ensures Owes(db, Apply(db, now, s))
  {
    hide AwaitsTickets, AwaitsRefund, ExpireAll;
    ExpireOwes(db, s.batch);
  }

  // ---------- deliveries ----------

  // Consuming an event does its work and takes away no other order's event.
  lemma OtherStillAwaited(outbox: seq<Payload>, outbox': seq<Payload>, inbox: set<nat>, id: nat, o: Uuid)
    requires outbox <= outbox' && id < |outbox|
    ensures AwaitsTickets(outbox, inbox, o) && outbox[id] != OrderPaid(o) ==> AwaitsTickets(outbox', inbox + {id}, o)
    ensures AwaitsRefund(outbox, inbox, o) && !(outbox[id].RefundRequested? && outbox[id].refundOf == o) ==>
      AwaitsRefund(outbox', inbox + {id}, o)
  {
    if AwaitsTickets(outbox, inbox, o) && outbox[id] != OrderPaid(o) {
      var i: nat :| Waiting(outbox, inbox, i) && outbox[i] == OrderPaid(o);
      assert Waiting(outbox', inbox + {id}, i) && outbox'[i] == OrderPaid(o);
    }
    if AwaitsRefund(outbox, inbox, o) && !(outbox[id].RefundRequested? && outbox[id].refundOf == o) {
      var i: nat :| Waiting(outbox, inbox, i) && outbox[i].RefundRequested? && outbox[i].refundOf == o;
      assert Waiting(outbox', inbox + {id}, i) && outbox'[i] == outbox[i];
    }
  }

  // What one first delivery does.
  lemma DeliveryDoes(db: Db, id: nat, now: Time)
    requires DbOk(db, now) && id < |db.outbox| && id !in db.inbox
    ensures var db' := Consume(db, Envelope(id, 1, db.outbox[id]), now).db;
      && db'.inbox == db.inbox + {id} && db.outbox <= db'.outbox && Done(db'.store, db.outbox[id])
      && (forall o :: o in db'.store.orders ==>
            o in db.store.orders &&
            (db'.store.orders[o] != db.store.orders[o] ==>
               db'.store.orders[o].status.Fulfilled? || db'.store.orders[o].status.Refunded?))
  {
    hide Recorded, OrdersKnown, Books, RequestRefresh;
    var st := db.store;
    assert EventOk(st, db.outbox[id]);
    match db.outbox[id] {
      case OrderPaid(o) => PaidIsBooked(st, now, o);
      case RefundRequested(p, o) => RefundStatus(st, now, p);
      case _ =>
    }
  }

  lemma PaidIsBooked(st: Store, now: Time, o: Uuid)
    requires Books(st, now) && o in st.orders && IsPaid(st.orders[o].status)
    ensures o in st.items && forall k :: k in st.items[o] ==> k in st.bookings && st.bookings[k] == o
  {
    assert OrderOk(st, o);
  }

  lemma RefundStatus(st: Store, now: Time, p: Uuid)
    requires Books(st, now) && p in st.refunds
    ensures var o := st.refunds[p].order; o in st.orders && IsRefund(st.orders[o].status)
  {
    assert RefundOk(st, p);
    assert PaymentOk(st, p);
  }

  lemma DeliverySettling(db: Db, id: nat, now: Time)
    requires DbOk(db, now) && Settling(db) && id < |db.outbox|
    ensures Settling(Consume(db, Envelope(id, 1, db.outbox[id]), now).db)
  {
    hide DbOk, Advance, AwaitsTickets, AwaitsRefund, Done, Consume;
    var db' := Consume(db, Envelope(id, 1, db.outbox[id]), now).db;
    if id in db.inbox {
      Redelivered(db, id, now);
    } else {
      ConsumeOk(db, id, now);
      DeliveryDoes(db, id, now);
      forall i | i in db'.inbox
        ensures i < |db'.outbox| && Done(db'.store, db'.outbox[i])
      {
        assert db'.outbox[i] == db.outbox[i];
        if i != id {
          DoneStays(db.store, db'.store, db.outbox[i]);
        }
      }
      forall o | o in db'.store.orders
        ensures db'.store.orders[o].status.Paid? ==> AwaitsTickets(db'.outbox, db'.inbox, o)
        ensures db'.store.orders[o].status.RefundPending? ==> AwaitsRefund(db'.outbox, db'.inbox, o)
      {
        OtherStillAwaited(db.outbox, db'.outbox, db.inbox, id, o);
        DoneIsOver(db'.store, db.outbox[id]);
      }
    }
  }

  lemma DoneIsOver(st: Store, p: Payload)
    requires Done(st, p)
    ensures p.OrderPaid? ==> p.order in st.orders && st.orders[p.order].status.Fulfilled?
    ensures p.RefundRequested? ==> p.refundOf in st.orders && st.orders[p.refundOf].status.Refunded?
  {
  }

  lemma Redelivered(db: Db, id: nat, now: Time)
    requires id < |db.outbox| && id in db.inbox
    ensures Consume(db, Envelope(id, 1, db.outbox[id]), now).db == db
  {
  }

  // ---------- runs ----------

  lemma StepSettling(db: Db, now: Time, s: Step)
    requires DbOk(db, now) && Settling(db) && Enabled(db, now, s)
    ensures Settling(Apply(db, now, s))
  {
    hide DbOk, Settling, Advance, Owes, Enabled, Consume, IsDueBatch;
    if s.DoConsume? {
      ConsumesOutbox(db, now, s);
      DeliverySettling(db, s.id, now);
    } else {
      StepOk(db, now, s);
      StepConsumer(db, now, s);
      StepAnnounces(db, now, s);
      OutboxGrows(db, Apply(db, now, s));
      SettlingInbox(db);
      StepOwes(db, now, s);
      QuietSettling(db, Apply(db, now, s));
    }
  }

  lemma ConsumesOutbox(db: Db, now: Time, s: Step)
    requires Enabled(db, now, s) && s.DoConsume?
    ensures s.id < |db.outbox| && Apply(db, now, s) == Consume(db, Envelope(s.id, 1, db.outbox[s.id]), now).db
  {
  }

  lemma OutboxGrows(db: Db, db': Db)
    requires Announces(db, db')
    ensures db.outbox <= db'.outbox
  {
  }

  lemma SettlingInbox(db: Db)
    requires Settling(db)
    ensures forall i :: i in db.inbox ==> i < |db.outbox|
  {
  }

  lemma {:induction false} RunSettling(db: Db, now: Time, run: seq<Tick>)
    requires DbOk(db, now) && Settling(db) && Legal(db, now, run)
    ensures Settling(Exec(db, now, run))
    decreases |run|
  {
    hide DbOk, Settling, Enabled, Apply;
    if run != [] {
      DbOkLater(db, now, run[0].now);
      StepOk(db, run[0].now, run[0].step);
      StepSettling(db, run[0].now, run[0].step);
      RunSettling(Apply(db, run[0].now, run[0].step), run[0].now, run[1..]);
    }
  }

  lemma ReachableSettling(db: Db, now: Time)
    requires Reachable(db, now)
    ensures Settling(db)
  {
    hide DbOk, Settling, Legal, Exec;
    var start: Db, t0: Time, run: seq<Tick> :|
      Fresh(start) && Legal(start, t0, run) && db == Exec(start, t0, run) && now == Clock(t0, run);
    FreshOk(start, t0);
    FreshSettling(start);
    RunSettling(start, t0, run);
  }

  lemma FreshSettling(db: Db)
    requires Fresh(db)
    ensures Settling(db)
  {
  }

  // In every reachable state: a consumed OrderPaid means a FULFILLED order with a ticket for each item, and
  // a consumed RefundRequested a REFUNDED order; a PAID or REFUND_PENDING order has its event unconsumed.
  lemma EventsDoTheirWork(db: Db, now: Time, id: nat, o: Uuid)
    requires Reachable(db, now)
    ensures id in db.inbox ==> id < |db.outbox|
    ensures id in db.inbox && db.outbox[id] == OrderPaid(o) ==>
      o in db.store.orders && db.store.orders[o].status.Fulfilled? && o in db.store.items &&
        db.store.items[o].Keys <= db.store.tickets
    ensures id in db.inbox && db.outbox[id].RefundRequested? && db.outbox[id].refundOf == o ==>
      && o in db.store.orders && db.store.orders[o].status.Refunded?
      && db.outbox[id].payment in db.store.refunds && db.store.refunds[db.outbox[id].payment].refunded
    ensures o in db.store.orders && db.store.orders[o].status.Paid? ==>
      exists i: nat :: i < |db.outbox| && i !in db.inbox && db.outbox[i] == OrderPaid(o)
    ensures o in db.store.orders && db.store.orders[o].status.RefundPending? ==>
      exists i: nat :: i < |db.outbox| && i !in db.inbox && db.outbox[i].RefundRequested? && db.outbox[i].refundOf == o
  {
    hide Reachable;
    ReachableSettling(db, now);
  }

  // So once every event is consumed, no order is left PAID without tickets or REFUND_PENDING.
  lemma DrainedOutboxSettlesAll(db: Db, now: Time, o: Uuid)
    requires Reachable(db, now) && (forall i: nat :: i < |db.outbox| ==> i in db.inbox) && o in db.store.orders
    ensures !db.store.orders[o].status.Paid? && !db.store.orders[o].status.RefundPending?
  {
    hide Reachable;
    EventsDoTheirWork(db, now, 0, o);
  }
}
