// Every transaction that changes a seat row announces that seat in the outbox it commits.
module Announcements {
  import opened Domain
  import opened Commerce
  import opened Transactions
  import opened Records
  import opened Runs

  predicate Mentions(e: Payload, k: SeatKey) {
    e.SeatsChanged? && e.event == k.event && (e.seats.None? || k.seat in e.seats.value)
  }

  ghost predicate Told(outbox: seq<Payload>, from: nat, k: SeatKey) {
    exists i :: from <= i < |outbox| && Mentions(outbox[i], k)
  }

  ghost predicate Announces(db: Db, db': Db) {
    && db.outbox <= db'.outbox && db'.store.seats.Keys == db.store.seats.Keys
    && forall k :: k in db.store.seats && db'.store.seats[k] != db.store.seats[k] ==> Told(db'.outbox, |db.outbox|, k)
  }

  lemma ToldByLast(outbox: seq<Payload>, from: nat, e: Payload, k: SeatKey)
    requires from <= |outbox| && Mentions(e, k)
    ensures Told(outbox + [e], from, k)
  {
    assert Mentions((outbox + [e])[|outbox|], k);
  }

  lemma ToldMonotone(outbox: seq<Payload>, more: seq<Payload>, from: nat, k: SeatKey)
    requires Told(outbox, from, k) && outbox <= more
    ensures Told(more, from, k)
  {
    var i :| from <= i < |outbox| && Mentions(outbox[i], k);
    assert Mentions(more[i], k);
  }

  lemma CommitHoldAnnounces(db: Db, n: NewHold)
    ensures Announces(db, CommitHold(db, n))
  {
    var e := SeatsChanged(n.row.event, Some(n.seats));
    forall k | k in db.store.seats && CommitHold(db, n).store.seats[k] != db.store.seats[k]
      ensures Told(CommitHold(db, n).outbox, |db.outbox|, k)
    {
      ToldByLast(db.outbox, |db.outbox|, e, k);
    }
  }

  // A seat carrying an order's hold belongs to that order's event.
  lemma HeldSeatEvent(st: Store, now: Time, o: Uuid, k: SeatKey)
    requires Books(st, now) && o in st.orders && k in st.seats && st.seats[k].holdId == Some(st.orders[o].holdId)
    ensures o in st.items && k in st.items[o] && k.event == st.orders[o].event
  {
    hide Charged, Ticketed, Current;
    assert SeatOk(st, k) && OrderOk(st, o) && ItemsOk(st, o);
  }

  lemma ReleasedRow(seats: map<SeatKey, SeatRow>, h: Uuid, k: SeatKey)
    requires k in seats && ReleaseSeats(seats, h)[k] != seats[k]
    ensures k in ReleasedKeys(seats, h) && seats[k].holdId == Some(h)
  {
  }

  lemma ReleaseAnnounces(db: Db, now: Time, o: Uuid, state: HoldStatus)
    requires Books(db.store, now) && o in db.store.orders
    ensures Announces(db, ReleaseOrder(db, o, state))
  {
    hide Books, Told, ReleasedKeys, CloseHold, SetOrder;
    var order := db.store.orders[o];
    var e := SeatsChanged(order.event, Some(SeatsOf(ReleasedKeys(db.store.seats, order.holdId))));
    assert ReleaseOrder(db, o, state).outbox == db.outbox + [e];
    forall k | k in db.store.seats && ReleaseSeats(db.store.seats, order.holdId)[k] != db.store.seats[k]
      ensures Told(db.outbox + [e], |db.outbox|, k)
    {
      ReleasedRow(db.store.seats, order.holdId, k);
      HeldSeatEvent(db.store, now, o, k);
      ToldByLast(db.outbox, |db.outbox|, e, k);
    }
  }

  // A callback closes with the seats of its whole order.
  lemma SettleAnnounces(db: Db, c: Callback, now: Time)
    requires Books(db.store, now) && Linked(db.store, c.payment)
    ensures Announces(db, Settle(db, c, now).db)
  {
    hide Books, Decide, ValidHold, PaymentDecision;
    var o := db.store.payments[c.payment].order;
    var d := PaymentDecision(db.store.orders[o].status, ValidHold(db.store, o, now), c.outcome);
    var mid := NoteOutcome(db, c);
    var db' := Settle(db, c, now).db;
    DecideFrame(mid, c.payment, o, d);
    DecideSeats(mid, c.payment, o, d);
    forall k | k in db.store.seats && db'.store.seats[k] != db.store.seats[k]
      ensures Told(db'.outbox, |db.outbox|, k)
    {
      HeldSeatEvent(db.store, now, o, k);
      assert k in db.store.items[o].Keys;
      ToldByLast(Decide(mid, c.payment, o, d).outbox, |db.outbox|, OrderSeats(db.store, o), k);
    }
  }

  lemma DecideSeats(db: Db, p: Uuid, o: Uuid, d: Decision)
    requires o in db.store.orders && o in db.store.items && db.store.orders[o].holdId in db.store.holds
    ensures var st' := Decide(db, p, o, d).store;
      && st'.seats.Keys == db.store.seats.Keys
      && forall k :: k in db.store.seats && st'.seats[k] != db.store.seats[k] ==>
          db.store.seats[k].holdId == Some(db.store.orders[o].holdId)
  {
  }

  lemma CallbackAnnounces(db: Db, c: Callback, now: Time)
    requires Books(db.store, now)
    ensures Announces(db, PaymentCallback(db, c, now).db)
  {
    hide Books, Settle;
    if Linked(db.store, c.payment) {
      SettleAnnounces(db, c, now);
    }
  }

  lemma {:induction false} ExpireAnnounces(db: Db, now: Time, batch: seq<Uuid>)
    requires DbOk(db, now) && forall o :: o in batch ==> o in db.store.orders
    ensures Announces(db, ExpireAll(db, batch))
  {
    hide DbOk, ReleaseOrder, Told;
    if batch != [] {
      var front, o := batch[..|batch| - 1], batch[|batch| - 1];
      var mid := ExpireAll(db, front);
      ExpireAnnounces(db, now, front);
      ExpireOk(db, now, front);
      DbOkBooks(mid, now);
      ReleaseAnnounces(mid, now, o, EXPIRED);
      AnnouncesExtends(db, mid, ReleaseOrder(mid, o, EXPIRED));
    }
  }

  lemma DbOkBooks(db: Db, now: Time)
    requires DbOk(db, now)
    ensures Books(db.store, now)
  {
  }

  lemma AnnouncesExtends(db: Db, mid: Db, db': Db)
    requires Announces(db, mid) && Announces(mid, db')
    ensures Announces(db, db')
  {
    hide Mentions;
    forall k | k in db.store.seats && db'.store.seats[k] != db.store.seats[k]
      ensures Told(db'.outbox, |db.outbox|, k)
    {
      if mid.store.seats[k] != db.store.seats[k] {
        ToldMonotone(mid.outbox, db'.outbox, |db.outbox|, k);
      } else {
        assert Told(db'.outbox, |mid.outbox|, k);
      }
    }
  }

  lemma ReserveAnnounces(db: Db, actor: Actor, event: Uuid, seatIds: seq<SeatId>, key: string, now: Time,
                         holdSeconds: int, hold: Uuid, order: Uuid)
    ensures Announces(db, Reserve(db, actor, event, seatIds, key, now, holdSeconds, hold, order).db)
  {
    hide CommitHold, Told, CheckReserve;
    var ik := IdemKey(actor, HoldOp, key);
    if CheckReserve(db, ik, event, seatIds, now) == Ok(None) {
      assert event in db.store.events by { CheckedEvent(db, ik, event, seatIds, now); }
      CommitHoldAnnounces(db, ReserveRecord(db, ik, event, seatIds, now, holdSeconds, hold, order));
    }
  }

  lemma CheckedEvent(db: Db, key: IdemKey, event: Uuid, seatIds: seq<SeatId>, now: Time)
    requires CheckReserve(db, key, event, seatIds, now) == Ok(None)
    ensures event in db.store.events
  {
  }

  lemma PersistAnnounces(db: Db, c: Command, now: Time)
    ensures Announces(db, Persist(db, c, now).db)
  {
    hide CommitHold, Told;
    if CheckPersist(db, c, now) == Ok(None) {
      CommitHoldAnnounces(db, PersistRecord(db, c, now));
    }
  }

  lemma ReleaseHoldAnnounces(db: Db, actor: Actor, hold: Uuid, now: Time)
    requires Books(db.store, now)
    ensures Announces(db, ReleaseHold(db, actor, hold).db)
  {
    hide Books, ReleaseOrder, Told;
    var found := OrderFor(db.store, hold, actor);
    if found.Some? {
      ReleaseAnnounces(db, now, found.value, RELEASED);
    }
  }

  lemma ConsumeAnnounces(db: Db, e: Envelope, now: Time)
    ensures Announces(db, Consume(db, e, now).db)
    ensures Consume(db, e, now).db.store.seats == db.store.seats
  {
    hide RequestRefresh, BookedBy, SetOrder, IsPaid, Told;
    match e.payload {
      case SeatsChanged(_, _) =>
      case OrderPaid(_) =>
      case RefundRequested(_, _) =>
      case TicketsIssued(_) =>
      case Unknown =>
    }
  }

  lemma QuietAnnounces(db: Db, now: Time, s: Step)
    requires Enabled(db, now, s) && (s.DoCheckout? || s.DoPay?)
    ensures Announces(db, Apply(db, now, s))
  {
    hide Reserve, Persist, PaymentCallback, ExpireAll, IsDueBatch, ReleaseHold, Consume, Checkout, InitiatePayment;
    match s {
      case DoCheckout(actor, hold, key) => CheckoutIsQuiet(db, actor, hold, key, now);
      case DoPay(actor, order, key, outcome, delay, duplicates, payment) =>
        PayIsQuiet(db, actor, order, key, outcome, delay, duplicates, now, payment);
    }
  }

  lemma CheckoutIsQuiet(db: Db, actor: Actor, hold: Uuid, key: string, now: Time)
    ensures var db' := Checkout(db, actor, hold, key, now).db; db'.store == db.store && db'.outbox == db.outbox
  {
  }

  lemma PayIsQuiet(db: Db, actor: Actor, order: Uuid, key: string, outcome: PaymentOutcome, delay: nat, duplicates: nat,
                   now: Time, payment: Uuid)
    ensures var db' := InitiatePayment(db, actor, order, key, outcome, delay, duplicates, now, payment).db;
      db'.store.seats == db.store.seats && db'.outbox == db.outbox
  {
  }

  // No seat changes silently.
  lemma StepAnnounces(db: Db, now: Time, s: Step)
    requires DbOk(db, now) && Enabled(db, now, s)
    ensures Announces(db, Apply(db, now, s))
  {
    hide Announces, Books, Recorded, EventsOk, OrdersKnown, Reserve, Persist, PaymentCallback, ExpireAll, ReleaseHold,
      Consume, Checkout, InitiatePayment;
    match s {
      case DoReserve(actor, event, seatIds, key, holdSeconds, hold, order) =>
        ReserveAnnounces(db, actor, event, seatIds, key, now, holdSeconds, hold, order);
      case DoPersist(c) => PersistAnnounces(db, c, now);
      case DoRelease(actor, hold) => ReleaseHoldAnnounces(db, actor, hold, now);
      case DoExpire(limit, locked, batch) => ExpireAnnounces(db, now, batch);
      case DoCallback(c) => CallbackAnnounces(db, c, now);
      case DoConsume(id) => ConsumeAnnounces(db, Envelope(id, 1, db.outbox[id]), now);
      case _ => QuietAnnounces(db, now, s);
    }
  }

  // Only a delivery touches the consumer's tables.
  ghost predicate ConsumerUntouched(db: Db, db': Db) {
    db'.inbox == db.inbox && db'.refresh == db.refresh
  }

  lemma StepConsumer(db: Db, now: Time, s: Step)
    requires DbOk(db, now) && Enabled(db, now, s) && !s.DoConsume?
    ensures ConsumerUntouched(db, Apply(db, now, s))
  {
    hide DbOk, PaymentCallback, ExpireAll, Consume, Reserve, Persist, ReleaseHold, Checkout, InitiatePayment;
    match s {
      case DoCallback(c) => CallbackConsumer(db, c, now);
      case DoExpire(limit, locked, batch) => ExpireConsumer(db, batch);
      case DoReserve(actor, event, seatIds, key, holdSeconds, hold, order) =>
        ReserveConsumer(db, actor, event, seatIds, key, now, holdSeconds, hold, order);
      case DoPersist(c) => PersistConsumer(db, c, now);
      case _ => OtherConsumer(db, now, s);
    }
  }

  lemma CallbackConsumer(db: Db, c: Callback, now: Time)
    ensures ConsumerUntouched(db, PaymentCallback(db, c, now).db)
  {
    hide ValidHold, PaymentDecision, BookOrder, RefundOrder, FailOrder, Commerce.Release, SeatsOf, ReleasedKeys;
  }

  lemma {:induction false} ExpireConsumer(db: Db, batch: seq<Uuid>)
    requires forall o :: o in batch ==> o in db.store.orders
    ensures ConsumerUntouched(db, ExpireAll(db, batch))
  {
    hide Commerce.Release, SeatsOf, ReleasedKeys;
    if batch != [] {
      ExpireConsumer(db, batch[..|batch| - 1]);
    }
  }

  lemma ReserveConsumer(db: Db, actor: Actor, event: Uuid, seatIds: seq<SeatId>, key: string, now: Time,
                        holdSeconds: int, hold: Uuid, order: Uuid)
    ensures ConsumerUntouched(db, Reserve(db, actor, event, seatIds, key, now, holdSeconds, hold, order).db)
  {
    hide CreateHold;
  }

  lemma PersistConsumer(db: Db, c: Command, now: Time)
    ensures ConsumerUntouched(db, Persist(db, c, now).db)
  {
    hide CreateHold;
  }

  lemma OtherConsumer(db: Db, now: Time, s: Step)
    requires Enabled(db, now, s) && (s.DoCheckout? || s.DoRelease? || s.DoPay?)
    ensures ConsumerUntouched(db, Apply(db, now, s))
  {
    hide Reserve, Persist, PaymentCallback, ExpireAll, IsDueBatch, Consume, Commerce.Release, OpenPayment, SeatsOf,
      ReleasedKeys;
  }
}
