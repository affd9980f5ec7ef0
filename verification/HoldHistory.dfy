// The history of one seat's holds: from creation to the earlier of expiry and closing, across both
// creation paths, the intervals never overlap.
module HoldHistory {
  import opened Domain
  import opened Commerce
  import opened CommerceProofs
  import opened Forward
  import opened Ledger
  import opened Transactions
  import opened Records
  import opened Runs

  // When each hold stopped being ACTIVE (released, expired by the worker, or consumed by a booking).
  type Closings = map<Uuid, Time>

  ghost function Closed(closed: Closings, st: Store, st': Store, now: Time): Closings {
    closed +
    map h | h in st.holds && st.holds[h].status.ACTIVE? && h in st'.holds && !st'.holds[h].status.ACTIVE? :: now
  }

  ghost function ExecClosings(db: Db, now: Time, run: seq<Tick>, closed: Closings): Closings
    requires Legal(db, now, run)
    decreases |run|
  {
    if run == [] then closed
    else
      var db' := Apply(db, run[0].now, run[0].step);
      ExecClosings(db', run[0].now, run[1..], Closed(closed, db.store, db'.store, run[0].now))
  }

  ghost predicate HasOrder(st: Store, h: Uuid) {
    h in st.holds && h in st.orderByHold && st.orderByHold[h] in st.orders && st.orderByHold[h] in st.items
  }

  ghost function Start(st: Store, h: Uuid): Time
    requires HasOrder(st, h)
  {
    st.orders[st.orderByHold[h]].createdAt
  }

  ghost function End(st: Store, closed: Closings, h: Uuid): Time
    requires h in st.holds
  {
    if h in closed && closed[h] < st.holds[h].expiresAt then closed[h] else st.holds[h].expiresAt
  }

  ghost predicate Lists(st: Store, h: Uuid, k: SeatKey) {
    HasOrder(st, h) && k in st.items[st.orderByHold[h]]
  }

  ghost predicate Apart(st: Store, closed: Closings, a: Uuid, b: Uuid)
    requires HasOrder(st, a) && HasOrder(st, b)
  {
    End(st, closed, a) <= Start(st, b) || End(st, closed, b) <= Start(st, a)
  }

  // Pairwise disjoint intervals on every seat.
  ghost predicate Disjoint(st: Store, closed: Closings) {
    forall a, b, k :: a != b && Lists(st, a, k) && Lists(st, b, k) ==> Apart(st, closed, a, b)
  }

  ghost predicate HistoryOk(st: Store, now: Time, closed: Closings) {
    && (forall h :: h in closed ==> h in st.holds && !st.holds[h].status.ACTIVE? && closed[h] <= now)
    && (forall h :: h in st.holds ==> HasOrder(st, h) && (!st.holds[h].status.ACTIVE? ==> h in closed))
    && Disjoint(st, closed)
  }

  // ---------- what one step can do to the set of holds ----------

  // A step opens exactly one hold, on seats that were free, or none at all.
  lemma StepShape(db: Db, now: Time, s: Step) returns (n: Option<NewHold>)
    requires DbOk(db, now) && Enabled(db, now, s)
    ensures n.Some? ==>
      && Apply(db, now, s) == CommitHold(db, n.value) && n.value.now == now
      && CanHold(db.store, n.value.hold, n.value.row, n.value.order, now, Keys(n.value.row.event, n.value.seats))
    ensures n.None? ==> Apply(db, now, s).store.holds.Keys == db.store.holds.Keys
  {
    hide DbOk, CommitHold, CanHold, Reserve, Persist, ReleaseHold, Checkout, InitiatePayment, PaymentCallback,
      Consume, ExpireAll, IsDueBatch;
    n := None;
    match s {
      case DoReserve(actor, event, seatIds, key, holdSeconds, hold, order) =>
        n := ReserveShape(db, actor, event, seatIds, key, now, holdSeconds, hold, order);
      case DoPersist(c) => n := PersistShape(db, c, now);
      case DoCallback(c) => CallbackShape(db, c, now);
      case DoExpire(_, _, _) => ExpireShape(db, now, s);
      case _ => OtherShape(db, now, s);
    }
  }

  lemma ExpireShape(db: Db, now: Time, s: Step)
    requires DbOk(db, now) && Enabled(db, now, s) && s.DoExpire?
    ensures Apply(db, now, s).store.holds.Keys == db.store.holds.Keys
  {
    hide DbOk;
    ExpireOk(db, now, s.batch);
  }

  lemma OtherShape(db: Db, now: Time, s: Step)
    requires Enabled(db, now, s) && (s.DoCheckout? || s.DoRelease? || s.DoPay? || s.DoConsume?)
    ensures Apply(db, now, s).store.holds.Keys == db.store.holds.Keys
  {
    hide Reserve, Persist, PaymentCallback, ExpireAll, IsDueBatch, Checkout, ReleaseHold, InitiatePayment, Consume;
    match s {
      case DoCheckout(actor, hold, key) => CheckoutShape(db, actor, hold, key, now);
      case DoRelease(actor, hold) => ReleaseShape(db, actor, hold);
      case DoPay(actor, order, key, outcome, delay, duplicates, payment) =>
        PayShape(db, actor, order, key, outcome, delay, duplicates, now, payment);
      case DoConsume(id) => ConsumeShape(db, Envelope(id, 1, db.outbox[id]), now);
    }
  }

  lemma CheckoutShape(db: Db, actor: Actor, hold: Uuid, key: string, now: Time)
    ensures Checkout(db, actor, hold, key, now).db.store == db.store
  {
  }

  lemma ReleaseShape(db: Db, actor: Actor, hold: Uuid)
    ensures ReleaseHold(db, actor, hold).db.store.holds.Keys == db.store.holds.Keys
  {
  }

  lemma PayShape(db: Db, actor: Actor, order: Uuid, key: string, outcome: PaymentOutcome, delay: nat, duplicates: nat,
                 now: Time, payment: Uuid)
    ensures var db' := InitiatePayment(db, actor, order, key, outcome, delay, duplicates, now, payment).db;
      db'.store.holds == db.store.holds
  {
  }

  lemma ConsumeShape(db: Db, e: Envelope, now: Time)
    ensures Consume(db, e, now).db.store.holds == db.store.holds
  {
    hide RequestRefresh, BookedBy, SetOrder, IsPaid;
    match e.payload {
      case SeatsChanged(_, _) =>
      case OrderPaid(_) =>
      case RefundRequested(_, _) =>
      case TicketsIssued(_) =>
      case Unknown =>
    }
  }

  lemma ReserveShape(db: Db, actor: Actor, event: Uuid, seatIds: seq<SeatId>, key: string, now: Time,
                     holdSeconds: int, hold: Uuid, order: Uuid)
    returns (n: Option<NewHold>)
    requires hold !in db.store.holds && order !in db.store.orders
    ensures var db' := Reserve(db, actor, event, seatIds, key, now, holdSeconds, hold, order).db;
      && (n.Some? ==>
            db' == CommitHold(db, n.value) && n.value.now == now &&
            CanHold(db.store, n.value.hold, n.value.row, n.value.order, now, Keys(n.value.row.event, n.value.seats)))
      && (n.None? ==> db' == db)
  {
    hide CommitHold;
    var ik := IdemKey(actor, HoldOp, key);
    n := None;
    if CheckReserve(db, ik, event, seatIds, now) == Ok(None) {
      n := Some(ReserveRecord(db, ik, event, seatIds, now, holdSeconds, hold, order));
    }
  }

  lemma PersistShape(db: Db, c: Command, now: Time) returns (n: Option<NewHold>)
    requires DbOk(db, now)
    ensures var db' := Persist(db, c, now).db;
      && (n.Some? ==>
            db' == CommitHold(db, n.value) && n.value.now == now &&
            CanHold(db.store, n.value.hold, n.value.row, n.value.order, now, Keys(n.value.row.event, n.value.seats)))
      && (n.None? ==> db' == db)
  {
    hide CommitHold, Books, Recorded, EventsOk, OrdersKnown;
    n := None;
    if CheckPersist(db, c, now) == Ok(None) {
      BooksOwned(db.store, now);
      FreeForIsFree(db.store, now, Keys(c.event, c.seats), c.holdId);
      n := Some(PersistRecord(db, c, now));
    }
  }

  lemma CallbackShape(db: Db, c: Callback, now: Time)
    ensures PaymentCallback(db, c, now).db.store.holds.Keys == db.store.holds.Keys
  {
    hide Decide, ValidHold, PaymentDecision;
    if Linked(db.store, c.payment) {
      var o := db.store.payments[c.payment].order;
      DecideFrame(NoteOutcome(db, c), c.payment, o,
        PaymentDecision(db.store.orders[o].status, ValidHold(db.store, o, now), c.outcome));
    }
  }

  // ---------- disjointness is kept ----------

  lemma QuietHold(st: Store, st': Store, now: Time, closed: Closings, h: Uuid)
    requires OrdersStep(st, st') && st'.holds.Keys == st.holds.Keys && HasOrder(st, h)
    requires !st.holds[h].status.ACTIVE? <==> h in closed
    ensures HasOrder(st', h) && Start(st', h) == Start(st, h) &&
      End(st', Closed(closed, st, st', now), h) <= End(st, closed, h)
    ensures forall k :: Lists(st', h, k) <==> Lists(st, h, k)
  {
  }

  // A step that opens no hold can only shorten intervals.
  lemma QuietHistory(st: Store, st': Store, before: Time, now: Time, closed: Closings)
    requires HistoryOk(st, before, closed) && before <= now
    requires OrdersStep(st, st') && st'.holds.Keys == st.holds.Keys
    ensures HistoryOk(st', now, Closed(closed, st, st', now))
  {
    hide OrdersStep, Start, End, Closed;
    var closed' := Closed(closed, st, st', now);
    QuietClosings(st, st', before, now, closed);
    forall h | h in st'.holds
      ensures HasOrder(st', h) && Start(st', h) == Start(st, h) && End(st', closed', h) <= End(st, closed, h)
      ensures forall k :: Lists(st', h, k) <==> Lists(st, h, k)
    {
      QuietHold(st, st', now, closed, h);
    }
    forall a, b, k | a != b && Lists(st', a, k) && Lists(st', b, k)
      ensures Apart(st', closed', a, b)
    {
      assert Lists(st, a, k) && Lists(st, b, k);
      assert Apart(st, closed, a, b);
    }
  }

  lemma QuietClosings(st: Store, st': Store, before: Time, now: Time, closed: Closings)
    requires HistoryOk(st, before, closed) && before <= now && OrdersStep(st, st') && st'.holds.Keys == st.holds.Keys
    ensures var closed' := Closed(closed, st, st', now);
      && (forall h :: h in closed' ==> h in st'.holds && !st'.holds[h].status.ACTIVE? && closed'[h] <= now)
      && (forall h :: h in st'.holds && !st'.holds[h].status.ACTIVE? ==> h in closed')
  {
    hide Disjoint, HasOrder;
  }

  // Everyone else's interval on a seat the new hold takes is over.
  lemma PreviousHoldsOver(st: Store, now: Time, closed: Closings, n: NewHold, g: Uuid, k: SeatKey)
    requires Owned(st) && Current(st, now) && n.now == now
    requires forall h :: h in closed ==> closed[h] <= now
    requires HasOrder(st, g) && (!st.holds[g].status.ACTIVE? ==> g in closed)
    requires CanHold(st, n.hold, n.row, n.order, now, Keys(n.row.event, n.seats))
    requires k in Keys(n.row.event, n.seats) && Lists(st, g, k)
    ensures End(st, closed, g) <= now
  {
    if st.holds[g].status.ACTIVE? && st.holds[g].expiresAt > now {
      assert k in st.seats && st.seats[k].holdId == Some(g);
      LiveSeatNotTaken(st, n.hold, n.row, n.order, now, Keys(n.row.event, n.seats), g, k);
    }
  }

  lemma NewHoldHistory(db: Db, before: Time, now: Time, closed: Closings, n: NewHold)
    requires HistoryOk(db.store, before, closed) && before <= now && n.now == now
    requires Owned(db.store) && Current(db.store, now)
    requires CanHold(db.store, n.hold, n.row, n.order, now, Keys(n.row.event, n.seats))
    ensures HistoryOk(CommitHold(db, n).store, now, closed)
  {
    hide Owned, Current, CommitHold, CanHold, Start, End, Keys;
    var st, st' := db.store, CommitHold(db, n).store;
    CanHoldFresh(st, n);
    NewHoldFrame(db, n);
    forall h | h in st.holds
      ensures HasOrder(st', h) && Start(st', h) == Start(st, h) && End(st', closed, h) == End(st, closed, h)
      ensures forall k :: Lists(st', h, k) <==> Lists(st, h, k)
    {
      OtherHoldUntouched(db, n, h, closed);
    }
    forall a, b, k | a != b && Lists(st', a, k) && Lists(st', b, k)
      ensures Apart(st', closed, a, b)
    {
      if a == n.hold {
        NewHoldStart(db, n, k);
        PreviousHoldsOver(st, now, closed, n, b, k);
      } else if b == n.hold {
        NewHoldStart(db, n, k);
        PreviousHoldsOver(st, now, closed, n, a, k);
      } else {
        assert Lists(st, a, k) && Lists(st, b, k);
        assert Apart(st, closed, a, b);
      }
    }
  }

  lemma NewHoldFrame(db: Db, n: NewHold)
    ensures CommitHold(db, n).store.holds == db.store.holds[n.hold := n.row] &&
      HasOrder(CommitHold(db, n).store, n.hold)
    ensures CanHold(db.store, n.hold, n.row, n.order, n.now, Keys(n.row.event, n.seats)) ==> n.row.status.ACTIVE?
  {
  }

  lemma OtherHoldUntouched(db: Db, n: NewHold, h: Uuid, closed: Closings)
    requires HasOrder(db.store, h) && h != n.hold && n.order !in db.store.orders
    ensures var st, st' := db.store, CommitHold(db, n).store;
      && HasOrder(st', h) && Start(st', h) == Start(st, h) && End(st', closed, h) == End(st, closed, h)
      && (forall k :: Lists(st', h, k) <==> Lists(st, h, k))
  {
  }

  lemma NewHoldStart(db: Db, n: NewHold, k: SeatKey)
    requires Lists(CommitHold(db, n).store, n.hold, k)
    ensures Start(CommitHold(db, n).store, n.hold) == n.now && k in Keys(n.row.event, n.seats)
  {
  }

  lemma StepHistory(db: Db, before: Time, now: Time, s: Step, closed: Closings)
    requires DbOk(db, now) && Enabled(db, now, s) && HistoryOk(db.store, before, closed) && before <= now
    ensures var db' := Apply(db, now, s); HistoryOk(db'.store, now, Closed(closed, db.store, db'.store, now))
  {
    hide Lockstep, Owned, Current, Priced, Charged, Ticketed, Balanced, Recorded, EventsOk, OrdersKnown, Apply,
      HistoryOk, OrdersStep, SeatsStep, MoneyStep, CanHold;
    var n := StepShape(db, now, s);
    StepOk(db, now, s);
    if n.Some? {
      NewHoldHistory(db, before, now, closed, n.value);
      NothingCloses(db, n.value, closed);
    } else {
      QuietHistory(db.store, Apply(db, now, s).store, before, now, closed);
    }
  }

  lemma NothingCloses(db: Db, n: NewHold, closed: Closings)
    requires CanHold(db.store, n.hold, n.row, n.order, n.now, Keys(n.row.event, n.seats))
    ensures Closed(closed, db.store, CommitHold(db, n).store, n.now) == closed
  {
  }

  // Over every run, on every seat, hold intervals are pairwise disjoint.
  lemma {:induction false} IntervalsDisjoint(db: Db, now: Time, run: seq<Tick>, closed: Closings)
    requires DbOk(db, now) && Legal(db, now, run) && HistoryOk(db.store, now, closed)
    ensures HistoryOk(Exec(db, now, run).store, Clock(now, run), ExecClosings(db, now, run, closed))
    decreases |run|
  {
    hide DbOk, Enabled, Apply, HistoryOk, Closed;
    if run != [] {
      var t := run[0];
      DbOkLater(db, now, t.now);
      StepOk(db, t.now, t.step);
      StepHistory(db, now, t.now, t.step, closed);
      var db' := Apply(db, t.now, t.step);
      IntervalsDisjoint(db', t.now, run[1..], Closed(closed, db.store, db'.store, t.now));
    }
  }

  lemma HoldsNeverOverlap(db: Db, now: Time, run: seq<Tick>)
    requires Fresh(db) && Legal(db, now, run)
    ensures Disjoint(Exec(db, now, run).store, ExecClosings(db, now, run, map[]))
  {
    hide DbOk, Legal, Exec, ExecClosings, Disjoint;
    assert HistoryOk(db.store, now, map[]) by { FreshHistory(db, now); }
    FreshOk(db, now);
    IntervalsDisjoint(db, now, run, map[]);
  }

  lemma FreshHistory(db: Db, now: Time)
    requires Fresh(db)
    ensures HistoryOk(db.store, now, map[])
  {
  }
}
