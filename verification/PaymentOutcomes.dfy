// What payments and their callbacks answer and leave behind, in terms of rows; and over runs, that a
// payment succeeds only at a callback that names its order, amount and currency.
module PaymentOutcomes {
  import opened Domain
  import opened Sums
  import opened Commerce
  import opened CommerceProofs
  import opened Transactions
  import opened Records
  import opened Runs
  import opened StoreTheorems
  import opened Outcomes

  // ---------- initiating ----------

  // What a payment request under a new key answers and leaves behind: one payment per order, with the
  // requested outcome, delay and deliveries; a second request names the first payment.
  ghost predicate PaymentMade(db: Db, tx: Tx<Response>, ik: IdemKey, request: Request, now: Time, payment: Uuid)
    requires request.PaymentRequest?
  {
    var st := db.store; var order := request.order;
    var own := order in st.orders && st.orders[order].actor == ik.actor; var open := order !in st.paymentByOrder;
    && (tx.out.Err? ==> tx.db == db)
    && (tx.out == Err(OrderNotFound) <==> !own)
    && (own ==> (tx.out == Err(OrderNotPayable) <==> open && !Payable(st, order, now)))
    && (own && (!open || Payable(st, order, now)) ==>
          && tx.out == Ok(PaymentResponse(if open then payment else st.paymentByOrder[order], order))
          && tx.db == db.(idem := db.idem[ik := IdemRow(request, Some(tx.out.value))], store := tx.db.store)
          && (!open ==> tx.db.store == st)
          && (open ==> PaymentAdded(st, tx.db.store, payment, request, now)))
  }

  predicate Payable(st: Store, o: Uuid, now: Time)
    requires o in st.orders
  {
    st.orders[o].status.Pending? && !(st.orders[o].holdId in st.holds && st.holds[st.orders[o].holdId].expiresAt <= now)
  }

  ghost predicate PaymentAdded(st: Store, st': Store, payment: Uuid, request: Request, now: Time)
    requires request.PaymentRequest?
  {
    var row := PaymentRow(request.order, Awaiting, request.outcome, now + request.delay, request.duplicates);
    st' == st.(payments := st.payments[payment := row], paymentByOrder := st.paymentByOrder[request.order := payment])
  }

  lemma PayExactly(db: Db, now: Time, actor: Actor, order: Uuid, key: string, outcome: PaymentOutcome, delay: nat,
                   duplicates: nat, payment: Uuid)
    requires Reachable(db, now)
    ensures var tx := InitiatePayment(db, actor, order, key, outcome, delay, duplicates, now, payment);
      var ik, request := IdemKey(actor, PaymentOp, key), PaymentRequest(order, outcome, delay, duplicates);
      if ik in db.idem then KeyUsed(db, tx, ik, request) else PaymentMade(db, tx, ik, request, now, payment)
  {
    hide Reachable, PaymentMade;
    var ik := IdemKey(actor, PaymentOp, key);
    RecordedKey(db, now, ik);
    if ik !in db.idem {
      PayFresh(db, now, actor, order, key, outcome, delay, duplicates, payment);
    }
  }

  lemma PayFresh(db: Db, now: Time, actor: Actor, order: Uuid, key: string, outcome: PaymentOutcome, delay: nat,
                 duplicates: nat, payment: Uuid)
    requires IdemKey(actor, PaymentOp, key) !in db.idem
    ensures var tx := InitiatePayment(db, actor, order, key, outcome, delay, duplicates, now, payment);
      var ik, request := IdemKey(actor, PaymentOp, key), PaymentRequest(order, outcome, delay, duplicates);
      PaymentMade(db, tx, ik, request, now, payment)
  {
    hide OpenPayment, PaymentAdded;
    var request := PaymentRequest(order, outcome, delay, duplicates);
    assert PaymentAdded(db.store,
      OpenPayment(db.store, payment, PaymentRow(order, Awaiting, outcome, now + delay, duplicates)),
                        payment, request, now) by {
      NewPaymentRows(db.store, payment, request, now);
    }
  }

  lemma NewPaymentRows(st: Store, p: Uuid, request: Request, now: Time)
    requires request.PaymentRequest?
    ensures var row := PaymentRow(request.order, Awaiting, request.outcome, now + request.delay, request.duplicates);
      PaymentAdded(st, OpenPayment(st, p, row), p, request, now)
  {
  }

  // ---------- callbacks ----------

  predicate Agrees(st: Store, c: Callback) {
    && c.payment in st.payments && st.payments[c.payment].order in st.orders
    && c.order == st.payments[c.payment].order && c.amount == st.orders[c.order].total
    && c.currency == st.orders[c.order].currency
  }

  // Which seats an announcement names.
  ghost predicate NamesItems(p: Payload, st: Store, o: Uuid)
    requires o in st.orders && o in st.items
  {
    && p.SeatsChanged? && p.event == st.orders[o].event && p.seats.Some?
    && forall s :: s in p.seats.value <==> SeatKey(st.orders[o].event, s) in st.items[o]
  }

  ghost predicate NamesHeld(p: Payload, st: Store, o: Uuid)
    requires o in st.orders
  {
    && p.SeatsChanged? && p.event == st.orders[o].event && p.seats.Some?
    && forall s :: s in p.seats.value <==>
         SeatKey(st.orders[o].event, s) in st.seats &&
         st.seats[SeatKey(st.orders[o].event, s)].holdId == Some(st.orders[o].holdId)
  }

  // Exactly the order's items are sold to it and booked, the hold is consumed and the order PAID.
  ghost predicate SoldTo(st: Store, st': Store, p: Uuid, o: Uuid)
    requires p in st.payments && o in st.orders && o in st.items && st.orders[o].holdId in st.holds
  {
    var h := st.orders[o].holdId;
    && st'.seats.Keys == st.seats.Keys
    && (forall k :: k in st.seats ==>
          st'.seats[k] ==
          if k in st.items[o] then SeatRow(st.seats[k].price, None, None, Some(o), st.seats[k].version + 1)
            else st.seats[k])
    && (forall k :: k in st'.bookings <==> k in st.bookings || k in st.items[o])
    && (forall k :: k in st'.bookings ==> st'.bookings[k] == if k in st.items[o] then o else st.bookings[k])
    && st' == st.(seats := st'.seats, bookings := st'.bookings,
                  holds := st.holds[h := st.holds[h].(status := CONSUMED)],
                  orders := st.orders[o := st.orders[o].(status := Paid)],
                  payments := st.payments[p := st.payments[p].(status := Succeeded)])
  }

  // The seats that still carried the hold are free, an ACTIVE hold is closed, and the order and payment
  // have their final status; a refund adds one row.
  ghost predicate GivenUp(st: Store, st': Store, p: Uuid, o: Uuid, state: HoldStatus, status: OrderStatus,
                          paid: PaymentStatus)
    requires p in st.payments && o in st.orders
  {
    var h := st.orders[o].holdId;
    && st'.seats.Keys == st.seats.Keys
    && (forall k :: k in st.seats ==>
          st'.seats[k] == if st.seats[k].holdId == Some(h) then FreedRow(st.seats[k]) else st.seats[k])
    && st' == st.(seats := st'.seats, refunds := st'.refunds,
                  holds := if h in st.holds && st.holds[h].status.ACTIVE?
                           then st.holds[h := st.holds[h].(status := state)] else st.holds,
                  orders := st.orders[o := st.orders[o].(status := status)],
                  payments := st.payments[p := st.payments[p].(status := paid)])
    && st'.refunds == if status.RefundPending? then st.refunds[p := RefundRow(o, false)] else st.refunds
  }

  // The outbox grew by these events.
  ghost predicate Emitted(db: Db, db': Db, n: nat) {
    |db'.outbox| == |db.outbox| + n && db'.outbox[..|db.outbox|] == db.outbox
  }

  ghost predicate DecidedRows(db: Db, db': Db, c: Callback, d: Decision)
    requires Linked(db.store, c.payment)
  {
    var st := db.store; var st' := db'.store; var p := c.payment; var o := st.payments[p].order; var n := |db.outbox|;
    && db'.callbacks == db.callbacks[c.id := CallbackRow(p, c)]
    && db'.idem == db.idem && db'.commands == db.commands && db'.inbox == db.inbox && db'.refresh == db.refresh
    && match d
       case Book =>
         SoldTo(st, st', p, o) && Emitted(db, db', 2) && db'.outbox[n] == OrderPaid(o) &&
           NamesItems(db'.outbox[n + 1], st, o)
       case Refund =>
         && GivenUp(st, st', p, o, EXPIRED, RefundPending, Succeeded) && Emitted(db, db', 3)
         && NamesHeld(db'.outbox[n], st, o) && db'.outbox[n + 1] == RefundRequested(p, o) &&
             NamesItems(db'.outbox[n + 2], st, o)
       case Fail =>
         && GivenUp(st, st', p, o, RELEASED, Failed, Declined) && Emitted(db, db', 2)
         && NamesHeld(db'.outbox[n], st, o) && NamesItems(db'.outbox[n + 1], st, o)
       case Unchanged =>
         && st' == st.(payments := st.payments[p := st.payments[p].(status := Declined)])
         && Emitted(db, db', 1) && NamesItems(db'.outbox[n], st, o)
  }

  lemma ItemsNamed(db: Db, now: Time, o: Uuid)
    requires DbOk(db, now) && o in db.store.orders
    ensures o in db.store.items && NamesItems(OrderSeats(db.store, o), db.store, o)
  {
    hide Owned, Lockstep, Charged, Ticketed, Current, Recorded, EventsOk, OrdersKnown, MapSum;
    assert ItemsOk(db.store, o);
    forall k | k in db.store.items[o]
      ensures k == SeatKey(db.store.orders[o].event, k.seat)
    {
    }
  }

  lemma BookRows(db: Db, now: Time, p: Uuid, o: Uuid)
    requires DbOk(db, now) && Bookable(db.store, o) && p in db.store.payments && o in db.store.items &&
      o in db.store.orders
    requires db.store.orders[o].holdId in db.store.holds
    ensures SoldTo(db.store, BookOrder(RecordOutcome(db.store, p, OutcomeSucceeded), o), p, o)
  {
    hide DbOk, SoldTo;
    forall k | k in db.store.seats
      ensures db.store.seats[k].holdId == Some(db.store.orders[o].holdId) <==> k in db.store.items[o]
    {
      SeatIsOk(db, now, k);
      BookedRowsAreItems(db.store, o, k);
    }
    SellsItems(db.store, p, o);
  }

  lemma SellsItems(st: Store, p: Uuid, o: Uuid)
    requires p in st.payments && o in st.orders && o in st.items && st.orders[o].holdId in st.holds
    requires forall k :: k in st.seats ==> (st.seats[k].holdId == Some(st.orders[o].holdId) <==> k in st.items[o])
    ensures SoldTo(st, BookOrder(RecordOutcome(st, p, OutcomeSucceeded), o), p, o)
  {
  }

  lemma SeatIsOk(db: Db, now: Time, k: SeatKey)
    requires DbOk(db, now) && k in db.store.seats
    ensures SeatOk(db.store, k)
  {
    hide Lockstep, Priced, Charged, Ticketed, Current, Recorded, EventsOk, OrdersKnown;
  }

  // The seats of a pending order's hold are its own as long as the hold lasts.
  lemma ValidExactly(db: Db, now: Time, o: Uuid)
    requires DbOk(db, now) && o in db.store.orders && db.store.orders[o].status.Pending?
    ensures o in db.store.items && db.store.orders[o].holdId in db.store.holds
    ensures ValidHold(db.store, o, now) <==>
      db.store.holds[db.store.orders[o].holdId].expiresAt > now && db.store.items[o].Keys != {}
  {
    hide DbOk;
    OrderIsOk(db, now, o);
    var h := db.store.orders[o].holdId;
    if db.store.holds[h].expiresAt > now {
      forall k | k in db.store.items[o] && k in db.store.seats
        ensures SeatHeldBy(db.store.seats[k], h, now)
      {
        SeatIsOk(db, now, k);
        LiveSeat(db, now, h, k);
      }
    }
  }

  lemma LiveSeat(db: Db, now: Time, h: Uuid, k: SeatKey)
    requires DbOk(db, now) && h in db.store.holds && db.store.holds[h].status.ACTIVE? &&
      db.store.holds[h].expiresAt > now
    requires h in db.store.orderByHold && db.store.orderByHold[h] in db.store.items &&
      k in db.store.items[db.store.orderByHold[h]]
    ensures k in db.store.seats && db.store.seats[k].holdId == Some(h)
  {
    hide Owned, Lockstep, Priced, Charged, Ticketed, Recorded, EventsOk, OrdersKnown;
  }

  // What the decision must be.
  function Ruling(st: Store, o: Uuid, outcome: PaymentOutcome, now: Time): Decision
    requires o in st.orders && o in st.items && st.orders[o].holdId in st.holds
  {
    var pending := st.orders[o].status.Pending?;
    if outcome.OutcomeFailed? then (if pending then Fail else Unchanged)
    else if pending && st.holds[st.orders[o].holdId].expiresAt > now && st.items[o].Keys != {} then Book else Refund
  }

  lemma RulingIsDecided(db: Db, now: Time, c: Callback)
    requires DbOk(db, now) && Linked(db.store, c.payment) && !db.store.payments[c.payment].status.Succeeded?
    ensures var o := db.store.payments[c.payment].order;
      && PaymentDecision(db.store.orders[o].status, ValidHold(db.store, o, now), c.outcome) == Ruling(db.store, o,
          c.outcome, now)
      && !IsRefund(db.store.orders[o].status) && !IsPaid(db.store.orders[o].status) && c.payment !in db.store.refunds
  {
    hide DbOk, Books;
    var o := db.store.payments[c.payment].order;
    BooksOf(db, now);
    UndecidedPayment(db.store, now, c.payment);
    UndecidedHasNoRefund(db.store, now, c.payment);
    if db.store.orders[o].status.Pending? {
      ValidExactly(db, now, o);
    }
  }

  lemma BooksOf(db: Db, now: Time)
    requires DbOk(db, now)
    ensures Books(db.store, now)
  {
    hide Books;
  }

  // Releasing within a callback: the rows of ReleaseFrees, whatever the payment row says by then.
  lemma NotedRelease(db: Db, now: Time, c: Callback, state: HoldStatus)
    requires DbOk(db, now) && Linked(db.store, c.payment)
    ensures var o := db.store.payments[c.payment].order; var noted := NoteOutcome(db, c);
      Released(noted, ReleaseOrder(noted, o, state), o, state)
  {
    hide DbOk, Released, ReleaseOrder;
    var o := db.store.payments[c.payment].order;
    var noted := NoteOutcome(db, c);
    forall k | k in noted.store.seats && noted.store.seats[k].holdId == Some(noted.store.orders[o].holdId)
      ensures noted.store.seats[k].bookedOrder.None? && k == SeatKey(noted.store.orders[o].event, k.seat)
    {
      HeldSeatOfOrder(db, now, o, k);
    }
    FreesRows(noted, o, state);
  }

  lemma RefundRowsOf(db: Db, now: Time, c: Callback)
    requires DbOk(db, now) && Linked(db.store, c.payment) && c.payment !in db.store.refunds &&
      c.outcome.OutcomeSucceeded?
    ensures var o := db.store.payments[c.payment].order;
      GivenUp(db.store, Decide(NoteOutcome(db, c), c.payment, o, Refund).store, c.payment, o, EXPIRED, RefundPending,
        Succeeded)
  {
    hide DbOk;
    NotedRelease(db, now, c, EXPIRED);
  }

  lemma FailRowsOf(db: Db, now: Time, c: Callback)
    requires DbOk(db, now) && Linked(db.store, c.payment) && c.outcome.OutcomeFailed?
    ensures var o := db.store.payments[c.payment].order;
      GivenUp(db.store, Decide(NoteOutcome(db, c), c.payment, o, Fail).store, c.payment, o, RELEASED, Failed, Declined)
  {
    hide DbOk;
    NotedRelease(db, now, c, RELEASED);
  }

  lemma GivenUpEvents(db: Db, now: Time, c: Callback)
    requires DbOk(db, now) && Linked(db.store, c.payment)
    ensures var o := db.store.payments[c.payment].order; var n := |db.outbox|;
      var refund := Decide(NoteOutcome(db, c), c.payment, o, Refund);
      && Emitted(db, refund, 2) && NamesHeld(refund.outbox[n], db.store, o)
      && refund.outbox[n + 1] == RefundRequested(c.payment, o)
    ensures var o := db.store.payments[c.payment].order; var n := |db.outbox|;
      var fail := Decide(NoteOutcome(db, c), c.payment, o, Fail);
      Emitted(db, fail, 1) && NamesHeld(fail.outbox[n], db.store, o)
  {
    hide DbOk, Commerce.Release, RefundOrder, FailOrder;
    NotedRelease(db, now, c, EXPIRED);
    NotedRelease(db, now, c, RELEASED);
  }

  lemma DecideElsewhere(db: Db, c: Callback, d: Decision)
    requires Linked(db.store, c.payment)
    ensures var o := db.store.payments[c.payment].order; var db' := Decide(NoteOutcome(db, c), c.payment, o, d);
      && db'.callbacks == db.callbacks[c.id := CallbackRow(c.payment, c)]
      && db'.idem == db.idem && db'.commands == db.commands && db'.inbox == db.inbox && db'.refresh == db.refresh
  {
    hide Commerce.Release, RefundOrder, FailOrder, BookOrder, SeatsOf, ReleasedKeys;
  }

  lemma BookOf(db: Db, now: Time, c: Callback)
    requires DbOk(db, now) && Linked(db.store, c.payment) && !db.store.payments[c.payment].status.Succeeded?
    requires Ruling(db.store, db.store.payments[c.payment].order, c.outcome, now).Book?
    ensures var o := db.store.payments[c.payment].order;
      && SoldTo(db.store, Decide(NoteOutcome(db, c), c.payment, o, Book).store, c.payment, o)
      && Decide(NoteOutcome(db, c), c.payment, o, Book).outbox == db.outbox + [OrderPaid(o)]
      && !DoubleBooking(db.store, o)
  {
    hide DbOk, Books, SoldTo, BookOrder, DoubleBooking;
    var o := db.store.payments[c.payment].order;
    ValidExactly(db, now, o);
    BooksOf(db, now);
    UndecidedPayment(db.store, now, c.payment);
    ValidHoldBookable(db.store, o, now);
    BookRows(db, now, c.payment, o);
    BooksOwned(db.store, now);
    NoDoubleBooking(db.store, o, now);
  }

  // The whole effect of a decided callback.
  lemma SettleRows(db: Db, now: Time, c: Callback)
    requires DbOk(db, now) && Linked(db.store, c.payment) && !db.store.payments[c.payment].status.Succeeded?
    ensures var d := Ruling(db.store, db.store.payments[c.payment].order, c.outcome, now); var tx := Settle(db, c, now);
      tx.out == Ok(Decided(d)) && DecidedRows(db, tx.db, c, d)
  {
    hide DbOk, Decide, ValidHold, PaymentDecision, SoldTo, GivenUp, NamesItems, NamesHeld, DoubleBooking, OrderSeats,
      Ruling;
    var o := db.store.payments[c.payment].order;
    var d := Ruling(db.store, o, c.outcome, now);
    RulingIsDecided(db, now, c);
    ItemsNamed(db, now, o);
    DecideElsewhere(db, c, d);
    RulingOutcome(db.store, o, c.outcome, now);
    match d {
      case Book => BookOf(db, now, c);
      case Refund =>
        RefundRowsOf(db, now, c);
        GivenUpEvents(db, now, c);
      case Fail =>
        FailRowsOf(db, now, c);
        GivenUpEvents(db, now, c);
      case Unchanged => UnchangedRows(db, c);
    }
  }

  lemma RulingOutcome(st: Store, o: Uuid, outcome: PaymentOutcome, now: Time)
    requires o in st.orders && o in st.items && st.orders[o].holdId in st.holds
    ensures var d := Ruling(st, o, outcome, now);
      (d.Book? || d.Refund? ==> outcome.OutcomeSucceeded?) && (d.Fail? || d.Unchanged? ==> outcome.OutcomeFailed?)
  {
  }

  lemma UnchangedRows(db: Db, c: Callback)
    requires Linked(db.store, c.payment) && c.outcome.OutcomeFailed?
    ensures var o := db.store.payments[c.payment].order; var db' := Decide(NoteOutcome(db, c), c.payment, o, Unchanged);
      var declined := db.store.payments[c.payment].(status := Declined);
      && db'.store == db.store.(payments := db.store.payments[c.payment := declined])
      && db'.outbox == db.outbox
  {
  }

  // Every answer and every row of one callback.
  ghost predicate CallbackAnswered(db: Db, now: Time, c: Callback, tx: Tx<CallbackReply>) {
    var st := db.store; var known := c.payment in st.payments;
    && (tx.out.Err? ==> tx.db == db)
    && (tx.out == Err(PaymentNotFound) <==> !known)
    && (tx.out == Err(PaymentMismatch) <==> known && !Agrees(st, c))
    && (tx.out == Err(CallbackMismatch) <==> Agrees(st, c) && c.id in db.callbacks && db.callbacks[c.id].payload != c)
    && (Agrees(st, c) && c.id in db.callbacks && db.callbacks[c.id].payload == c ==> tx == Tx(db, Ok(Duplicate)))
    && (Agrees(st, c) && c.id !in db.callbacks && st.payments[c.payment].status.Succeeded? ==>
          tx == Tx(db.(callbacks := db.callbacks[c.id := CallbackRow(c.payment, c)]), Ok(Duplicate)))
    && (Agrees(st, c) && c.id !in db.callbacks && !st.payments[c.payment].status.Succeeded? ==>
          && Linked(st, c.payment)
          && var d := Ruling(st, st.payments[c.payment].order, c.outcome, now);
             tx.out == Ok(Decided(d)) && DecidedRows(db, tx.db, c, d))
  }

  // The order of the checks.
  lemma CallbackCases(db: Db, now: Time, c: Callback)
    requires c.payment in db.store.payments && Linked(db.store, c.payment)
    ensures var tx := PaymentCallback(db, c, now); var st := db.store;
      && (!Agrees(st, c) ==> tx == Abort(db, PaymentMismatch))
      && (Agrees(st, c) && c.id in db.callbacks ==>
            tx == if db.callbacks[c.id].payload != c then Abort(db, CallbackMismatch) else Tx(db, Ok(Duplicate)))
      && (Agrees(st, c) && c.id !in db.callbacks && st.payments[c.payment].status.Succeeded? ==>
            tx == Tx(db.(callbacks := db.callbacks[c.id := CallbackRow(c.payment, c)]), Ok(Duplicate)))
      && (Agrees(st, c) && c.id !in db.callbacks && !st.payments[c.payment].status.Succeeded? ==>
            tx == Settle(db, c, now))
  {
    hide Settle;
  }

  lemma UnknownPayment(db: Db, now: Time, c: Callback)
    requires c.payment !in db.store.payments
    ensures PaymentCallback(db, c, now) == Abort(db, PaymentNotFound)
  {
  }

  lemma CallbackRows(db: Db, now: Time, c: Callback)
    requires DbOk(db, now)
    ensures CallbackAnswered(db, now, c, PaymentCallback(db, c, now))
  {
    hide DbOk, Books, PaymentCallback, Settle, DecidedRows, Ruling;
    if c.payment in db.store.payments {
      BooksOf(db, now);
      PaymentsAreLinked(db.store, now, c.payment);
      CallbackCases(db, now, c);
      if !db.store.payments[c.payment].status.Succeeded? {
        SettleRows(db, now, c);
      }
    } else {
      UnknownPayment(db, now, c);
    }
  }

  // Callback: every answer and every row, for every callback in every reachable state.
  lemma CallbackExactly(db: Db, now: Time, c: Callback)
    requires Reachable(db, now)
    ensures CallbackAnswered(db, now, c, PaymentCallback(db, c, now))
  {
    hide Reachable, DbOk, PaymentCallback, CallbackAnswered;
    ReachableOk(db, now);
    CallbackRows(db, now, c);
  }

  // ---------- over runs ----------

  // The step is a successful callback of this payment that names its order, amount and currency.
  predicate Pays(st: Store, s: Step, p: Uuid) {
    s.DoCallback? && s.callback.payment == p && s.callback.outcome.OutcomeSucceeded? && Agrees(st, s.callback)
  }

  predicate Success(st: Store, p: Uuid) { p in st.payments && st.payments[p].status.Succeeded? }

  ghost predicate PaidIn(db: Db, now: Time, run: seq<Tick>, p: Uuid)
    requires Legal(db, now, run)
    decreases |run|
  {
    run != [] &&
    (Pays(db.store, run[0].step, p) || PaidIn(Apply(db, run[0].now, run[0].step), run[0].now, run[1..], p))
  }

  lemma QuietPayments(db: Db, now: Time, s: Step, p: Uuid)
    requires DbOk(db, now) && Enabled(db, now, s) && !s.DoCallback?
    ensures Success(Apply(db, now, s).store, p) ==> Success(db.store, p)
  {
    hide DbOk, Reserve, Persist, Checkout, ReleaseHold, ExpireAll, IsDueBatch, InitiatePayment, Consume;
    match s {
      case DoReserve(actor, event, seatIds, key, holdSeconds, hold, order) => ReservePayments(db, now, s);
      case DoPersist(c) => PersistPayments(db, c, now);
      case DoExpire(_, _, batch) => ExpirePayments(db, now, s);
      case _ => OtherPayments(db, now, s, p);
    }
  }

  lemma OtherPayments(db: Db, now: Time, s: Step, p: Uuid)
    requires Enabled(db, now, s) && (s.DoCheckout? || s.DoRelease? || s.DoPay? || s.DoConsume?)
    ensures Success(Apply(db, now, s).store, p) ==> Success(db.store, p)
  {
    hide Checkout, ReleaseHold, InitiatePayment, Consume, IsDueBatch;
    match s {
      case DoCheckout(actor, hold, key) => CheckoutPayments(db, actor, hold, key, now);
      case DoRelease(actor, hold) => ReleasePayments(db, actor, hold);
      case DoPay(actor, order, key, outcome, delay, duplicates, payment) =>
        NewPayments(db, actor, order, key, outcome, delay, duplicates, now, payment);
      case DoConsume(id) => DeliveryPayments(db, Envelope(id, 1, db.outbox[id]), now);
    }
  }

  lemma CheckoutPayments(db: Db, actor: Actor, hold: Uuid, key: string, now: Time)
    ensures Checkout(db, actor, hold, key, now).db.store == db.store
  {
  }

  lemma ReleasePayments(db: Db, actor: Actor, hold: Uuid)
    ensures ReleaseHold(db, actor, hold).db.store.payments == db.store.payments
  {
    hide ReleaseSeats, CloseHold, SeatsOf, ReleasedKeys;
  }

  lemma NewPayments(db: Db, actor: Actor, order: Uuid, key: string, outcome: PaymentOutcome, delay: nat,
                    duplicates: nat,
                    now: Time, payment: Uuid)
    ensures var ps := InitiatePayment(db, actor, order, key, outcome, delay, duplicates, now,
      payment).db.store.payments;
      forall p :: p in ps ==> ps[p].status.Awaiting? || (p in db.store.payments && ps[p] == db.store.payments[p])
  {
  }

  lemma DeliveryPayments(db: Db, e: Envelope, now: Time)
    ensures Consume(db, e, now).db.store.payments == db.store.payments
  {
    hide Consume;
    ConsumeExactly(db, now, e);
  }

  lemma CommitPayments(db: Db, n: NewHold)
    ensures CommitHold(db, n).store.payments == db.store.payments
  {
  }

  lemma ReservePayments(db: Db, now: Time, s: Step)
    requires s.DoReserve? && Enabled(db, now, s)
    ensures Apply(db, now, s).store.payments == db.store.payments
  {
    hide CommitHold;
    var ik := IdemKey(s.actor, HoldOp, s.key);
    if CheckReserve(db, ik, s.event, s.seatIds, now) == Ok(None) {
      CommitPayments(db, ReserveRecord(db, ik, s.event, s.seatIds, now, s.holdSeconds, s.hold, s.order));
    }
  }

  lemma PersistPayments(db: Db, c: Command, now: Time)
    ensures Persist(db, c, now).db.store.payments == db.store.payments
  {
    hide CommitHold;
    if CheckPersist(db, c, now) == Ok(None) {
      CommitPayments(db, PersistRecord(db, c, now));
    }
  }

  lemma ExpirePayments(db: Db, now: Time, s: Step)
    requires s.DoExpire? && Enabled(db, now, s)
    ensures Apply(db, now, s).store.payments == db.store.payments
  {
    hide ExpireAll;
    ExpireKeepsPayments(db, s.batch);
  }

  lemma {:induction false} ExpireKeepsPayments(db: Db, batch: seq<Uuid>)
    requires forall o :: o in batch ==> o in db.store.orders
    ensures ExpireAll(db, batch).store.payments == db.store.payments
  {
    hide ReleaseSeats, CloseHold, SeatsOf, ReleasedKeys;
    if batch != [] {
      ExpireKeepsPayments(db, batch[..|batch| - 1]);
    }
  }

  // A payment turns SUCCEEDED only in a callback that names its order, amount and currency.
  lemma CallbackPays(db: Db, now: Time, c: Callback, p: Uuid)
    requires DbOk(db, now) && Success(PaymentCallback(db, c, now).db.store, p) && !Success(db.store, p)
    ensures Pays(db.store, DoCallback(c), p)
  {
    hide DbOk, PaymentCallback, DecidedRows, Ruling;
    CallbackRows(db, now, c);
    if Agrees(db.store, c) && c.id !in db.callbacks && !db.store.payments[c.payment].status.Succeeded? {
      var o := db.store.payments[c.payment].order;
      RulingOutcome(db.store, o, c.outcome, now);
      DecidedPayments(db, PaymentCallback(db, c, now).db, c, Ruling(db.store, o, c.outcome, now));
    }
  }

  lemma DecidedPayments(db: Db, db': Db, c: Callback, d: Decision)
    requires Linked(db.store, c.payment) && DecidedRows(db, db', c, d)
    ensures var status := if d.Book? || d.Refund? then Succeeded else Declined;
      db'.store.payments == db.store.payments[c.payment := db.store.payments[c.payment].(status := status)]
  {
    hide NamesItems, NamesHeld, Emitted;
  }

  lemma StepPays(db: Db, now: Time, s: Step, p: Uuid)
    requires DbOk(db, now) && Enabled(db, now, s) && Success(Apply(db, now, s).store, p) && !Success(db.store, p)
    ensures Pays(db.store, s, p)
  {
    hide DbOk, Success, Pays, PaymentCallback;
    if s.DoCallback? {
      CallbackPays(db, now, s.callback, p);
    } else {
      QuietPayments(db, now, s, p);
    }
  }

  // Over every run: no payment succeeds without such a callback.
  lemma {:induction false} SuccessWasPaid(db: Db, now: Time, run: seq<Tick>, p: Uuid)
    requires DbOk(db, now) && Legal(db, now, run) && !Success(db.store, p) && Success(Exec(db, now, run).store, p)
    ensures PaidIn(db, now, run, p)
    decreases |run|
  {
    hide DbOk, Success, Pays, Enabled, Apply;
    if run != [] {
      var t := run[0];
      DbOkLater(db, now, t.now);
      StepOk(db, t.now, t.step);
      if Success(Apply(db, t.now, t.step).store, p) {
        StepPays(db, t.now, t.step, p);
      } else {
        SuccessWasPaid(Apply(db, t.now, t.step), t.now, run[1..], p);
      }
    }
  }

  // ---------- deliveries ----------

  // What a delivery answers, and what it leaves beside the refresh queue.
  lemma ConsumeExactly(db: Db, now: Time, e: Envelope)
    ensures var tx := Consume(db, e, now); var st := db.store;
      && (tx.out.Err? ==> tx.db == db)
      && (e.schema != 1 <==> tx.out == Err(UnsupportedSchema))
      && (e.schema == 1 && e.id in db.inbox ==> tx == Tx(db, Ok(())))
      && (e.schema == 1 && e.id !in db.inbox ==>
            && (tx.out == Err(UnknownEvent) <==> e.payload.Unknown?)
            && (tx.out == Err(ForeignKeyViolation) <==> e.payload.SeatsChanged? && e.payload.event !in st.events)
            && (tx.out == Err(NoPaidOrder) <==>
                  e.payload.OrderPaid? && !(e.payload.order in st.orders && IsPaid(st.orders[e.payload.order].status)))
            && (tx.out.Ok? ==>
                  && tx.db.inbox == db.inbox + {e.id}
                  && tx.db.idem == db.idem && tx.db.commands == db.commands && tx.db.callbacks == db.callbacks
                  && tx.db.outbox == (if e.payload.OrderPaid? then db.outbox + [TicketsIssued(e.payload.order)]
                      else db.outbox)
                  && (!e.payload.SeatsChanged? ==> tx.db.refresh == db.refresh)
                  && (e.payload.SeatsChanged? ==>
                        tx.db.refresh == RequestRefresh(db.refresh, e.payload.event, e.payload.seats, now))
                  && (e.payload.SeatsChanged? || e.payload.TicketsIssued? ==> tx.db.store == st)
                  && (e.payload.OrderPaid? ==> Ticketing(st, tx.db.store, e.payload.order))
                  && (e.payload.RefundRequested? ==> Repaid(st, tx.db.store, e.payload.payment, e.payload.refundOf))))
  {
  }

  // Every booking of the order has its ticket, and the order is FULFILLED.
  ghost predicate Ticketing(st: Store, st': Store, o: Uuid) {
    && o in st.orders
    && (forall k :: k in st'.tickets <==> k in st.tickets || (k in st.bookings && st.bookings[k] == o))
    && st' == st.(tickets := st'.tickets, orders := st.orders[o := st.orders[o].(status := Fulfilled)])
  }

  // The refund request is settled and a REFUND_PENDING order REFUNDED.
  ghost predicate Repaid(st: Store, st': Store, p: Uuid, o: Uuid) {
    && (forall q :: q in st'.refunds <==> q in st.refunds)
    && (forall q :: q in st.refunds ==>
          st'.refunds[q] == if q == p then RefundRow(st.refunds[q].order, true) else st.refunds[q])
    && (forall q :: q in st'.orders <==> q in st.orders)
    && (forall q :: q in st.orders ==>
          st'.orders[q] ==
          if q == o && st.orders[q].status.RefundPending? then st.orders[q].(status := Refunded) else st.orders[q])
    && st' == st.(refunds := st'.refunds, orders := st'.orders)
  }
}
