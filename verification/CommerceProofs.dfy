// Every row-level write keeps the ownership, lockstep, payment, ticket and currency parts of `Sound`.
// Each part is proved from the parts it needs and nothing else.
module CommerceProofs {
  import opened Domain
  import opened Sums
  import opened Commerce

  lemma TimePasses(st: Store, now: Time, later: Time)
    requires Current(st, now) && now <= later
    ensures Current(st, later)
  {
  }

  // ---------- opening a hold ----------

  ghost predicate CanHold(st: Store, h: Uuid, hold: HoldRow, o: Uuid, now: Time, keys: set<SeatKey>) {
    && h !in st.holds && o !in st.orders && hold.status.ACTIVE?
    && keys <= st.seats.Keys
    && (forall k :: k in keys ==> k.event == hold.event && Free(st.seats[k], now))
  }

  lemma CreateHoldSeat(st: Store, h: Uuid, hold: HoldRow, o: Uuid, total: nat, currency: string, now: Time,
                       keys: set<SeatKey>, k: SeatKey)
    requires CanHold(st, h, hold, o, now, keys) && k in st.seats && SeatOk(st, k)
    requires st.seats[k].holdId.Some? ==> HoldOk(st, st.seats[k].holdId.value)
    ensures SeatOk(CreateHold(st, h, hold, o, total, currency, now, keys), k)
  {
  }

  lemma CreateHoldOwned(st: Store, h: Uuid, hold: HoldRow, o: Uuid, total: nat, currency: string, now: Time,
                        keys: set<SeatKey>)
    requires Owned(st) && Lockstep(st) && CanHold(st, h, hold, o, now, keys)
    ensures Owned(CreateHold(st, h, hold, o, total, currency, now, keys))
  {
    var st' := CreateHold(st, h, hold, o, total, currency, now, keys);
    forall k | k in st'.seats
      ensures SeatOk(st', k)
    {
      CreateHoldSeat(st, h, hold, o, total, currency, now, keys, k);
    }
    forall k | k in st'.bookings
      ensures BookingOk(st', k)
    {
      assert BookingOk(st, k);
    }
  }

  lemma CreateHoldOneOrder(st: Store, h: Uuid, hold: HoldRow, o: Uuid, total: nat, currency: string, now: Time,
                           keys: set<SeatKey>, q: Uuid)
    requires CanHold(st, h, hold, o, now, keys) && q in st.orders && OrderOk(st, q)
    ensures OrderOk(CreateHold(st, h, hold, o, total, currency, now, keys), q)
  {
  }

  lemma CreateHoldPriced(st: Store, h: Uuid, hold: HoldRow, o: Uuid, total: nat, currency: string, now: Time,
                         keys: set<SeatKey>)
    requires Priced(st) && CanHold(st, h, hold, o, now, keys) && total == MapSum(Prices(st.seats, keys))
    ensures Priced(CreateHold(st, h, hold, o, total, currency, now, keys))
  {
    var st' := CreateHold(st, h, hold, o, total, currency, now, keys);
    forall q | q in st'.orders
      ensures ItemsOk(st', q)
    {
      assert q != o ==> ItemsOk(st, q);
    }
  }

  lemma CreateHoldLockstep(st: Store, h: Uuid, hold: HoldRow, o: Uuid, total: nat, currency: string, now: Time,
                           keys: set<SeatKey>)
    requires Lockstep(st) && CanHold(st, h, hold, o, now, keys)
    ensures Lockstep(CreateHold(st, h, hold, o, total, currency, now, keys))
  {
    var st' := CreateHold(st, h, hold, o, total, currency, now, keys);
    forall q | q in st'.orders
      ensures OrderOk(st', q)
    {
      if q != o {
        CreateHoldOneOrder(st, h, hold, o, total, currency, now, keys, q);
      }
    }
    forall g | g in st'.holds
      ensures HoldOk(st', g)
    {
      if g != h {
        assert HoldOk(st, g);
      }
    }
  }

  lemma CreateHoldCharged(st: Store, h: Uuid, hold: HoldRow, o: Uuid, total: nat, currency: string, now: Time,
                          keys: set<SeatKey>)
    requires Charged(st) && CanHold(st, h, hold, o, now, keys)
    ensures Charged(CreateHold(st, h, hold, o, total, currency, now, keys))
  {
    var st' := CreateHold(st, h, hold, o, total, currency, now, keys);
    forall p | p in st'.payments
      ensures PaymentOk(st', p)
    {
      assert PaymentOk(st, p);
    }
    forall p | p in st'.refunds
      ensures RefundOk(st', p)
    {
      assert RefundOk(st, p);
    }
    forall q | q in st'.orders
      ensures ChargedOk(st', q)
    {
      assert q != o ==> ChargedOk(st, q);
    }
  }

  lemma CreateHoldTicketed(st: Store, h: Uuid, hold: HoldRow, o: Uuid, total: nat, currency: string, now: Time,
                           keys: set<SeatKey>)
    requires Ticketed(st) && Owned(st) && CanHold(st, h, hold, o, now, keys)
    ensures Ticketed(CreateHold(st, h, hold, o, total, currency, now, keys))
  {
    forall k | k in st.bookings
      ensures st.bookings[k] in st.orders
    {
      assert BookingOk(st, k);
    }
  }

  // The seats of a new hold were free, so no live hold loses a seat to it.
  lemma LiveSeatNotTaken(st: Store, h: Uuid, hold: HoldRow, o: Uuid, now: Time, keys: set<SeatKey>, g: Uuid, k: SeatKey)
    requires CanHold(st, h, hold, o, now, keys)
    requires g in st.holds && st.holds[g].expiresAt > now
    requires k in st.seats && SeatOk(st, k) && st.seats[k].holdId == Some(g)
    ensures k !in keys
  {
  }

  lemma CreateHoldCurrent(st: Store, h: Uuid, hold: HoldRow, o: Uuid, total: nat, currency: string, now: Time,
                          keys: set<SeatKey>)
    requires Owned(st) && Lockstep(st) && Current(st, now) && CanHold(st, h, hold, o, now, keys)
    ensures Current(CreateHold(st, h, hold, o, total, currency, now, keys), now)
  {
    hide Priced, Charged, Ticketed;
    var st' := CreateHold(st, h, hold, o, total, currency, now, keys);
    forall g, k | g in st'.holds && st'.holds[g].status.ACTIVE? && st'.holds[g].expiresAt > now &&
                  g in st'.orderByHold && st'.orderByHold[g] in st'.items && k in st'.items[st'.orderByHold[g]]
      ensures k in st'.seats && st'.seats[k].holdId == Some(g)
    {
      if g != h {
        assert HoldOk(st, g);
        LiveSeatNotTaken(st, h, hold, o, now, keys, g, k);
      }
    }
  }

  lemma CreateHoldSound(st: Store, h: Uuid, hold: HoldRow, o: Uuid, total: nat, currency: string, now: Time,
                        keys: set<SeatKey>)
    requires Sound(st, now) && CanHold(st, h, hold, o, now, keys)
    requires total == MapSum(Prices(st.seats, keys))
    ensures Sound(CreateHold(st, h, hold, o, total, currency, now, keys), now)
  {
    CreateHoldOwned(st, h, hold, o, total, currency, now, keys);
    CreateHoldLockstep(st, h, hold, o, total, currency, now, keys);
    CreateHoldPriced(st, h, hold, o, total, currency, now, keys);
    CreateHoldCharged(st, h, hold, o, total, currency, now, keys);
    CreateHoldTicketed(st, h, hold, o, total, currency, now, keys);
    CreateHoldCurrent(st, h, hold, o, total, currency, now, keys);
  }

  // ---------- releasing an order's hold ----------

  ghost predicate Closing(state: HoldStatus) { state.RELEASED? || state.EXPIRED? }

  lemma ReleaseSeat(st: Store, o: Uuid, state: HoldStatus, k: SeatKey)
    requires o in st.orders && Closing(state) && OrderOk(st, o) && k in st.seats && SeatOk(st, k)
    ensures SeatOk(Release(st, o, state), k)
  {
  }

  lemma ReleaseOwned(st: Store, o: Uuid, state: HoldStatus)
    requires Owned(st) && o in st.orders && OrderOk(st, o) && Closing(state)
    ensures Owned(Release(st, o, state))
  {
    var st' := Release(st, o, state);
    forall k | k in st'.seats
      ensures SeatOk(st', k)
    {
      ReleaseSeat(st, o, state, k);
    }
    forall k | k in st'.bookings
      ensures BookingOk(st', k)
    {
      assert BookingOk(st, k);
    }
  }

  lemma ReleaseOneOrder(st: Store, o: Uuid, state: HoldStatus, q: Uuid)
    requires o in st.orders && Closing(state) && OrderOk(st, o) && q in st.orders && OrderOk(st, q)
    ensures OrderOk(Release(st, o, state), q)
  {
  }

  lemma ReleasePriced(st: Store, o: Uuid, state: HoldStatus)
    requires Priced(st) && o in st.orders
    ensures Priced(Release(st, o, state))
  {
    var st' := Release(st, o, state);
    forall q | q in st'.orders
      ensures ItemsOk(st', q)
    {
      assert ItemsOk(st, q);
    }
  }

  lemma ReleaseLockstep(st: Store, o: Uuid, state: HoldStatus)
    requires Lockstep(st) && o in st.orders && Closing(state)
    ensures Lockstep(Release(st, o, state))
  {
    var st' := Release(st, o, state);
    assert OrderOk(st, o);
    forall q | q in st'.orders
      ensures OrderOk(st', q)
    {
      ReleaseOneOrder(st, o, state, q);
    }
    forall g | g in st'.holds
      ensures HoldOk(st', g)
    {
      assert HoldOk(st, g);
    }
  }

  lemma ReleaseCharged(st: Store, o: Uuid, state: HoldStatus)
    requires Charged(st) && o in st.orders
    ensures Charged(Release(st, o, state))
  {
    var st' := Release(st, o, state);
    forall p | p in st'.payments
      ensures PaymentOk(st', p)
    {
      assert PaymentOk(st, p);
    }
    forall p | p in st'.refunds
      ensures RefundOk(st', p)
    {
      assert RefundOk(st, p);
    }
    forall q | q in st'.orders
      ensures ChargedOk(st', q)
    {
      assert ChargedOk(st, q);
    }
  }

  lemma ReleaseTicketed(st: Store, o: Uuid, state: HoldStatus)
    requires Ticketed(st) && o in st.orders
    ensures Ticketed(Release(st, o, state))
  {
  }

  // A release moves the seats of its own hold and no other.
  lemma ReleaseCurrent(st: Store, now: Time, o: Uuid, state: HoldStatus)
    requires Current(st, now) && o in st.orders && OrderOk(st, o) && Closing(state)
    ensures Current(Release(st, o, state), now)
  {
  }

  lemma ReleaseCustody(st: Store, now: Time, o: Uuid, state: HoldStatus)
    requires Custody(st, now) && o in st.orders && Closing(state)
    ensures Custody(Release(st, o, state), now)
  {
    assert OrderOk(st, o);
    ReleaseOwned(st, o, state);
    ReleaseLockstep(st, o, state);
    ReleasePriced(st, o, state);
    ReleaseTicketed(st, o, state);
    ReleaseCurrent(st, now, o, state);
  }

  lemma ReleaseSound(st: Store, now: Time, o: Uuid, state: HoldStatus)
    requires Sound(st, now) && o in st.orders && Closing(state)
    ensures Sound(Release(st, o, state), now)
  {
    ReleaseCustody(st, now, o, state);
    ReleaseCharged(st, o, state);
  }

  // ---------- closing an order's books after its hold is gone ----------

  ghost predicate ClosedStatus(s: OrderStatus) { !s.Pending? && !IsPaid(s) }

  // Relabelling a closed order and its payment rows touches neither seats nor holds.
  function Relabel(st: Store, o: Uuid, s: OrderStatus, payments: map<Uuid, PaymentRow>,
                   refunds: map<Uuid, RefundRow>): Store
    requires o in st.orders
  {
    st.(orders := SetOrder(st.orders, o, s), payments := payments, refunds := refunds)
  }

  lemma RelabelOwned(st: Store, now: Time, o: Uuid, s: OrderStatus, payments: map<Uuid, PaymentRow>,
                     refunds: map<Uuid, RefundRow>)
    requires Owned(st) && Ticketed(st) && Current(st, now)
    requires o in st.orders && ClosedStatus(st.orders[o].status) && ClosedStatus(s)
    ensures var st' := Relabel(st, o, s, payments, refunds); Owned(st') && Ticketed(st') && Current(st', now)
  {
    var st' := Relabel(st, o, s, payments, refunds);
    forall k | k in st'.seats
      ensures SeatOk(st', k)
    {
      assert SeatOk(st, k);
    }
    forall k | k in st'.bookings
      ensures BookingOk(st', k)
    {
      assert BookingOk(st, k);
    }
  }

  lemma RelabelLockstep(st: Store, o: Uuid, s: OrderStatus, payments: map<Uuid, PaymentRow>,
                        refunds: map<Uuid, RefundRow>)
    requires Lockstep(st) && Priced(st)
    requires o in st.orders && ClosedStatus(st.orders[o].status) && ClosedStatus(s)
    ensures var st' := Relabel(st, o, s, payments, refunds); Lockstep(st') && Priced(st')
  {
    var st' := Relabel(st, o, s, payments, refunds);
    forall q | q in st'.orders
      ensures OrderOk(st', q) && ItemsOk(st', q)
    {
      assert OrderOk(st, q) && ItemsOk(st, q);
    }
    forall g | g in st'.holds
      ensures HoldOk(st', g)
    {
      assert HoldOk(st, g);
    }
  }

  lemma RelabelCustody(st: Store, now: Time, o: Uuid, s: OrderStatus, payments: map<Uuid, PaymentRow>,
                       refunds: map<Uuid, RefundRow>)
    requires Custody(st, now) && o in st.orders && ClosedStatus(st.orders[o].status) && ClosedStatus(s)
    ensures Custody(Relabel(st, o, s, payments, refunds), now)
  {
    RelabelOwned(st, now, o, s, payments, refunds);
    RelabelLockstep(st, o, s, payments, refunds);
  }

  // A payment that can still be decided, and the order it pays for.
  ghost predicate Undecided(st: Store, p: Uuid, o: Uuid) {
    && p in st.payments && st.payments[p].order == o && o in st.orders
    && !IsPaid(st.orders[o].status) && !IsRefund(st.orders[o].status)
  }

  lemma OthersCharged(st: Store, st': Store, p: Uuid, o: Uuid)
    requires Charged(st) && Undecided(st, p, o)
    requires st'.payments.Keys == st.payments.Keys && st'.paymentByOrder == st.paymentByOrder
    requires st'.orders.Keys == st.orders.Keys
    requires forall q :: q in st.payments && q != p ==>
      st'.payments[q] == st.payments[q] && (q in st'.refunds <==> q in st.refunds)
    requires forall q :: q in st.orders && q != o ==> st'.orders[q] == st.orders[q]
    requires st'.payments[p].order == o && PaymentOk(st', p)
    requires forall q :: q in st'.refunds && q != p ==> q in st.refunds && st'.refunds[q] == st.refunds[q]
    requires p in st'.refunds ==> RefundOk(st', p)
    ensures Charged(st')
  {
    assert PaymentOk(st, p);
    forall q | q in st'.payments
      ensures PaymentOk(st', q)
    {
      assert PaymentOk(st, q);
    }
    forall q | q in st'.refunds
      ensures RefundOk(st', q)
    {
      if q != p {
        assert RefundOk(st, q);
        assert PaymentOk(st, q);
      }
    }
    forall q | q in st'.orders
      ensures ChargedOk(st', q)
    {
      assert ChargedOk(st, q);
    }
  }

  lemma ReleaseStatus(st: Store, o: Uuid, state: HoldStatus)
    requires o in st.orders && OrderOk(st, o) && !IsPaid(st.orders[o].status) && Closing(state)
    ensures ClosedStatus(Release(st, o, state).orders[o].status)
  {
  }

  // A release followed by a relabelling of the closed order.
  lemma CloseCustody(st: Store, now: Time, o: Uuid, state: HoldStatus, s: OrderStatus,
                     payments: map<Uuid, PaymentRow>, refunds: map<Uuid, RefundRow>)
    requires Custody(st, now) && o in st.orders && !IsPaid(st.orders[o].status) && Closing(state) && ClosedStatus(s)
    ensures Custody(Relabel(Release(st, o, state), o, s, payments, refunds), now)
  {
    ReleaseCustody(st, now, o, state);
    assert OrderOk(st, o);
    ReleaseStatus(st, o, state);
    RelabelCustody(Release(st, o, state), now, o, s, payments, refunds);
  }

  // REFUND: the money that cannot buy the seats is owed back, once.
  lemma RefundCharged(st: Store, p: Uuid, o: Uuid)
    requires Charged(st) && Undecided(st, p, o)
    ensures Charged(RefundOrder(RecordOutcome(st, p, OutcomeSucceeded), p, o))
  {
    hide RefundOrder, Charged;
    ChargedPayment(st, p);
    RefundRows(st, p, o);
    OthersCharged(st, RefundOrder(RecordOutcome(st, p, OutcomeSucceeded), p, o), p, o);
  }

  lemma ChargedPayment(st: Store, p: Uuid)
    requires Charged(st) && p in st.payments
    ensures PaymentOk(st, p)
  {
  }

  // The rows a refund leaves in the money tables.
  lemma RefundRows(st: Store, p: Uuid, o: Uuid)
    requires Undecided(st, p, o)
    ensures var st' := RefundOrder(RecordOutcome(st, p, OutcomeSucceeded), p, o);
      && st'.paymentByOrder == st.paymentByOrder
      && st'.payments == st.payments[p := st.payments[p].(status := Succeeded)]
      && st'.orders == st.orders[o := st.orders[o].(status := RefundPending)]
      && st'.refunds == (if p in st.refunds then st.refunds else st.refunds[p := RefundRow(o, false)])
  {
    hide ReleaseSeats;
  }

  lemma RefundSound(st: Store, now: Time, p: Uuid, o: Uuid)
    requires Sound(st, now) && Undecided(st, p, o)
    ensures Sound(RefundOrder(RecordOutcome(st, p, OutcomeSucceeded), p, o), now)
  {
    RefundCustody(st, now, p, o);
    RefundCharged(st, p, o);
  }

  lemma RefundCustody(st: Store, now: Time, p: Uuid, o: Uuid)
    requires Custody(st, now) && Undecided(st, p, o)
    ensures Custody(RefundOrder(RecordOutcome(st, p, OutcomeSucceeded), p, o), now)
  {
    var st' := RefundOrder(RecordOutcome(st, p, OutcomeSucceeded), p, o);
    assert st' == Relabel(Release(st, o, EXPIRED), o, RefundPending, st'.payments, st'.refunds);
    CloseCustody(st, now, o, EXPIRED, RefundPending, st'.payments, st'.refunds);
  }

  // FAILED: a declined payment closes its pending order.
  lemma FailCharged(st: Store, p: Uuid, o: Uuid)
    requires Charged(st) && Undecided(st, p, o)
    ensures Charged(FailOrder(RecordOutcome(st, p, OutcomeFailed), o))
  {
    hide FailOrder, Charged;
    ChargedPayment(st, p);
    FailRows(st, p, o);
    OthersCharged(st, FailOrder(RecordOutcome(st, p, OutcomeFailed), o), p, o);
  }

  lemma FailRows(st: Store, p: Uuid, o: Uuid)
    requires Undecided(st, p, o)
    ensures var st' := FailOrder(RecordOutcome(st, p, OutcomeFailed), o);
      && st'.paymentByOrder == st.paymentByOrder && st'.refunds == st.refunds
      && st'.payments == st.payments[p := st.payments[p].(status := Declined)]
      && st'.orders == st.orders[o := st.orders[o].(status := Failed)]
  {
    hide ReleaseSeats;
  }

  lemma FailSound(st: Store, now: Time, p: Uuid, o: Uuid)
    requires Sound(st, now) && Undecided(st, p, o)
    ensures Sound(FailOrder(RecordOutcome(st, p, OutcomeFailed), o), now)
  {
    FailCustody(st, now, p, o);
    FailCharged(st, p, o);
  }

  lemma FailCustody(st: Store, now: Time, p: Uuid, o: Uuid)
    requires Custody(st, now) && Undecided(st, p, o)
    ensures Custody(FailOrder(RecordOutcome(st, p, OutcomeFailed), o), now)
  {
    var st' := FailOrder(RecordOutcome(st, p, OutcomeFailed), o);
    assert st' == Relabel(Release(st, o, RELEASED), o, Failed, st'.payments, st'.refunds);
    CloseCustody(st, now, o, RELEASED, Failed, st'.payments, st'.refunds);
  }

  // UNCHANGED: a decline that arrives after the order was closed only marks the payment.
  lemma DeclineCharged(st: Store, p: Uuid, o: Uuid)
    requires Charged(st) && Undecided(st, p, o)
    ensures Charged(RecordOutcome(st, p, OutcomeFailed))
  {
    assert PaymentOk(st, p);
    OthersCharged(st, RecordOutcome(st, p, OutcomeFailed), p, o);
  }

  lemma DeclineSound(st: Store, now: Time, p: Uuid, o: Uuid)
    requires Sound(st, now) && Undecided(st, p, o)
    ensures Sound(RecordOutcome(st, p, OutcomeFailed), now)
  {
    var st' := RecordOutcome(st, p, OutcomeFailed);
    assert st' == st.(payments := st'.payments, paymentByOrder := st.paymentByOrder);
    PaymentsCustody(st, now, st'.payments, st.paymentByOrder);
    DeclineCharged(st, p, o);
  }

  // Ownership, lockstep and tickets do not read the payment rows.
  lemma PaymentsCustody(st: Store, now: Time, payments: map<Uuid, PaymentRow>, index: map<Uuid, Uuid>)
    requires Custody(st, now)
    ensures Custody(st.(payments := payments, paymentByOrder := index), now)
  {
    PaymentsOwned(st, now, payments, index);
    PaymentsLockstep(st, payments, index);
  }

  lemma PaymentsOwned(st: Store, now: Time, payments: map<Uuid, PaymentRow>, index: map<Uuid, Uuid>)
    requires Owned(st) && Ticketed(st) && Current(st, now)
    ensures var st' := st.(payments := payments, paymentByOrder := index);
      Owned(st') && Ticketed(st') && Current(st', now)
  {
    var st' := st.(payments := payments, paymentByOrder := index);
    forall k | k in st.seats
      ensures SeatOk(st', k)
    {
      assert SeatOk(st, k);
    }
    forall k | k in st.bookings
      ensures BookingOk(st', k)
    {
      assert BookingOk(st, k);
    }
  }

  lemma PaymentsLockstep(st: Store, payments: map<Uuid, PaymentRow>, index: map<Uuid, Uuid>)
    requires Lockstep(st) && Priced(st)
    ensures var st' := st.(payments := payments, paymentByOrder := index); Lockstep(st') && Priced(st')
  {
    var st' := st.(payments := payments, paymentByOrder := index);
    forall o | o in st.orders
      ensures OrderOk(st', o) && ItemsOk(st', o)
    {
      assert OrderOk(st, o) && ItemsOk(st, o);
    }
    forall h | h in st.holds
      ensures HoldOk(st', h)
    {
      assert HoldOk(st, h);
    }
  }

  // ---------- booking ----------

  // What `callback` has checked, under row locks, before it books.
  ghost predicate Bookable(st: Store, o: Uuid) {
    && o in st.orders && OrderOk(st, o) && st.orders[o].status.Pending?
    && forall k :: k in st.items[o] ==>
         k in st.seats && st.seats[k].holdId == Some(st.orders[o].holdId) && st.seats[k].bookedOrder.None?
  }

  ghost function Booked(st: Store, p: Uuid, o: Uuid): Store
    requires Bookable(st, o) && p in st.payments
  {
    BookOrder(RecordOutcome(st, p, OutcomeSucceeded), o)
  }

  // The rows updated by hold_id are exactly the seats given bookings.
  lemma BookedRowsAreItems(st: Store, o: Uuid, k: SeatKey)
    requires Bookable(st, o) && k in st.seats && SeatOk(st, k)
    ensures st.seats[k].holdId == Some(st.orders[o].holdId) <==> k in st.items[o]
    ensures k in st.items[o] ==> k !in st.bookings
  {
  }

  lemma BookSeat(st: Store, p: Uuid, o: Uuid, k: SeatKey)
    requires Bookable(st, o) && p in st.payments && k in st.seats && SeatOk(st, k)
    ensures SeatOk(Booked(st, p, o), k)
  {
    BookedRowsAreItems(st, o, k);
  }

  lemma BookOwned(st: Store, p: Uuid, o: Uuid)
    requires Owned(st) && Bookable(st, o) && p in st.payments
    ensures Owned(Booked(st, p, o))
  {
    var st' := Booked(st, p, o);
    forall k | k in st'.seats
      ensures SeatOk(st', k)
    {
      BookSeat(st, p, o, k);
    }
    forall k | k in st'.bookings
      ensures BookingOk(st', k)
    {
      if k !in st.items[o] {
        assert BookingOk(st, k);
      }
    }
  }

  lemma BookOrderOk(st: Store, p: Uuid, o: Uuid, q: Uuid)
    requires Bookable(st, o) && p in st.payments && q in st.orders && OrderOk(st, q)
    requires forall k :: k in st.items[o] ==> k !in st.bookings
    ensures OrderOk(Booked(st, p, o), q)
  {
  }

  lemma BookLockstep(st: Store, p: Uuid, o: Uuid)
    requires Owned(st) && Lockstep(st) && Priced(st) && Bookable(st, o) && p in st.payments
    ensures Lockstep(Booked(st, p, o)) && Priced(Booked(st, p, o))
  {
    var st' := Booked(st, p, o);
    forall k | k in st.items[o]
      ensures k !in st.bookings
    {
      BookedRowsAreItems(st, o, k);
    }
    forall q | q in st'.orders
      ensures OrderOk(st', q)
    {
      BookOrderOk(st, p, o, q);
    }
    forall q | q in st'.orders
      ensures ItemsOk(st', q)
    {
      assert ItemsOk(st, q);
    }
    forall g | g in st'.holds
      ensures HoldOk(st', g)
    {
      assert HoldOk(st, g);
    }
  }

  lemma BookTicketed(st: Store, now: Time, p: Uuid, o: Uuid)
    requires Owned(st) && Ticketed(st) && Current(st, now) && Bookable(st, o) && p in st.payments
    ensures Ticketed(Booked(st, p, o)) && Current(Booked(st, p, o), now)
  {
    BookKeepsTickets(st, p, o);
    BookKeepsCurrent(st, now, p, o);
  }

  lemma BookKeepsTickets(st: Store, p: Uuid, o: Uuid)
    requires Owned(st) && Ticketed(st) && Bookable(st, o) && p in st.payments
    ensures Ticketed(Booked(st, p, o))
  {
    hide BookSeats;
    forall k | k in st.items[o]
      ensures k !in st.bookings
    {
      BookedRowsAreItems(st, o, k);
    }
    forall k | k in st.bookings
      ensures st.bookings[k] != o
    {
      assert BookingOk(st, k);
    }
  }

  lemma BookKeepsCurrent(st: Store, now: Time, p: Uuid, o: Uuid)
    requires Current(st, now) && Bookable(st, o) && p in st.payments
    ensures Current(Booked(st, p, o), now)
  {
    hide BookingsFor;
  }

  lemma BookCharged(st: Store, p: Uuid, o: Uuid)
    requires Charged(st) && Undecided(st, p, o) && Bookable(st, o)
    ensures Charged(Booked(st, p, o))
  {
    assert PaymentOk(st, p);
    OthersCharged(st, Booked(st, p, o), p, o);
  }

  lemma BookSound(st: Store, now: Time, p: Uuid, o: Uuid)
    requires Sound(st, now) && Undecided(st, p, o) && Bookable(st, o)
    ensures Sound(Booked(st, p, o), now)
  {
    BookOwned(st, p, o);
    BookLockstep(st, p, o);
    BookTicketed(st, now, p, o);
    BookCharged(st, p, o);
  }

  // ---------- payments, fulfilment, refunds paid out ----------

  lemma OpenPaymentCharged(st: Store, p: Uuid, row: PaymentRow)
    requires Charged(st) && p !in st.payments && row.order in st.orders && row.order !in st.paymentByOrder
    requires row.status.Awaiting? && st.orders[row.order].status.Pending?
    ensures Charged(OpenPayment(st, p, row))
  {
    var st' := OpenPayment(st, p, row);
    assert forall q :: q in st.refunds ==> RefundOk(st, q) && q in st.payments;
    forall q | q in st'.payments
      ensures PaymentOk(st', q)
    {
      if q != p {
        assert PaymentOk(st, q);
      }
    }
    forall q | q in st'.refunds
      ensures RefundOk(st', q)
    {
      assert RefundOk(st, q);
    }
    forall q | q in st'.orders
      ensures ChargedOk(st', q)
    {
      assert ChargedOk(st, q);
    }
  }

  lemma OpenPaymentSound(st: Store, now: Time, p: Uuid, row: PaymentRow)
    requires Sound(st, now) && p !in st.payments && row.order in st.orders && row.order !in st.paymentByOrder
    requires row.status.Awaiting? && st.orders[row.order].status.Pending?
    ensures Sound(OpenPayment(st, p, row), now)
  {
    var st' := OpenPayment(st, p, row);
    assert st' == st.(payments := st'.payments, paymentByOrder := st'.paymentByOrder);
    PaymentsCustody(st, now, st'.payments, st'.paymentByOrder);
    OpenPaymentCharged(st, p, row);
  }

  lemma FulfilOwned(st: Store, now: Time, o: Uuid)
    requires Owned(st) && Ticketed(st) && Current(st, now) && o in st.orders && IsPaid(st.orders[o].status)
    ensures var st' := FulfilOrder(st, o); Owned(st') && Ticketed(st') && Current(st', now)
  {
    var st' := FulfilOrder(st, o);
    forall k | k in st'.seats
      ensures SeatOk(st', k)
    {
      assert SeatOk(st, k);
    }
    forall k | k in st'.bookings
      ensures BookingOk(st', k)
    {
      assert BookingOk(st, k);
    }
  }

  lemma FulfilSound(st: Store, now: Time, o: Uuid)
    requires Sound(st, now) && o in st.orders && IsPaid(st.orders[o].status)
    ensures Sound(FulfilOrder(st, o), now)
  {
    FulfilOwned(st, now, o);
    FulfilLockstep(st, o);
    FulfilCharged(st, o);
  }

  lemma FulfilLockstep(st: Store, o: Uuid)
    requires Lockstep(st) && Priced(st) && o in st.orders && IsPaid(st.orders[o].status)
    ensures var st' := FulfilOrder(st, o); Lockstep(st') && Priced(st')
  {
    var st' := FulfilOrder(st, o);
    forall q | q in st'.orders
      ensures OrderOk(st', q) && ItemsOk(st', q)
    {
      assert OrderOk(st, q) && ItemsOk(st, q);
    }
    forall g | g in st'.holds
      ensures HoldOk(st', g)
    {
      assert HoldOk(st, g);
    }
  }

  lemma FulfilCharged(st: Store, o: Uuid)
    requires Charged(st) && o in st.orders && IsPaid(st.orders[o].status)
    ensures Charged(FulfilOrder(st, o))
  {
    var st' := FulfilOrder(st, o);
    forall q | q in st'.payments
      ensures PaymentOk(st', q)
    {
      assert PaymentOk(st, q);
    }
    forall q | q in st'.refunds
      ensures RefundOk(st', q)
    {
      assert RefundOk(st, q);
    }
    forall q | q in st'.orders
      ensures ChargedOk(st', q)
    {
      assert ChargedOk(st, q);
    }
  }

  lemma SettleSound(st: Store, now: Time, p: Uuid, o: Uuid)
    requires Sound(st, now) && p in st.refunds && st.refunds[p].order == o
    ensures Sound(SettleRefund(st, p, o), now)
  {
    assert RefundOk(st, p) && PaymentOk(st, p);
    SettleCustody(st, now, p, o);
    SettleCharged(st, p, o);
  }

  lemma SettleCustody(st: Store, now: Time, p: Uuid, o: Uuid)
    requires Custody(st, now) && p in st.refunds && o in st.orders && IsRefund(st.orders[o].status)
    ensures Custody(SettleRefund(st, p, o), now)
  {
    var st' := SettleRefund(st, p, o);
    var s := st'.orders[o].status;
    assert st' == Relabel(st, o, s, st'.payments, st'.refunds);
    RelabelCustody(st, now, o, s, st'.payments, st'.refunds);
  }

  lemma SettleCharged(st: Store, p: Uuid, o: Uuid)
    requires Charged(st) && p in st.refunds && st.refunds[p].order == o
    ensures Charged(SettleRefund(st, p, o))
  {
    var st' := SettleRefund(st, p, o);
    assert RefundOk(st, p) && PaymentOk(st, p);
    forall q | q in st'.payments
      ensures PaymentOk(st', q)
    {
      assert PaymentOk(st, q);
    }
    forall q | q in st'.refunds
      ensures RefundOk(st', q)
    {
      assert RefundOk(st, q) && PaymentOk(st, q);
    }
    forall q | q in st'.orders
      ensures ChargedOk(st', q)
    {
      assert ChargedOk(st, q);
    }
  }
}
