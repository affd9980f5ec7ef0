// What no write ever takes back: the one-way moves of seats, orders, payments and refunds.
module Forward {
  import opened Domain
  import opened Commerce
  import opened CommerceProofs

  // A status change one transaction can make.
  predicate Moves(s: OrderStatus, t: OrderStatus) {
    || s == t
    || (s.Pending? && (t.Expired? || t.Failed? || t.RefundPending? || t.Paid?))
    || ((s.Expired? || s.Failed?) && t.RefundPending?)
    || (s.RefundPending? && t.Refunded?)
    || (s.Paid? && t.Fulfilled?)
  }

  // Any number of them. PAID and FULFILLED never go back; REFUND_PENDING leads only to REFUNDED.
  predicate Leads(s: OrderStatus, t: OrderStatus) {
    || s == t
    || s.Pending?
    || ((s.Expired? || s.Failed?) && IsRefund(t))
    || (s.RefundPending? && t.Refunded?)
    || (s.Paid? && t.Fulfilled?)
  }

  lemma LeadsSteps(s: OrderStatus, t: OrderStatus, u: OrderStatus)
    ensures Leads(s, s)
    ensures Moves(s, t) ==> Leads(s, t)
    ensures Leads(s, t) && Leads(t, u) ==> Leads(s, u)
  {
  }

  // A row changes only together with its version, by one, and a sold row never changes again.
  predicate RowStep(r: SeatRow, s: SeatRow) {
    && s.price == r.price
    && (s == r || (s.version == r.version + 1 && r.bookedOrder.None?))
  }

  ghost predicate SeatsStep(st: Store, st': Store) {
    && st'.events == st.events
    && st'.seats.Keys == st.seats.Keys
    && (forall k :: k in st.seats ==> RowStep(st.seats[k], st'.seats[k]))
    && (forall k :: k in st.bookings ==> k in st'.bookings && st'.bookings[k] == st.bookings[k])
    && st.tickets <= st'.tickets
  }

  predicate SameOrder(r: OrderRow, s: OrderRow) {
    s == r.(status := s.status)
  }

  predicate SameHold(r: HoldRow, s: HoldRow) {
    s == r.(status := s.status) && (r.status.ACTIVE? || s.status == r.status)
  }

  ghost predicate OrdersStep(st: Store, st': Store) {
    && (forall o :: o in st.orders ==>
          o in st'.orders && SameOrder(st.orders[o], st'.orders[o]) && Moves(st.orders[o].status, st'.orders[o].status))
    && (forall h :: h in st.holds ==> h in st'.holds && SameHold(st.holds[h], st'.holds[h]))
    && (forall h :: h in st.orderByHold && h in st.holds ==>
          h in st'.orderByHold && st'.orderByHold[h] == st.orderByHold[h])
    && (forall o :: o in st.items && o in st.orders ==> o in st'.items && st'.items[o] == st.items[o])
  }

  ghost predicate MoneyStep(st: Store, st': Store) {
    && (forall p :: p in st.payments ==>
          && p in st'.payments && st'.payments[p].order == st.payments[p].order
          && (st.payments[p].status.Succeeded? ==> st'.payments[p].status.Succeeded?))
    && (forall p :: p in st.refunds ==>
          p in st'.refunds && st'.refunds[p].order == st.refunds[p].order &&
            (st.refunds[p].refunded ==> st'.refunds[p].refunded))
  }

  ghost predicate Advance(st: Store, st': Store) {
    SeatsStep(st, st') && OrdersStep(st, st') && MoneyStep(st, st')
  }

  lemma StayAdvances(st: Store)
    ensures Advance(st, st)
  {
  }

  lemma CreateHoldAdvances(st: Store, h: Uuid, hold: HoldRow, o: Uuid, total: nat, currency: string, now: Time,
                           keys: set<SeatKey>)
    requires CanHold(st, h, hold, o, now, keys)
    ensures Advance(st, CreateHold(st, h, hold, o, total, currency, now, keys))
  {
    hide SeatsStep, OrdersStep, MoneyStep;
    var st' := CreateHold(st, h, hold, o, total, currency, now, keys);
    assert SeatsStep(st, st') by { HoldSeatsStep(st, st', h, hold.expiresAt, keys); }
    assert OrdersStep(st, st') by { NewOrderStep(st, st', h, o); }
    assert MoneyStep(st, st') by { SameMoneyStep(st, st'); }
  }

  lemma HoldSeatsStep(st: Store, st': Store, h: Uuid, until: Time, keys: set<SeatKey>)
    requires st'.events == st.events && st'.seats == HoldSeats(st.seats, keys, h, until)
    requires st'.bookings == st.bookings && st'.tickets == st.tickets
    requires forall k :: k in keys && k in st.seats ==> st.seats[k].bookedOrder.None?
    ensures SeatsStep(st, st')
  {
  }

  lemma NewOrderStep(st: Store, st': Store, h: Uuid, o: Uuid)
    requires h !in st.holds && o !in st.orders
    requires forall q :: q in st.orders ==> q in st'.orders && st'.orders[q] == st.orders[q]
    requires forall g :: g in st.holds ==> g in st'.holds && st'.holds[g] == st.holds[g]
    requires forall g :: g in st.orderByHold && g != h ==>
      g in st'.orderByHold && st'.orderByHold[g] == st.orderByHold[g]
    requires forall q :: q in st.items && q != o ==> q in st'.items && st'.items[q] == st.items[q]
    ensures OrdersStep(st, st')
  {
  }

  lemma SameMoneyStep(st: Store, st': Store)
    requires st'.payments == st.payments && st'.refunds == st.refunds
    ensures MoneyStep(st, st')
  {
  }

  lemma ReleaseAdvances(st: Store, o: Uuid, state: HoldStatus)
    requires o in st.orders && Closing(state)
    ensures Advance(st, Release(st, o, state))
  {
  }

  lemma RefundAdvances(st: Store, p: Uuid, o: Uuid)
    requires Undecided(st, p, o)
    ensures Advance(st, RefundOrder(RecordOutcome(st, p, OutcomeSucceeded), p, o))
  {
    ReleaseAdvances(st, o, EXPIRED);
    CloseSeats(st, Release(st, o, EXPIRED), RefundOrder(RecordOutcome(st, p, OutcomeSucceeded), p, o), o);
  }

  // Closing an order adds one status move to its release.
  lemma CloseSeats(st: Store, r: Store, st': Store, o: Uuid)
    requires SeatsStep(st, r) && OrdersStep(st, r) && o in st.orders && st'.events == r.events
    requires st'.seats == r.seats && st'.bookings == r.bookings && st'.tickets == r.tickets
    requires st'.holds == r.holds && st'.orderByHold == r.orderByHold && st'.items == r.items
    requires o in st'.orders && SameOrder(st.orders[o], st'.orders[o]) &&
      Moves(st.orders[o].status, st'.orders[o].status)
    requires st'.orders == r.orders[o := st'.orders[o]]
    ensures SeatsStep(st, st') && OrdersStep(st, st')
  {
  }

  lemma FailAdvances(st: Store, p: Uuid, o: Uuid)
    requires Undecided(st, p, o) && !st.payments[p].status.Succeeded? && st.orders[o].status.Pending?
    ensures Advance(st, FailOrder(RecordOutcome(st, p, OutcomeFailed), o))
  {
    ReleaseAdvances(st, o, RELEASED);
    CloseSeats(st, Release(st, o, RELEASED), FailOrder(RecordOutcome(st, p, OutcomeFailed), o), o);
  }

  lemma DeclineAdvances(st: Store, p: Uuid, o: Uuid)
    requires Undecided(st, p, o) && !st.payments[p].status.Succeeded?
    ensures Advance(st, RecordOutcome(st, p, OutcomeFailed))
  {
  }

  lemma BookAdvances(st: Store, p: Uuid, o: Uuid)
    requires Owned(st) && Bookable(st, o) && p in st.payments
    ensures Advance(st, Booked(st, p, o))
  {
    var st' := Booked(st, p, o);
    forall k | k in st.seats
      ensures RowStep(st.seats[k], st'.seats[k])
      ensures k in st.items[o] ==> k !in st.bookings
    {
      assert SeatOk(st, k);
      BookedRowsAreItems(st, o, k);
    }
    forall k | k in st.bookings
      ensures k in st'.bookings && st'.bookings[k] == st.bookings[k]
    {
      assert BookingOk(st, k);
    }
  }

  lemma OpenPaymentAdvances(st: Store, p: Uuid, row: PaymentRow)
    requires p !in st.payments
    ensures Advance(st, OpenPayment(st, p, row))
  {
  }

  lemma FulfilAdvances(st: Store, o: Uuid)
    requires o in st.orders && IsPaid(st.orders[o].status)
    ensures Advance(st, FulfilOrder(st, o))
  {
  }

  lemma SettleAdvances(st: Store, p: Uuid, o: Uuid)
    ensures Advance(st, SettleRefund(st, p, o))
  {
  }
}
