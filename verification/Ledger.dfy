// Conservation of money: every successful payment is worth booked seats or a refund of the same amount.
module Ledger {
  import opened Domain
  import opened Sums
  import opened Commerce
  import opened CommerceProofs
  import opened Forward

  // What customers were charged, by successful payment.
  ghost function Received(payments: map<Uuid, PaymentRow>, orders: map<Uuid, OrderRow>): map<Uuid, nat> {
    map p | p in payments && payments[p].status.Succeeded? && payments[p].order in orders
      :: orders[payments[p].order].total
  }

  // What they got for it: the item price of every booked seat.
  ghost function Delivered(bookings: map<SeatKey, Uuid>, items: map<Uuid, map<SeatKey, nat>>): map<SeatKey, nat> {
    map k | k in bookings && bookings[k] in items && k in items[bookings[k]] :: items[bookings[k]][k]
  }

  // What is owed or paid back, by payment.
  ghost function Returned(refunds: map<Uuid, RefundRow>, orders: map<Uuid, OrderRow>): map<Uuid, nat> {
    map p | p in refunds && refunds[p].order in orders :: orders[refunds[p].order].total
  }

  ghost predicate Balanced(st: Store) {
    MapSum(Received(st.payments, st.orders)) ==
    MapSum(Delivered(st.bookings, st.items)) + MapSum(Returned(st.refunds, st.orders))
  }

  lemma NothingReceived(payments: map<Uuid, PaymentRow>, orders: map<Uuid, OrderRow>)
    requires payments.Keys == {}
    ensures MapSum(Received(payments, orders)) == 0
  {
    SumEmpty(Received(payments, orders));
  }

  lemma NothingDelivered(bookings: map<SeatKey, Uuid>, items: map<Uuid, map<SeatKey, nat>>)
    requires bookings.Keys == {}
    ensures MapSum(Delivered(bookings, items)) == 0
  {
    SumEmpty(Delivered(bookings, items));
  }

  lemma NothingReturned(refunds: map<Uuid, RefundRow>, orders: map<Uuid, OrderRow>)
    requires refunds.Keys == {}
    ensures MapSum(Returned(refunds, orders)) == 0
  {
    SumEmpty(Returned(refunds, orders));
  }

  // Totals are fixed when an order is created.
  ghost predicate SameTotals(orders: map<Uuid, OrderRow>, orders': map<Uuid, OrderRow>) {
    forall o :: o in orders ==> o in orders' && orders'[o].total == orders[o].total
  }

  lemma ReceivedSame(ps: map<Uuid, PaymentRow>, ps': map<Uuid, PaymentRow>, os: map<Uuid, OrderRow>,
                     os': map<Uuid, OrderRow>)
    requires SameTotals(os, os')
    requires forall p :: p in ps ==> ps[p].order in os
    requires forall p :: p in ps && ps[p].status.Succeeded? ==>
      p in ps' && ps'[p].status.Succeeded? && ps'[p].order == ps[p].order
    requires forall p :: p in ps' && ps'[p].status.Succeeded? ==> p in ps && ps[p].status.Succeeded?
    ensures Received(ps', os') == Received(ps, os)
  {
  }

  lemma ReceivedMore(ps: map<Uuid, PaymentRow>, ps': map<Uuid, PaymentRow>, os: map<Uuid, OrderRow>,
                     os': map<Uuid, OrderRow>, p: Uuid)
    requires SameTotals(os, os')
    requires forall q :: q in ps ==> ps[q].order in os
    requires p in ps && !ps[p].status.Succeeded?
    requires ps' == ps[p := ps[p].(status := Succeeded)]
    ensures MapSum(Received(ps', os')) == MapSum(Received(ps, os)) + os[ps[p].order].total
  {
    assert Received(ps', os') == Received(ps, os)[p := os[ps[p].order].total];
    SumAdd(Received(ps, os), p, os[ps[p].order].total);
  }

  lemma DeliveredSame(bs: map<SeatKey, Uuid>, items: map<Uuid, map<SeatKey, nat>>, items': map<Uuid, map<SeatKey, nat>>)
    requires forall k :: k in bs ==> bs[k] in items && bs[k] in items' && items'[bs[k]] == items[bs[k]]
    ensures Delivered(bs, items') == Delivered(bs, items)
  {
  }

  lemma DeliveredMore(bs: map<SeatKey, Uuid>, items: map<Uuid, map<SeatKey, nat>>, o: Uuid)
    requires o in items && forall k :: k in items[o] ==> k !in bs
    ensures MapSum(Delivered(bs + BookingsFor(items[o].Keys, o), items)) ==
            MapSum(Delivered(bs, items)) + MapSum(items[o])
  {
    assert Delivered(bs + BookingsFor(items[o].Keys, o), items) == Delivered(bs, items) + items[o];
    SumUnion(Delivered(bs, items), items[o]);
  }

  lemma ReturnedSame(rs: map<Uuid, RefundRow>, rs': map<Uuid, RefundRow>, os: map<Uuid, OrderRow>,
                     os': map<Uuid, OrderRow>)
    requires SameTotals(os, os') && rs'.Keys == rs.Keys
    requires forall p :: p in rs ==> rs[p].order in os && rs'[p].order == rs[p].order
    ensures Returned(rs', os') == Returned(rs, os)
  {
  }

  lemma ReturnedMore(rs: map<Uuid, RefundRow>, os: map<Uuid, OrderRow>, os': map<Uuid, OrderRow>, p: Uuid, o: Uuid)
    requires SameTotals(os, os') && o in os && p !in rs
    requires forall q :: q in rs ==> rs[q].order in os
    ensures MapSum(Returned(rs[p := RefundRow(o, false)], os')) == MapSum(Returned(rs, os)) + os[o].total
  {
    assert Returned(rs[p := RefundRow(o, false)], os') == Returned(rs, os)[p := os[o].total];
    SumAdd(Returned(rs, os), p, os[o].total);
  }

  // Payments and refunds belong to existing orders.
  lemma ChargedOrders(st: Store)
    requires Charged(st)
    ensures forall p :: p in st.payments ==> st.payments[p].order in st.orders
    ensures forall p :: p in st.refunds ==> st.refunds[p].order in st.orders
  {
    forall p | p in st.payments
      ensures st.payments[p].order in st.orders
    {
      assert PaymentOk(st, p);
    }
    forall p | p in st.refunds
      ensures st.refunds[p].order in st.orders
    {
      assert RefundOk(st, p);
    }
  }

  ghost predicate SameMoney(st: Store, st': Store) {
    && st'.bookings == st.bookings && st'.refunds.Keys == st.refunds.Keys
    && (forall p :: p in st'.payments && st'.payments[p].status.Succeeded? ==>
          p in st.payments && st.payments[p].status.Succeeded?)
  }

  // Any write that decides no payment leaves all three columns alone.
  lemma UndecidedWriteBalances(st: Store, st': Store)
    requires Owned(st) && Charged(st) && Balanced(st)
    requires OrdersStep(st, st') && MoneyStep(st, st') && SameMoney(st, st')
    ensures Balanced(st')
  {
    ChargedOrders(st);
    ReceivedSame(st.payments, st'.payments, st.orders, st'.orders);
    ReturnedSame(st.refunds, st'.refunds, st.orders, st'.orders);
    DeliveredFrame(st, st');
  }

  lemma DeliveredFrame(st: Store, st': Store)
    requires Owned(st) && OrdersStep(st, st') && st'.bookings == st.bookings
    ensures Delivered(st'.bookings, st'.items) == Delivered(st.bookings, st.items)
  {
    forall k | k in st.bookings
      ensures BookingOk(st, k)
    {
    }
    DeliveredSame(st.bookings, st.items, st'.items);
  }

  // BOOK: one more payment received, and exactly its order's items delivered.
  lemma BookBalances(st: Store, p: Uuid, o: Uuid)
    requires Owned(st) && Charged(st) && Balanced(st)
    requires Undecided(st, p, o) && Bookable(st, o) && ItemsOk(st, o)
    ensures Balanced(Booked(st, p, o))
  {
    var st' := Booked(st, p, o);
    assert PaymentOk(st, p);
    ChargedOrders(st);
    ReceivedMore(st.payments, st'.payments, st.orders, st'.orders, p);
    ReturnedSame(st.refunds, st'.refunds, st.orders, st'.orders);
    BookedSeatsUnsold(st, o);
    DeliveredMore(st.bookings, st.items, o);
  }

  lemma BookedSeatsUnsold(st: Store, o: Uuid)
    requires Owned(st) && Bookable(st, o)
    ensures forall k :: k in st.items[o] ==> k !in st.bookings
  {
    forall k | k in st.items[o]
      ensures k !in st.bookings
    {
      assert SeatOk(st, k);
      BookedRowsAreItems(st, o, k);
    }
  }

  // REFUND: the amount received is the amount returned.
  lemma RefundBalances(st: Store, p: Uuid, o: Uuid)
    requires Owned(st) && Charged(st) && Balanced(st) && Undecided(st, p, o)
    ensures Balanced(RefundOrder(RecordOutcome(st, p, OutcomeSucceeded), p, o))
  {
    var st' := RefundOrder(RecordOutcome(st, p, OutcomeSucceeded), p, o);
    assert PaymentOk(st, p);
    ChargedOrders(st);
    assert SameTotals(st.orders, st'.orders);
    ReceivedMore(st.payments, st'.payments, st.orders, st'.orders, p);
    ReturnedMore(st.refunds, st.orders, st'.orders, p, o);
  }
}
