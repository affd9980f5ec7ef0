// The commerce tables that decide who owns a seat and who paid for it, the row-level
// writes the transactions are made of, and the invariant every write keeps.
module Commerce {
  import opened Domain
  import opened Sums

  datatype Store = Store(
    events: map<Uuid, EventRow>,
    seats: map<SeatKey, SeatRow>,
    holds: map<Uuid, HoldRow>,
    orders: map<Uuid, OrderRow>,
    orderByHold: map<Uuid, Uuid>,               // UNIQUE(orders.hold_id)
    items: map<Uuid, map<SeatKey, nat>>,        // order_items grouped by order: seat -> price
    payments: map<Uuid, PaymentRow>,
    paymentByOrder: map<Uuid, Uuid>,            // UNIQUE(payment_attempts.order_id)
    bookings: map<SeatKey, Uuid>,               // UNIQUE(event_id, seat_id): seat -> order
    tickets: set<SeatKey>,                      // UNIQUE(booking_id): booked seats with a ticket
    refunds: map<Uuid, RefundRow>               // by payment
  )

  // ---------- row-level writes ----------

  function Prices(seats: map<SeatKey, SeatRow>, keys: set<SeatKey>): map<SeatKey, nat> {
    map k | k in keys && k in seats :: seats[k].price
  }

  predicate Free(r: SeatRow, now: Time) {
    r.bookedOrder.None? && (r.reservedUntil.None? || r.reservedUntil.value <= now)
  }

  function Hold(r: SeatRow, h: Uuid, expires: Time): SeatRow {
    r.(holdId := Some(h), reservedUntil := Some(expires), version := r.version + 1)
  }

  function HoldSeats(seats: map<SeatKey, SeatRow>, keys: set<SeatKey>, h: Uuid, expires: Time): map<SeatKey, SeatRow> {
    map k | k in seats :: if k in keys then Hold(seats[k], h, expires) else seats[k]
  }

  // What a new hold inserts, apart from its items: hold, pending order and the seat update.
  function OpenHold(st: Store, h: Uuid, hold: HoldRow, o: Uuid, total: nat, currency: string, now: Time,
                    keys: set<SeatKey>): Store {
    st.(holds := st.holds[h := hold],
        orders := st.orders[o := OrderRow(hold.actor, h, hold.event, total, currency, Pending, now)],
        orderByHold := st.orderByHold[h := o],
        items := st.items[o := map[]],
        seats := HoldSeats(st.seats, keys, h, hold.expiresAt))
  }

  function CreateHold(st: Store, h: Uuid, hold: HoldRow, o: Uuid, total: nat, currency: string, now: Time,
                      keys: set<SeatKey>): Store {
    var base := OpenHold(st, h, hold, o, total, currency, now, keys);
    base.(items := base.items[o := Prices(st.seats, keys)])
  }

  function ReleasedKeys(seats: map<SeatKey, SeatRow>, h: Uuid): set<SeatKey> {
    set k | k in seats && seats[k].holdId == Some(h) && seats[k].bookedOrder.None?
  }

  function Freed(r: SeatRow): SeatRow {
    r.(holdId := None, reservedUntil := None, version := r.version + 1)
  }

  function ReleaseSeats(seats: map<SeatKey, SeatRow>, h: Uuid): map<SeatKey, SeatRow> {
    map k | k in seats ::
      if seats[k].holdId == Some(h) && seats[k].bookedOrder.None? then Freed(seats[k]) else seats[k]
  }

  function CloseHold(holds: map<Uuid, HoldRow>, h: Uuid, state: HoldStatus): map<Uuid, HoldRow> {
    if h in holds && holds[h].status.ACTIVE? then holds[h := holds[h].(status := state)] else holds
  }

  function SetOrder(orders: map<Uuid, OrderRow>, o: Uuid, status: OrderStatus): map<Uuid, OrderRow>
    requires o in orders
  {
    orders[o := orders[o].(status := status)]
  }

  function Release(st: Store, o: Uuid, state: HoldStatus): Store
    requires o in st.orders
  {
    var h := st.orders[o].holdId;
    st.(seats := ReleaseSeats(st.seats, h),
        holds := CloseHold(st.holds, h, state),
        orders := if st.orders[o].status.Pending? then SetOrder(st.orders, o, Expired) else st.orders)
  }

  function Sold(r: SeatRow, o: Uuid): SeatRow {
    r.(bookedOrder := Some(o), holdId := None, reservedUntil := None, version := r.version + 1)
  }

  function BookSeats(seats: map<SeatKey, SeatRow>, h: Uuid, o: Uuid): map<SeatKey, SeatRow> {
    map k | k in seats :: if seats[k].holdId == Some(h) then Sold(seats[k], o) else seats[k]
  }

  function BookingsFor(keys: set<SeatKey>, o: Uuid): map<SeatKey, Uuid> {
    map k | k in keys :: o
  }

  // UPDATE payment_attempts SET status, as recorded by a callback.
  function RecordOutcome(st: Store, p: Uuid, outcome: PaymentOutcome): Store
    requires p in st.payments
  {
    st.(payments := st.payments[p := st.payments[p].(
      status := if outcome.OutcomeSucceeded? then Succeeded else Declined)])
  }

  // The BOOK branch; `st.bookings` gains one row per order item.
  function BookOrder(st: Store, o: Uuid): Store
    requires o in st.orders && o in st.items && st.orders[o].holdId in st.holds
  {
    var h := st.orders[o].holdId;
    st.(bookings := st.bookings + BookingsFor(st.items[o].Keys, o),
        seats := BookSeats(st.seats, h, o),
        holds := st.holds[h := st.holds[h].(status := CONSUMED)],
        orders := SetOrder(st.orders, o, Paid))
  }

  // The REFUND branch: release, then REFUND_PENDING and one refund request per payment.
  function RefundOrder(st: Store, p: Uuid, o: Uuid): Store
    requires o in st.orders
  {
    var r := Release(st, o, EXPIRED);
    r.(orders := SetOrder(r.orders, o, RefundPending),
       refunds := if p in r.refunds then r.refunds else r.refunds[p := RefundRow(o, false)])
  }

  function FailOrder(st: Store, o: Uuid): Store
    requires o in st.orders
  {
    var r := Release(st, o, RELEASED);
    r.(orders := SetOrder(r.orders, o, Failed))
  }

  function OpenPayment(st: Store, p: Uuid, row: PaymentRow): Store {
    st.(payments := st.payments[p := row], paymentByOrder := st.paymentByOrder[row.order := p])
  }

  function BookedBy(bookings: map<SeatKey, Uuid>, o: Uuid): set<SeatKey> {
    set k | k in bookings && bookings[k] == o
  }

  function FulfilOrder(st: Store, o: Uuid): Store
    requires o in st.orders
  {
    st.(tickets := st.tickets + BookedBy(st.bookings, o),
        orders := SetOrder(st.orders, o, Fulfilled))
  }

  function SettleRefund(st: Store, p: Uuid, o: Uuid): Store {
    st.(refunds := if p in st.refunds then st.refunds[p := st.refunds[p].(refunded := true)] else st.refunds,
        orders := if o in st.orders && st.orders[o].status.RefundPending?
                  then SetOrder(st.orders, o, Refunded) else st.orders)
  }

  // ---------- the ownership invariant ----------

  ghost predicate SeatOk(st: Store, k: SeatKey)
    requires k in st.seats
  {
    var r := st.seats[k];
    // The two CHECK constraints of event_seats.
    && (r.holdId.None? <==> r.reservedUntil.None?)
    && (r.bookedOrder.Some? ==> r.holdId.None?)
    // A hold reference names an ACTIVE hold whose order lists this seat.
    && (r.holdId.Some? ==>
          var h := r.holdId.value;
          && h in st.holds && st.holds[h].status.ACTIVE?
          && r.reservedUntil == Some(st.holds[h].expiresAt)
          && h in st.orderByHold && st.orderByHold[h] in st.items
          && k in st.items[st.orderByHold[h]])
    // The booked reference and the bookings table agree.
    && r.bookedOrder == (if k in st.bookings then Some(st.bookings[k]) else None)
  }

  ghost predicate HoldOk(st: Store, h: Uuid)
    requires h in st.holds
  {
    && h in st.orderByHold && st.orderByHold[h] in st.orders
    && st.orders[st.orderByHold[h]].holdId == h
  }

  ghost predicate OrderOk(st: Store, o: Uuid)
    requires o in st.orders
  {
    var r := st.orders[o];
    && r.holdId in st.holds && r.holdId in st.orderByHold && st.orderByHold[r.holdId] == o
    && st.holds[r.holdId].event == r.event && st.holds[r.holdId].actor == r.actor
    && o in st.items
    // Order and hold move in lockstep.
    && (st.holds[r.holdId].status.ACTIVE? <==> r.status.Pending?)
    && (st.holds[r.holdId].status.CONSUMED? <==> IsPaid(r.status))
    && (IsPaid(r.status) ==> forall k :: k in st.items[o] ==> k in st.bookings && st.bookings[k] == o)
  }

  ghost predicate ItemsOk(st: Store, o: Uuid)
    requires o in st.orders
  {
    && o in st.items && st.orders[o].total == MapSum(st.items[o])
    && (forall k :: k in st.items[o] ==>
          k in st.seats && k.event == st.orders[o].event && st.items[o][k] == st.seats[k].price)
  }

  ghost predicate BookingOk(st: Store, k: SeatKey)
    requires k in st.bookings
  {
    var o := st.bookings[k];
    k in st.seats && o in st.orders && o in st.items && k in st.items[o] && IsPaid(st.orders[o].status)
  }

  ghost predicate PaymentOk(st: Store, p: Uuid)
    requires p in st.payments
  {
    var r := st.payments[p];
    && r.order in st.orders && r.order in st.paymentByOrder && st.paymentByOrder[r.order] == p
    // A success is fulfilled by a booking or by a refund, never by both and never by neither.
    && (r.status.Succeeded? <==> IsPaid(st.orders[r.order].status) || IsRefund(st.orders[r.order].status))
    && (p in st.refunds <==> IsRefund(st.orders[r.order].status))
  }

  ghost predicate ChargedOk(st: Store, o: Uuid)
    requires o in st.orders
  {
    && (o in st.paymentByOrder ==>
          st.paymentByOrder[o] in st.payments && st.payments[st.paymentByOrder[o]].order == o)
    && (IsPaid(st.orders[o].status) || IsRefund(st.orders[o].status) ==> o in st.paymentByOrder)
  }

  ghost predicate RefundOk(st: Store, p: Uuid)
    requires p in st.refunds
  {
    var o := st.refunds[p].order;
    && p in st.payments && st.payments[p].order == o && o in st.orders
    && (st.refunds[p].refunded <==> st.orders[o].status.Refunded?)
  }

  ghost predicate Owned(st: Store) {
    && (forall k :: k in st.seats ==> SeatOk(st, k))
    && (forall k :: k in st.bookings ==> BookingOk(st, k))
  }

  ghost predicate Lockstep(st: Store) {
    && (forall o :: o in st.orders ==> OrderOk(st, o))
    && (forall h :: h in st.holds ==> HoldOk(st, h))
  }

  // Order totals are the sums of their item prices, and item prices those of the inventory.
  ghost predicate Priced(st: Store) {
    forall o :: o in st.orders ==> ItemsOk(st, o)
  }

  ghost predicate Charged(st: Store) {
    && (forall p :: p in st.payments ==> PaymentOk(st, p))
    && (forall p :: p in st.refunds ==> RefundOk(st, p))
    && (forall o :: o in st.orders ==> ChargedOk(st, o))
    && st.paymentByOrder.Keys <= st.orders.Keys
  }

  // Exactly the booked seats of fulfilled orders carry a ticket.
  ghost predicate Ticketed(st: Store) {
    forall k :: k in st.tickets <==>
      k in st.bookings && st.bookings[k] in st.orders && st.orders[st.bookings[k]].status.Fulfilled?
  }

  // A live hold still owns every seat it asked for.
  ghost predicate Current(st: Store, now: Time) {
    forall h, k :: h in st.holds && st.holds[h].status.ACTIVE? && st.holds[h].expiresAt > now &&
                   h in st.orderByHold && st.orderByHold[h] in st.items && k in st.items[st.orderByHold[h]]
      ==> k in st.seats && st.seats[k].holdId == Some(h)
  }

  // Who owns what: everything but the payment rows.
  ghost predicate Custody(st: Store, now: Time) {
    Owned(st) && Lockstep(st) && Priced(st) && Ticketed(st) && Current(st, now)
  }

  ghost predicate Sound(st: Store, now: Time) {
    Custody(st, now) && Charged(st)
  }
}
