// The transactions of the reservation store and of the event consumer, each as a function of the
// whole database. A transaction commits all its writes or raises and leaves the database unchanged.
module Transactions {
  import opened Domain
  import opened Sums
  import opened Commerce

  datatype Operation = HoldOp | OrderOp | PaymentOp
  datatype IdemKey = IdemKey(actor: Actor, op: Operation, key: string)
  datatype Request =
    | HoldRequest(event: Uuid, seats: set<SeatId>)
    | OrderRequest(holdId: Uuid)
    | PaymentRequest(order: Uuid, outcome: PaymentOutcome, delay: nat, duplicates: nat)
  datatype Response =
    | HoldResponse(holdId: Uuid, orderId: Uuid, expiresAt: Time, total: nat, currency: string, seats: set<SeatId>)
    | OrderResponse(orderId: Uuid, status: OrderStatus, total: nat, currency: string)
    | PaymentResponse(paymentId: Uuid, orderId: Uuid)
  datatype IdemRow = IdemRow(request: Request, response: Option<Response>)

  // One Redis-first command as `enqueue` writes it to the stream.
  datatype Command = Command(
    id: Uuid, actor: Actor, key: string, requestHash: Request, event: Uuid, seats: set<SeatId>,
    holdId: Uuid, orderId: Uuid, expiresAt: Time)
  datatype CommandRow = CommandRow(key: IdemKey, requestHash: Request, holdId: Uuid, orderId: Uuid, response: Response)

  datatype Callback = Callback(
    id: Uuid, payment: Uuid, order: Uuid, amount: nat, currency: string, outcome: PaymentOutcome)
  datatype CallbackRow = CallbackRow(payment: Uuid, payload: Callback)

  // Event payloads; a SeatsChanged without seats asks for the whole event.
  datatype Payload =
    | SeatsChanged(event: Uuid, seats: Option<set<SeatId>>)
    | OrderPaid(order: Uuid)
    | RefundRequested(payment: Uuid, refundOf: Uuid)
    | TicketsIssued(issued: Uuid)
    | Unknown
  datatype Envelope = Envelope(id: nat, schema: int, payload: Payload)

  datatype RefreshRow = RefreshRow(
    generation: nat, completed: nat, seatIds: Option<set<SeatId>>,
    leaseToken: Option<Uuid>, leaseUntil: Option<Time>, nextAttemptAt: Time)

  datatype Db = Db(
    store: Store,
    idem: map<IdemKey, IdemRow>,
    commands: map<Uuid, CommandRow>,
    callbacks: map<Uuid, CallbackRow>,
    outbox: seq<Payload>,                // an event's id is its position
    inbox: set<nat>,                     // consumer_inbox rows of 'fulfillment'
    refresh: map<Uuid, RefreshRow>
  )

  datatype Tx<+T> = Tx(db: Db, out: Result<T>)

  function Abort<T>(db: Db, code: Failure): Tx<T> { Tx(db, Err(code)) }

  function Emit(db: Db, p: Payload): Db { db.(outbox := db.outbox + [p]) }

  // ---------- idempotency ----------

  // INSERT ... ON CONFLICT DO NOTHING, then compare and replay.
  function Idem(table: map<IdemKey, IdemRow>, key: IdemKey, request: Request): (map<IdemKey, IdemRow>,
                Result<Option<Response>>) {
    if key !in table then (table[key := IdemRow(request, None)], Ok(None))
    else if table[key].request != request then (table, Err(IdempotencyMismatch))
    else (table, Ok(table[key].response))
  }

  function Remember(table: map<IdemKey, IdemRow>, key: IdemKey, response: Response): map<IdemKey, IdemRow> {
    if key in table then table[key := table[key].(response := Some(response))] else table
  }

  // ---------- creating a hold: synchronous and command paths ----------

  datatype NewHold = NewHold(
    key: IdemKey, request: Request, hold: Uuid, order: Uuid, row: HoldRow, seats: set<SeatId>,
    total: nat, currency: string, now: Time, command: Option<Uuid>)

  function HoldReply(n: NewHold): Response {
    HoldResponse(n.hold, n.order, n.row.expiresAt, n.total, n.currency, n.seats)
  }

  // Everything a successful hold commits.
  function CommitHold(db: Db, n: NewHold): Db {
    Emit(db, SeatsChanged(n.row.event, Some(n.seats))).(
      store := CreateHold(db.store, n.hold, n.row, n.order, n.total, n.currency, n.now, Keys(n.row.event, n.seats)),
      idem := db.idem[n.key := IdemRow(n.request, Some(HoldReply(n)))],
      commands := if n.command.None? then db.commands
                  else db.commands[n.command.value := CommandRow(n.key, n.request, n.hold, n.order, HoldReply(n))])
  }

  // The outcome of the checks that precede the writes: a failure, a replayed response, or "go ahead".
  type Verdict = Result<Option<Response>>

  ghost predicate AllFree(seats: map<SeatKey, SeatRow>, keys: set<SeatKey>, now: Time) {
    forall k :: k in keys ==> k in seats && Free(seats[k], now)
  }

  ghost function CheckSale(st: Store, event: Uuid, keys: set<SeatKey>, now: Time): Verdict {
    if event !in st.events then Err(EventNotFound)
    else if !(st.events[event].saleStarts <= now < st.events[event].saleEnds) then Err(SaleClosed)
    else if !(keys <= st.seats.Keys) then Err(SeatNotFound)
    else Ok(None)
  }

  ghost function CheckReserve(db: Db, key: IdemKey, event: Uuid, seatIds: seq<SeatId>, now: Time): Verdict {
    var seats := set s | s in seatIds;
    if |seats| != |seatIds| || !(1 <= |seats| <= 8) then Err(InvalidSeats)
    else
      var replay := Idem(db.idem, key, HoldRequest(event, seats)).1;
      if replay != Ok(None) then replay
      else
        var sale := CheckSale(db.store, event, Keys(event, seats), now);
        if sale.Err? then sale
        else if !AllFree(db.store.seats, Keys(event, seats), now) then Err(SeatUnavailable)
        else Ok(None)
  }

  ghost function ReserveRecord(db: Db, key: IdemKey, event: Uuid, seatIds: seq<SeatId>,
                               now: Time, holdSeconds: int, hold: Uuid, order: Uuid): NewHold
    requires event in db.store.events
  {
    var seats := set s | s in seatIds;
    NewHold(key, HoldRequest(event, seats), hold, order, HoldRow(key.actor, event, now + holdSeconds, ACTIVE), seats,
            MapSum(Prices(db.store.seats, Keys(event, seats))), db.store.events[event].currency, now, None)
  }

  ghost function Reserve(db: Db, actor: Actor, event: Uuid, seatIds: seq<SeatId>, key: string,
                         now: Time, holdSeconds: int, hold: Uuid, order: Uuid): Tx<Response>
  {
    var ik := IdemKey(actor, HoldOp, key);
    var check := CheckReserve(db, ik, event, seatIds, now);
    if check.Err? then Abort(db, check.code)
    else if check.value.Some? then Tx(db, Ok(check.value.value))
    else
      var n := ReserveRecord(db, ik, event, seatIds, now, holdSeconds, hold, order);
      Tx(CommitHold(db, n), Ok(HoldReply(n)))
  }

  // A command may take a seat still carrying its own hold.
  predicate FreeFor(r: SeatRow, now: Time, hold: Uuid) {
    r.bookedOrder.None? && (r.reservedUntil.None? || r.reservedUntil.value <= now || r.holdId == Some(hold))
  }

  ghost predicate AllFreeFor(seats: map<SeatKey, SeatRow>, keys: set<SeatKey>, now: Time, hold: Uuid) {
    forall k :: k in keys ==> k in seats && FreeFor(seats[k], now, hold)
  }

  // The command table is consulted before the idempotency table.
  function CheckReplay(db: Db, c: Command): Verdict {
    var request := HoldRequest(c.event, c.seats);
    if request != c.requestHash then Err(CommandMismatch)
    else if c.id in db.commands then
      if db.commands[c.id].requestHash != c.requestHash then Err(CommandMismatch)
      else Ok(Some(db.commands[c.id].response))
    else
      var replay := Idem(db.idem, IdemKey(c.actor, HoldOp, c.key), request).1;
      if replay.Ok? && replay.value.Some? && !Answers(replay.value.value, c) then Err(CommandMismatch)
      else replay
  }

  predicate Answers(r: Response, c: Command) {
    r.HoldResponse? && r.holdId == c.holdId && r.orderId == c.orderId
  }

  ghost function CheckPersist(db: Db, c: Command, now: Time): Verdict {
    var keys := Keys(c.event, c.seats);
    var replay := CheckReplay(db, c);
    if replay != Ok(None) then replay
    else
      var sale := CheckSale(db.store, c.event, keys, now);
      if sale.Err? then sale
      else if c.expiresAt <= now then Err(HoldExpired)
      else if !AllFreeFor(db.store.seats, keys, now, c.holdId) then Err(SeatUnavailable)
      else if c.holdId in db.store.holds || c.orderId in db.store.orders then Err(UniqueViolation)
      else Ok(None)
  }

  ghost function PersistRecord(db: Db, c: Command, now: Time): NewHold
    requires c.event in db.store.events
  {
    NewHold(IdemKey(c.actor, HoldOp, c.key), HoldRequest(c.event, c.seats), c.holdId, c.orderId,
            HoldRow(c.actor, c.event, c.expiresAt, ACTIVE), c.seats,
            MapSum(Prices(db.store.seats, Keys(c.event, c.seats))), db.store.events[c.event].currency, now, Some(c.id))
  }

  ghost function Persist(db: Db, c: Command, now: Time): Tx<Response> {
    var check := CheckPersist(db, c, now);
    if check.Err? then Abort(db, check.code)
    else if check.value.Some? then Tx(db, Ok(check.value.value))
    else
      var n := PersistRecord(db, c, now);
      Tx(CommitHold(db, n), Ok(HoldReply(n)))
  }

  // ---------- checkout, release, expiry ----------

  // SELECT * FROM orders WHERE hold_id = .. AND actor = ..
  function OrderFor(st: Store, hold: Uuid, actor: Actor): Option<Uuid> {
    if hold in st.orderByHold && st.orderByHold[hold] in st.orders
       && st.orders[st.orderByHold[hold]].holdId == hold && st.orders[st.orderByHold[hold]].actor == actor
    then Some(st.orderByHold[hold]) else None
  }

  predicate ExpiredAt(st: Store, hold: Uuid, now: Time) {
    hold in st.holds && st.holds[hold].expiresAt <= now
  }

  function Checkout(db: Db, actor: Actor, hold: Uuid, key: string, now: Time): Tx<Response> {
    var ik := IdemKey(actor, OrderOp, key);
    var (idem, replay) := Idem(db.idem, ik, OrderRequest(hold));
    if replay.Err? then Abort(db, replay.code)
    else if replay.value.Some? then Tx(db, Ok(replay.value.value))
    else
      var found := OrderFor(db.store, hold, actor);
      if found.None? then Abort(db, HoldNotFound)
      else
        var r := db.store.orders[found.value];
        if r.status.Pending? && ExpiredAt(db.store, hold, now) then Abort(db, HoldExpired)
        else
          var reply := OrderResponse(found.value, r.status, r.total, r.currency);
          Tx(db.(idem := Remember(idem, ik, reply)), Ok(reply))
  }

  // `_release`: free the order's seats, close hold and order, announce the freed seats.
  function ReleaseOrder(db: Db, o: Uuid, state: HoldStatus): Db
    requires o in db.store.orders
  {
    var r := db.store.orders[o];
    Emit(db, SeatsChanged(r.event, Some(SeatsOf(ReleasedKeys(db.store.seats, r.holdId))))).(
      store := Commerce.Release(db.store, o, state))
  }

  function ReleaseHold(db: Db, actor: Actor, hold: Uuid): Tx<()> {
    var found := OrderFor(db.store, hold, actor);
    if found.None? then Abort(db, HoldNotFound)
    else if IsPaid(db.store.orders[found.value].status) then Abort(db, AlreadyBooked)
    else Tx(ReleaseOrder(db, found.value, RELEASED), Ok(()))
  }

  // What the expiry SELECT returns: at most `limit` orders whose ACTIVE hold has run out, each once,
  // oldest expiry first; rows locked by others are skipped.
  ghost predicate IsDueBatch(st: Store, now: Time, limit: nat, locked: set<Uuid>, batch: seq<Uuid>) {
    && |batch| <= limit
    && (forall i :: 0 <= i < |batch| ==> Due(st, batch[i], now) && batch[i] !in locked)
    && (forall i, j :: 0 <= i < j < |batch| ==>
          batch[i] != batch[j] &&
            st.holds[st.orders[batch[i]].holdId].expiresAt <= st.holds[st.orders[batch[j]].holdId].expiresAt)
    && (forall o :: o in st.orders && Due(st, o, now) && o !in locked && o !in batch ==>
          |batch| == limit && forall i :: 0 <= i < |batch| ==>
            st.holds[st.orders[batch[i]].holdId].expiresAt <= st.holds[st.orders[o].holdId].expiresAt)
  }

  predicate Due(st: Store, o: Uuid, now: Time) {
    && o in st.orders && st.orders[o].holdId in st.holds
    && st.holds[st.orders[o].holdId].status.ACTIVE? && st.holds[st.orders[o].holdId].expiresAt <= now
  }

  function ExpireAll(db: Db, batch: seq<Uuid>): Db
    requires forall o :: o in batch ==> o in db.store.orders
  {
    if batch == [] then db
    else
      var front := batch[..|batch| - 1];
      var db' := ExpireAll(db, front);
      if batch[|batch| - 1] in db'.store.orders then ReleaseOrder(db', batch[|batch| - 1], EXPIRED) else db'
  }

  // ---------- payments ----------

  function InitiatePayment(db: Db, actor: Actor, order: Uuid, key: string, outcome: PaymentOutcome,
                           delay: nat, duplicates: nat, now: Time, payment: Uuid): Tx<Response>
  {
    var ik := IdemKey(actor, PaymentOp, key);
    var (idem, replay) := Idem(db.idem, ik, PaymentRequest(order, outcome, delay, duplicates));
    if replay.Err? then Abort(db, replay.code)
    else if replay.value.Some? then Tx(db, Ok(replay.value.value))
    else if order !in db.store.orders || db.store.orders[order].actor != actor then Abort(db, OrderNotFound)
    else if order in db.store.paymentByOrder then
      var reply := PaymentResponse(db.store.paymentByOrder[order], order);
      Tx(db.(idem := Remember(idem, ik, reply)), Ok(reply))
    else if !db.store.orders[order].status.Pending? || ExpiredAt(db.store, db.store.orders[order].holdId, now)
    then Abort(db, OrderNotPayable)
    else
      var reply := PaymentResponse(payment, order);
      Tx(db.(store := OpenPayment(db.store, payment, PaymentRow(order, Awaiting, outcome, now + delay, duplicates)),
             idem := Remember(idem, ik, reply)),
         Ok(reply))
  }

  datatype CallbackReply = Duplicate | Decided(decision: Decision)

  // The hold still entitles the order to every seat it lists.
  ghost predicate ValidHold(st: Store, o: Uuid, now: Time)
    requires o in st.orders && o in st.items
  {
    var h := st.orders[o].holdId;
    && st.items[o].Keys != {}
    && h in st.holds && st.holds[h].status.ACTIVE? && st.holds[h].expiresAt > now
    && forall k :: k in st.items[o] && k in st.seats ==> SeatHeldBy(st.seats[k], h, now)
  }

  predicate SeatHeldBy(r: SeatRow, h: Uuid, now: Time) {
    r.holdId == Some(h) && r.bookedOrder.None? && r.reservedUntil.Some? && r.reservedUntil.value > now
  }

  function OrderSeats(st: Store, o: Uuid): Payload
    requires o in st.orders && o in st.items
  {
    SeatsChanged(st.orders[o].event, Some(SeatsOf(st.items[o].Keys)))
  }

  // The writes of one decided callback, before the closing SeatsChanged.
  function Decide(db: Db, p: Uuid, o: Uuid, d: Decision): Db
    requires o in db.store.orders && o in db.store.items && db.store.orders[o].holdId in db.store.holds
  {
    match d
    case Book => Emit(db.(store := BookOrder(db.store, o)), OrderPaid(o))
    case Refund =>
      Emit(ReleaseOrder(db, o, EXPIRED).(store := RefundOrder(db.store, p, o)), RefundRequested(p, o))
    case Fail => ReleaseOrder(db, o, RELEASED).(store := FailOrder(db.store, o))
    case Unchanged => db
  }

  // The order a callback's payment belongs to, with the rows its foreign keys guarantee.
  predicate Linked(st: Store, p: Uuid) {
    && p in st.payments && st.payments[p].order in st.orders && st.payments[p].order in st.items
    && st.orders[st.payments[p].order].holdId in st.holds
  }

  // The callback row and the payment's new status.
  function NoteOutcome(db: Db, c: Callback): (r: Db)
    requires c.payment in db.store.payments
    ensures r.store.orders == db.store.orders && r.store.items == db.store.items && r.store.holds == db.store.holds
  {
    db.(callbacks := db.callbacks[c.id := CallbackRow(c.payment, c)],
        store := RecordOutcome(db.store, c.payment, c.outcome))
  }

  ghost predicate DoubleBooking(st: Store, o: Uuid)
    requires o in st.items
  {
    exists k :: k in st.items[o] && k in st.bookings
  }

  // A callback that is neither a mismatch nor a repeat is decided under the row locks.
  ghost function Settle(db: Db, c: Callback, now: Time): Tx<CallbackReply>
    requires Linked(db.store, c.payment)
  {
    var o := db.store.payments[c.payment].order;
    var d := PaymentDecision(db.store.orders[o].status, ValidHold(db.store, o, now), c.outcome);
    if d.Book? && DoubleBooking(db.store, o) then Abort(db, UniqueViolation)
    else Tx(Emit(Decide(NoteOutcome(db, c), c.payment, o, d), OrderSeats(db.store, o)), Ok(Decided(d)))
  }

  ghost function PaymentCallback(db: Db, c: Callback, now: Time): Tx<CallbackReply> {
    if c.payment !in db.store.payments then Abort(db, PaymentNotFound)
    else if !Linked(db.store, c.payment) then Abort(db, ForeignKeyViolation)
    else
      var pay := db.store.payments[c.payment];
      var order := db.store.orders[pay.order];
      if pay.order != c.order || order.total != c.amount || order.currency != c.currency then Abort(db, PaymentMismatch)
      else if c.id in db.callbacks then
        if db.callbacks[c.id].payload != c then Abort(db, CallbackMismatch) else Tx(db, Ok(Duplicate))
      else if pay.status.Succeeded? then
        Tx(db.(callbacks := db.callbacks[c.id := CallbackRow(c.payment, c)]), Ok(Duplicate))
      else Settle(db, c, now)
  }

  // ---------- the event consumer ----------

  function MergeSeats(a: Option<set<SeatId>>, b: Option<set<SeatId>>): Option<set<SeatId>> {
    if a.None? || b.None? then None else Some(a.value + b.value)
  }

  function RequestRefresh(table: map<Uuid, RefreshRow>, event: Uuid, seats: Option<set<SeatId>>,
                          now: Time): map<Uuid, RefreshRow> {
    if event !in table then table[event := RefreshRow(1, 0, seats, None, None, now)]
    else
      var r := table[event];
      table[event := r.(generation := r.generation + 1,
                        seatIds := if r.generation == r.completed then seats else MergeSeats(r.seatIds, seats))]
  }

  function Consume(db: Db, e: Envelope, now: Time): Tx<()> {
    if e.schema != 1 then Abort(db, UnsupportedSchema)
    else if e.id in db.inbox then Tx(db, Ok(()))
    else
      var seen := db.(inbox := db.inbox + {e.id});
      match e.payload
      case SeatsChanged(event, seats) =>
        if event !in db.store.events then Abort(db, ForeignKeyViolation)
        else Tx(seen.(refresh := RequestRefresh(db.refresh, event, seats, now)), Ok(()))
      case OrderPaid(o) =>
        if o !in db.store.orders || !IsPaid(db.store.orders[o].status) then Abort(db, NoPaidOrder)
        else Tx(Emit(seen.(store := FulfilOrder(db.store, o)), TicketsIssued(o)), Ok(()))
      case RefundRequested(p, o) =>
        Tx(seen.(store := SettleRefund(db.store, p, o)), Ok(()))
      case TicketsIssued(o) => Tx(seen, Ok(()))
      case Unknown => Abort(db, UnknownEvent)
  }
}
