// The reservation store as it runs: statements and loops over the tables inside one transaction.
// A raised failure restores the tables the transaction started from.
module ReservationStore {
  import opened Domain
  import opened Sums
  import opened Commerce
  import opened Transactions

  class PostgresReservations {
    var db: Db
    const holdSeconds: int

    constructor (tables: Db, seconds: int)
      ensures db == tables && holdSeconds == seconds
    {
      db := tables;
      holdSeconds := seconds;
    }

    // any(row booked or still reserved): every row is looked at once.
    method SeatsAvailable(keys: set<SeatKey>, now: Time) returns (free: bool)
      requires keys <= db.store.seats.Keys
      ensures free <==> AllFree(db.store.seats, keys, now)
    {
      var rest := keys;
      free := true;
      while rest != {}
        invariant rest <= keys
        invariant free <==> AllFree(db.store.seats, keys - rest, now)
        decreases rest
      {
        var k :| k in rest;
        rest := rest - {k};
        assert keys - rest == (keys - (rest + {k})) + {k};
        if !Free(db.store.seats[k], now) {
          free := false;
        }
      }
      assert keys - rest == keys;
    }

    method SeatsAvailableTo(keys: set<SeatKey>, now: Time, hold: Uuid) returns (free: bool)
      requires keys <= db.store.seats.Keys
      ensures free <==> AllFreeFor(db.store.seats, keys, now, hold)
    {
      var rest := keys;
      free := true;
      while rest != {}
        invariant rest <= keys
        invariant free <==> AllFreeFor(db.store.seats, keys - rest, now, hold)
        decreases rest
      {
        var k :| k in rest;
        rest := rest - {k};
        assert keys - rest == (keys - (rest + {k})) + {k};
        if !FreeFor(db.store.seats[k], now, hold) {
          free := false;
        }
      }
      assert keys - rest == keys;
    }

    // The order total: every requested row counted once.
    method TotalPrice(keys: set<SeatKey>) returns (total: nat)
      requires keys <= db.store.seats.Keys
      ensures total == MapSum(Prices(db.store.seats, keys))
    {
      hide MapSum;
      ghost var seats := db.store.seats;
      var rest := keys;
      total := 0;
      SumEmpty(Prices(seats, {}));
      assert keys - rest == {};
      while rest != {}
        invariant rest <= keys && seats == db.store.seats
        invariant total == MapSum(Prices(seats, keys - rest))
        decreases rest
      {
        var k :| k in rest;
        ghost var done := keys - rest;
        rest := rest - {k};
        PricesAdd(seats, done, k);
        assert keys - rest == done + {k};
        total := total + db.store.seats[k].price;
      }
      assert keys - rest == keys;
    }

    // One order_items row per seat, priced from the inventory.
    method InsertItems(order: Uuid, keys: set<SeatKey>)
      requires order in db.store.items && db.store.items[order] == map[] && keys <= db.store.seats.Keys
      modifies this`db
      ensures var st := old(db).store;
        db == old(db).(store := st.(items := st.items[order := Prices(st.seats, keys)]))
    {
      ghost var before := db;
      var rest := keys;
      assert Prices(before.store.seats, keys - rest) == map[];
      assert before.store.items[order := map[]] == before.store.items;
      while rest != {}
        invariant rest <= keys
        invariant db == WithItems(before, order, Prices(before.store.seats, keys - rest))
        decreases rest
      {
        var k :| k in rest;
        ghost var done := keys - rest;
        rest := rest - {k};
        assert keys - rest == done + {k};
        PricesInsert(before.store.seats, done, k);
        var row := db.store.items[order][k := db.store.seats[k].price];
        db := db.(store := db.store.(items := db.store.items[order := row]));
        ghost var grown := before.store.items[order := Prices(before.store.seats, done)];
        assert grown[order := Prices(before.store.seats, keys - rest)] ==
               before.store.items[order := Prices(before.store.seats, keys - rest)];
      }
      assert keys - rest == keys;
    }

    // The writes of a granted hold, in statement order.
    method WriteHold(n: NewHold)
      requires Keys(n.row.event, n.seats) <= db.store.seats.Keys && n.key in db.idem &&
        db.idem[n.key].request == n.request
      modifies this`db
      ensures db == CommitHold(old(db), n)
    {
      ghost var before := db;
      var keys := Keys(n.row.event, n.seats);
      db := db.(store := OpenHold(db.store, n.hold, n.row, n.order, n.total, n.currency, n.now, keys));
      assert Prices(db.store.seats, keys) == Prices(before.store.seats, keys);
      InsertItems(n.order, keys);
      db := Emit(db, SeatsChanged(n.row.event, Some(n.seats)));
      db := db.(idem := Remember(db.idem, n.key, HoldReply(n)));
      if n.command.Some? {
        var row := CommandRow(n.key, n.request, n.hold, n.order, HoldReply(n));
        db := db.(commands := db.commands[n.command.value := row]);
      }
      assert db.store == CreateHold(before.store, n.hold, n.row, n.order, n.total, n.currency, n.now, keys);
    }

    method ReserveSeats(actor: Actor, event: Uuid, seatIds: seq<SeatId>, key: string, now: Time, hold: Uuid,
                        order: Uuid)
      returns (r: Result<Response>)
      modifies this`db
      ensures Tx(db, r) == Reserve(old(db), actor, event, seatIds, key, now, holdSeconds, hold, order)
    {
      hide CommitHold, MapSum;
      var seats := set s | s in seatIds;
      if |seats| != |seatIds| || !(1 <= |seats| <= 8) {
        return Err(InvalidSeats);
      }
      var saved := db;
      var ik, request, keys := IdemKey(actor, HoldOp, key), HoldRequest(event, seats), Keys(event, seats);
      var inserted := Idem(db.idem, ik, request);
      db := db.(idem := inserted.0);
      if inserted.1.Err? || inserted.1.value.Some? {
        assert db == saved;
        return if inserted.1.Err? then Err(inserted.1.code) else Ok(inserted.1.value.value);
      }
      if event !in db.store.events {
        db := saved;
        return Err(EventNotFound);
      }
      var sale := db.store.events[event];
      if !(sale.saleStarts <= now < sale.saleEnds) {
        db := saved;
        return Err(SaleClosed);
      }
      if !(keys <= db.store.seats.Keys) {
        db := saved;
        return Err(SeatNotFound);
      }
      var free := SeatsAvailable(keys, now);
      if !free {
        db := saved;
        return Err(SeatUnavailable);
      }
      var total := TotalPrice(keys);
      var n := NewHold(ik, request, hold, order, HoldRow(actor, event, now + holdSeconds, ACTIVE), seats, total,
        sale.currency, now, None);
      WriteHold(n);
      CommitIgnoresPlaceholder(saved, n);
      return Ok(HoldReply(n));
    }

    method PersistReservationCommand(c: Command, now: Time) returns (r: Result<Response>)
      modifies this`db
      ensures Tx(db, r) == Persist(old(db), c, now)
    {
      hide CommitHold, MapSum;
      var ik, request, keys := IdemKey(c.actor, HoldOp, c.key), HoldRequest(c.event, c.seats), Keys(c.event, c.seats);
      if request != c.requestHash {
        return Err(CommandMismatch);
      }
      if c.id in db.commands {
        if db.commands[c.id].requestHash != c.requestHash {
          return Err(CommandMismatch);
        }
        return Ok(db.commands[c.id].response);
      }
      var saved := db;
      var inserted := Idem(db.idem, ik, request);
      db := db.(idem := inserted.0);
      if inserted.1.Err? || inserted.1.value.Some? {
        assert db == saved;
        if inserted.1.Err? {
          return Err(inserted.1.code);
        }
        var replay := inserted.1.value.value;
        return if Answers(replay, c) then Ok(replay) else Err(CommandMismatch);
      }
      if c.event !in db.store.events {
        db := saved;
        return Err(EventNotFound);
      }
      var sale := db.store.events[c.event];
      if !(sale.saleStarts <= now < sale.saleEnds) {
        db := saved;
        return Err(SaleClosed);
      }
      if !(keys <= db.store.seats.Keys) {
        db := saved;
        return Err(SeatNotFound);
      }
      if c.expiresAt <= now {
        db := saved;
        return Err(HoldExpired);
      }
      var free := SeatsAvailableTo(keys, now, c.holdId);
      if !free {
        db := saved;
        return Err(SeatUnavailable);
      }
      if c.holdId in db.store.holds || c.orderId in db.store.orders {
        db := saved;
        return Err(UniqueViolation);
      }
      var total := TotalPrice(keys);
      var n := NewHold(ik, request, c.holdId, c.orderId, HoldRow(c.actor, c.event, c.expiresAt, ACTIVE), c.seats,
                       total, sale.currency, now, Some(c.id));
      WriteHold(n);
      CommitIgnoresPlaceholder(saved, n);
      return Ok(HoldReply(n));
    }

    method CheckoutHold(actor: Actor, hold: Uuid, key: string, now: Time) returns (r: Result<Response>)
      modifies this`db
      ensures Tx(db, r) == Checkout(old(db), actor, hold, key, now)
    {
      var saved := db;
      var ik := IdemKey(actor, OrderOp, key);
      var inserted := Idem(db.idem, ik, OrderRequest(hold));
      db := db.(idem := inserted.0);
      if inserted.1.Err? || inserted.1.value.Some? {
        assert db == saved;
        return if inserted.1.Err? then Err(inserted.1.code) else Ok(inserted.1.value.value);
      }
      var found := OrderFor(db.store, hold, actor);
      if found.None? {
        db := saved;
        return Err(HoldNotFound);
      }
      var row := db.store.orders[found.value];
      if row.status.Pending? && ExpiredAt(db.store, hold, now) {
        db := saved;
        return Err(HoldExpired);
      }
      var reply := OrderResponse(found.value, row.status, row.total, row.currency);
      db := db.(idem := Remember(db.idem, ik, reply));
      return Ok(reply);
    }

    // `_release`
    method ReleaseRows(o: Uuid, state: HoldStatus)
      requires o in db.store.orders
      modifies this`db
      ensures db == ReleaseOrder(old(db), o, state)
    {
      var order := db.store.orders[o];
      var released := ReleasedKeys(db.store.seats, order.holdId);
      db := db.(store := db.store.(seats := ReleaseSeats(db.store.seats, order.holdId)));
      db := db.(store := db.store.(holds := CloseHold(db.store.holds, order.holdId, state)));
      if db.store.orders[o].status.Pending? {
        db := db.(store := db.store.(orders := SetOrder(db.store.orders, o, Expired)));
      }
      db := Emit(db, SeatsChanged(order.event, Some(SeatsOf(released))));
    }

    method ReleaseByActor(actor: Actor, hold: Uuid) returns (r: Result<()>)
      modifies this`db
      ensures Tx(db, r) == ReleaseHold(old(db), actor, hold)
    {
      hide ReleaseOrder;
      var found := OrderFor(db.store, hold, actor);
      if found.None? {
        return Err(HoldNotFound);
      }
      if IsPaid(db.store.orders[found.value].status) {
        return Err(AlreadyBooked);
      }
      ReleaseRows(found.value, RELEASED);
      return Ok(());
    }

    // The rows are those the expiry query locked; the loop releases them in order.
    // A limit outside 1 to 100 is an error before any query.
    method ExpireBatch(batch: seq<Uuid>, ghost now: Time, limit: int, ghost locked: set<Uuid>) returns (r: Result<nat>)
      requires 1 <= limit <= 100 ==> IsDueBatch(db.store, now, limit, locked, batch)
      modifies this`db
      ensures !(1 <= limit <= 100) ==> db == old(db) && r == Err(InvalidLimit)
      ensures 1 <= limit <= 100 ==>
        r == Ok(|batch|) && |batch| <= limit && (forall o :: o in batch ==> o in old(db).store.orders) &&
          db == ExpireAll(old(db), batch)
    {
      hide ReleaseOrder;
      if !(1 <= limit <= 100) {
        return Err(InvalidLimit);
      }
      ghost var before := db;
      assert batch[..0] == [];
      var i := 0;
      while i < |batch|
        invariant 0 <= i <= |batch|
        invariant forall o :: o in batch ==> o in before.store.orders
        invariant db == ExpireAll(before, batch[..i])
        invariant db.store.orders.Keys == before.store.orders.Keys
      {
        assert batch[..i + 1][..i] == batch[..i] && batch[..i + 1][i] == batch[i];
        assert batch[i] in before.store.orders;
        ReleaseKeepsOrders(db, batch[i]);
        ReleaseRows(batch[i], EXPIRED);
        i := i + 1;
      }
      assert batch[..i] == batch;
      return Ok(|batch|);
    }

    method StartPayment(actor: Actor, order: Uuid, key: string, outcome: PaymentOutcome, delay: nat, duplicates: nat,
                        now: Time, payment: Uuid)
      returns (r: Result<Response>)
      modifies this`db
      ensures Tx(db, r) == InitiatePayment(old(db), actor, order, key, outcome, delay, duplicates, now, payment)
    {
      var saved := db;
      var ik := IdemKey(actor, PaymentOp, key);
      var inserted := Idem(db.idem, ik, PaymentRequest(order, outcome, delay, duplicates));
      db := db.(idem := inserted.0);
      if inserted.1.Err? || inserted.1.value.Some? {
        assert db == saved;
        return if inserted.1.Err? then Err(inserted.1.code) else Ok(inserted.1.value.value);
      }
      if order !in db.store.orders || db.store.orders[order].actor != actor {
        db := saved;
        return Err(OrderNotFound);
      }
      var reply: Response;
      if order in db.store.paymentByOrder {
        reply := PaymentResponse(db.store.paymentByOrder[order], order);
      } else {
        if !db.store.orders[order].status.Pending? || ExpiredAt(db.store, db.store.orders[order].holdId, now) {
          db := saved;
          return Err(OrderNotPayable);
        }
        var row := PaymentRow(order, Awaiting, outcome, now + delay, duplicates);
        db := db.(store := OpenPayment(db.store, payment, row));
        reply := PaymentResponse(payment, order);
      }
      db := db.(idem := Remember(db.idem, ik, reply));
      return Ok(reply);
    }

    // bool(seats) and hold checks and all(row still held): one pass over the order's seats.
    method HoldStillValid(o: Uuid, now: Time) returns (valid: bool)
      requires o in db.store.orders && o in db.store.items && db.store.orders[o].holdId in db.store.holds
      ensures valid <==> ValidHold(db.store, o, now)
    {
      var h := db.store.orders[o].holdId;
      var items := db.store.items[o].Keys;
      var rest := items;
      var held := true;
      while rest != {}
        invariant rest <= items
        invariant held <==> forall k :: k in items - rest && k in db.store.seats ==>
          SeatHeldBy(db.store.seats[k], h, now)
        decreases rest
      {
        var k :| k in rest;
        rest := rest - {k};
        if k in db.store.seats && !SeatHeldBy(db.store.seats[k], h, now) {
          held := false;
        }
      }
      return items != {} && db.store.holds[h].status.ACTIVE? && db.store.holds[h].expiresAt > now && held;
    }

    // One bookings row per seat; a second booking of a seat violates the unique constraint.
    method InsertBookings(o: Uuid, keys: set<SeatKey>) returns (ok: bool)
      modifies this`db
      ensures ok <==> forall k :: k in keys ==> k !in old(db).store.bookings
      ensures ok ==> db == old(db).(store := old(db).store.(bookings := old(db).store.bookings + BookingsFor(keys, o)))
    {
      ghost var before := db;
      var rest := keys;
      assert before.store.bookings + BookingsFor(keys - rest, o) == before.store.bookings;
      while rest != {}
        invariant rest <= keys
        invariant forall k :: k in keys - rest ==> k !in before.store.bookings
        invariant db == WithBookings(before, before.store.bookings + BookingsFor(keys - rest, o))
        decreases rest
      {
        var k :| k in rest;
        ghost var done := keys - rest;
        if k in db.store.bookings {
          assert k !in done && k in before.store.bookings;
          return false;
        }
        rest := rest - {k};
        assert keys - rest == done + {k};
        assert before.store.bookings + BookingsFor(done + {k}, o) ==
               (before.store.bookings + BookingsFor(done, o))[k := o];
        db := db.(store := db.store.(bookings := db.store.bookings[k := o]));
      }
      assert keys - rest == keys;
      return true;
    }

    // The BOOK branch after its bookings are in.
    method BookRows(o: Uuid, ghost before: Db)
      requires o in before.store.orders && o in before.store.items &&
        before.store.orders[o].holdId in before.store.holds
      requires db == WithBookings(before, before.store.bookings + BookingsFor(before.store.items[o].Keys, o))
      modifies this`db
      ensures db == before.(store := BookOrder(before.store, o), outbox := before.outbox + [OrderPaid(o)])
    {
      var h := db.store.orders[o].holdId;
      db := db.(store := db.store.(seats := BookSeats(db.store.seats, h, o)));
      db := db.(store := db.store.(holds := db.store.holds[h := db.store.holds[h].(status := CONSUMED)]));
      db := db.(store := db.store.(orders := SetOrder(db.store.orders, o, Paid)));
      db := Emit(db, OrderPaid(o));
    }

    // The REFUND and FAILED branches.
    method CloseRows(p: Uuid, o: Uuid, d: Decision)
      requires o in db.store.orders && o in db.store.items && db.store.orders[o].holdId in db.store.holds
      requires d.Refund? || d.Fail?
      modifies this`db
      ensures db == Decide(old(db), p, o, d)
    {
      ReleaseRows(o, if d.Refund? then EXPIRED else RELEASED);
      var status := if d.Refund? then RefundPending else Failed;
      db := db.(store := db.store.(orders := SetOrder(db.store.orders, o, status)));
      if d.Refund? {
        if p !in db.store.refunds {
          db := db.(store := db.store.(refunds := db.store.refunds[p := RefundRow(o, false)]));
        }
        db := Emit(db, RefundRequested(p, o));
      }
    }

    // Everything a callback does once it is known to be new and its payment undecided.
    method SettleCallback(c: Callback, now: Time) returns (r: Result<CallbackReply>)
      requires Linked(db.store, c.payment)
      modifies this`db
      ensures Tx(db, r) == Settle(old(db), c, now)
    {
      hide ValidHold, PaymentDecision, Emit, OrderSeats;
      var saved := db;
      var o := db.store.payments[c.payment].order;
      var valid := HoldStillValid(o, now);
      var d := PaymentDecision(db.store.orders[o].status, valid, c.outcome);
      db := NoteOutcome(db, c);
      ghost var noted := db;
      if d.Book? {
        var ok := InsertBookings(o, saved.store.items[o].Keys);
        if !ok {
          db := saved;
          return Err(UniqueViolation);
        }
        BookRows(o, noted);
        BookIsDecide(noted, c.payment, o);
      } else if d.Refund? || d.Fail? {
        CloseRows(c.payment, o, d);
      }
      assert db == Decide(noted, c.payment, o, d);
      db := Emit(db, OrderSeats(saved.store, o));
      return Ok(Decided(d));
    }

    method HandleCallback(c: Callback, now: Time) returns (r: Result<CallbackReply>)
      modifies this`db
      ensures Tx(db, r) == PaymentCallback(old(db), c, now)
    {
      hide Settle;
      if c.payment !in db.store.payments {
        return Err(PaymentNotFound);
      }
      if !Linked(db.store, c.payment) {
        return Err(ForeignKeyViolation);
      }
      var pay := db.store.payments[c.payment];
      var order := db.store.orders[pay.order];
      if pay.order != c.order || order.total != c.amount || order.currency != c.currency {
        return Err(PaymentMismatch);
      }
      if c.id in db.callbacks {
        if db.callbacks[c.id].payload != c {
          return Err(CallbackMismatch);
        }
        return Ok(Duplicate);
      }
      if pay.status.Succeeded? {
        db := db.(callbacks := db.callbacks[c.id := CallbackRow(c.payment, c)]);
        return Ok(Duplicate);
      }
      r := SettleCallback(c, now);
    }

    // INSERT INTO tickets ... ON CONFLICT DO NOTHING, one per booking of the order.
    method IssueTickets(o: Uuid)
      modifies this`db
      ensures var st := old(db).store;
        db == old(db).(store := st.(tickets := st.tickets + BookedBy(st.bookings, o)))
    {
      ghost var before := db;
      var keys := BookedBy(db.store.bookings, o);
      var rest := keys;
      assert before.store.tickets + (keys - rest) == before.store.tickets;
      while rest != {}
        invariant rest <= keys
        invariant db == before.(store := before.store.(tickets := before.store.tickets + (keys - rest)))
        decreases rest
      {
        var k :| k in rest;
        ghost var done := keys - rest;
        rest := rest - {k};
        assert before.store.tickets + (keys - rest) == before.store.tickets + done + {k};
        if k !in db.store.tickets {
          db := db.(store := db.store.(tickets := db.store.tickets + {k}));
        } else {
          assert before.store.tickets + done + {k} == before.store.tickets + done;
        }
      }
      assert keys - rest == keys;
    }

    method ConsumeEvent(e: Envelope, now: Time) returns (r: Result<()>)
      modifies this`db
      ensures Tx(db, r) == Consume(old(db), e, now)
    {
      hide RequestRefresh;
      if e.schema != 1 {
        return Err(UnsupportedSchema);
      }
      var saved := db;
      if e.id in db.inbox {
        return Ok(());
      }
      db := db.(inbox := db.inbox + {e.id});
      match e.payload {
        case SeatsChanged(event, seats) =>
          if event !in db.store.events {
            db := saved;
            return Err(ForeignKeyViolation);
          }
          db := db.(refresh := RequestRefresh(db.refresh, event, seats, now));
        case OrderPaid(o) =>
          if o !in db.store.orders || !IsPaid(db.store.orders[o].status) {
            db := saved;
            return Err(NoPaidOrder);
          }
          IssueTickets(o);
          db := db.(store := db.store.(orders := SetOrder(db.store.orders, o, Fulfilled)));
          db := Emit(db, TicketsIssued(o));
        case RefundRequested(p, o) =>
          if p in db.store.refunds {
            db := db.(store := db.store.(refunds := db.store.refunds[p := db.store.refunds[p].(refunded := true)]));
          }
          if o in db.store.orders && db.store.orders[o].status.RefundPending? {
            db := db.(store := db.store.(orders := SetOrder(db.store.orders, o, Refunded)));
          }
        case TicketsIssued(_) =>
        case Unknown =>
          db := saved;
          return Err(UnknownEvent);
      }
      return Ok(());
    }
  }

  // ---------- the small facts the loops rest on ----------

  ghost function WithItems(db: Db, order: Uuid, rows: map<SeatKey, nat>): Db {
    db.(store := db.store.(items := db.store.items[order := rows]))
  }

  ghost function WithBookings(db: Db, bookings: map<SeatKey, Uuid>): Db {
    db.(store := db.store.(bookings := bookings))
  }

  lemma PricesInsert(seats: map<SeatKey, SeatRow>, done: set<SeatKey>, k: SeatKey)
    requires k in seats
    ensures Prices(seats, done + {k}) == Prices(seats, done)[k := seats[k].price]
  {
  }

  lemma PricesAdd(seats: map<SeatKey, SeatRow>, done: set<SeatKey>, k: SeatKey)
    requires k in seats && k !in done
    ensures MapSum(Prices(seats, done + {k})) == MapSum(Prices(seats, done)) + seats[k].price
  {
    PricesInsert(seats, done, k);
    SumAdd(Prices(seats, done), k, seats[k].price);
  }

  // The placeholder `idem` inserts is overwritten by the response `remember` stores.
  lemma CommitIgnoresPlaceholder(saved: Db, n: NewHold)
    ensures CommitHold(saved.(idem := Idem(saved.idem, n.key, n.request).0), n) == CommitHold(saved, n)
  {
    assert saved.idem[n.key := IdemRow(n.request, None)][n.key := IdemRow(n.request, Some(HoldReply(n)))] ==
           saved.idem[n.key := IdemRow(n.request, Some(HoldReply(n)))];
  }

  lemma ReleaseKeepsOrders(db: Db, o: Uuid)
    requires o in db.store.orders
    ensures ReleaseOrder(db, o, EXPIRED).store.orders.Keys == db.store.orders.Keys
  {
  }

  lemma BookIsDecide(db: Db, p: Uuid, o: Uuid)
    requires o in db.store.orders && o in db.store.items && db.store.orders[o].holdId in db.store.holds
    ensures Decide(db, p, o, Book) == db.(store := BookOrder(db.store, o), outbox := db.outbox + [OrderPaid(o)])
  {
  }
}
