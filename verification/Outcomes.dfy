// What each transaction on holds answers and leaves behind, in terms of rows: when exactly it fails and
// with which code, which rows change and to what, and that nothing else does. Keys are used once.
module Outcomes {
  import opened Domain
  import opened Sums
  import opened Commerce
  import opened Transactions
  import opened Records
  import opened Runs
  import opened StoreTheorems

  // ---------- rows ----------

  // A seat somebody else can still claim: sold, or reserved beyond now.
  predicate Occupied(r: SeatRow, now: Time) {
    r.bookedOrder.Some? || (r.reservedUntil.Some? && r.reservedUntil.value > now)
  }

  predicate Wanted(k: SeatKey, event: Uuid, seats: set<SeatId>) { k.event == event && k.seat in seats }

  predicate OnSale(st: Store, event: Uuid, now: Time) {
    event in st.events && st.events[event].saleStarts <= now && now < st.events[event].saleEnds
  }

  predicate AllExist(st: Store, event: Uuid, seats: set<SeatId>) {
    forall s :: s in seats ==> SeatKey(event, s) in st.seats
  }

  predicate SomeOccupied(st: Store, event: Uuid, seats: set<SeatId>, now: Time) {
    exists s :: s in seats && SeatKey(event, s) in st.seats && Occupied(st.seats[SeatKey(event, s)], now)
  }

  // Tables other than seats, holds, orders and items are as before.
  ghost predicate MoneySame(st: Store, st': Store) {
    && st'.payments == st.payments && st'.paymentByOrder == st.paymentByOrder && st'.refunds == st.refunds
    && st'.bookings == st.bookings && st'.tickets == st.tickets && st'.events == st.events
  }

  ghost predicate ConsumerSame(db: Db, db': Db) {
    db'.inbox == db.inbox && db'.refresh == db.refresh && db'.callbacks == db.callbacks
  }

  // The wanted seats carry the hold until it expires, one version later; no other seat changes.
  ghost predicate SeatsTaken(st: Store, st': Store, event: Uuid, seats: set<SeatId>, hold: Uuid, expires: Time) {
    && st'.seats.Keys == st.seats.Keys
    && forall k :: k in st.seats ==>
         if Wanted(k, event, seats)
         then st'.seats[k] == SeatRow(st.seats[k].price, Some(hold), Some(expires), None, st.seats[k].version + 1)
         else st'.seats[k] == st.seats[k]
  }

  // One new ACTIVE hold and one new PENDING order on it, with an item per seat at its price.
  ghost predicate OrderMade(st: Store, st': Store, actor: Actor, event: Uuid, seats: set<SeatId>, hold: Uuid,
                            order: Uuid,
                            expires: Time, now: Time)
  {
    && st'.holds == st.holds[hold := HoldRow(actor, event, expires, ACTIVE)]
    && order in st'.items && order in st'.orders && event in st.events
    && (forall k :: k in st'.items[order] <==> Wanted(k, event, seats))
    && (forall k :: k in st'.items[order] ==> k in st.seats && st'.items[order][k] == st.seats[k].price)
    && st'.orders == st.orders[order := OrderRow(actor, hold, event, MapSum(st'.items[order]),
                                                 st.events[event].currency, Pending, now)]
    && (forall o :: o in st.items && o != order ==> o in st'.items && st'.items[o] == st.items[o])
  }

  // Everything a successful new hold leaves behind, and nothing else.
  ghost predicate HoldMade(db: Db, db': Db, ik: IdemKey, event: Uuid, seats: set<SeatId>, hold: Uuid, order: Uuid,
                           expires: Time, now: Time, reply: Response)
  {
    && SeatsTaken(db.store, db'.store, event, seats, hold, expires)
    && OrderMade(db.store, db'.store, ik.actor, event, seats, hold, order, expires, now)
    && MoneySame(db.store, db'.store) && ConsumerSame(db, db')
    && db'.outbox == db.outbox + [SeatsChanged(event, Some(seats))]
    && reply == HoldResponse(hold, order, expires, db'.store.orders[order].total, db'.store.orders[order].currency,
        seats)
    && db'.idem == db.idem[ik := IdemRow(HoldRequest(event, seats), Some(reply))]
  }

  // A used key answers its record to the same request and refuses any other; nothing changes.
  ghost predicate KeyUsed(db: Db, tx: Tx<Response>, ik: IdemKey, request: Request)
    requires ik in db.idem
  {
    && tx.db == db
    && (db.idem[ik].request != request ==> tx.out == Err(IdempotencyMismatch))
    && (db.idem[ik].request == request ==> tx.out.Ok? && db.idem[ik].response == Some(tx.out.value))
  }

  // ---------- creating a hold ----------

  lemma SeatsTakenBy(st: Store, event: Uuid, seats: set<SeatId>, hold: Uuid, expires: Time, now: Time)
    requires AllFree(st.seats, Keys(event, seats), now)
    ensures SeatsTaken(st, st.(seats := HoldSeats(st.seats, Keys(event, seats), hold, expires)), event, seats, hold,
      expires)
  {
  }

  lemma CommitMakes(db: Db, n: NewHold)
    requires n.request == HoldRequest(n.row.event, n.seats) && n.row.status.ACTIVE? && n.row.actor == n.key.actor
    requires AllFree(db.store.seats, Keys(n.row.event, n.seats), n.now) && n.row.event in db.store.events
    requires n.total == MapSum(Prices(db.store.seats, Keys(n.row.event, n.seats)))
    requires n.currency == db.store.events[n.row.event].currency
    ensures HoldMade(db, CommitHold(db, n), n.key, n.row.event, n.seats, n.hold, n.order, n.row.expiresAt, n.now,
      HoldReply(n))
    ensures n.command.None? ==> CommitHold(db, n).commands == db.commands
    ensures n.command.Some? ==>
      CommitHold(db, n).commands ==
      db.commands[n.command.value := CommandRow(n.key, HoldRequest(n.row.event, n.seats), n.hold, n.order,
        HoldReply(n))]
  {
    hide MapSum, SeatsTaken, OrderMade, MoneySame, ConsumerSame;
    MakesSeats(db, n);
    MakesOrder(db, n);
    MakesNothingElse(db, n);
  }

  lemma MakesSeats(db: Db, n: NewHold)
    requires AllFree(db.store.seats, Keys(n.row.event, n.seats), n.now)
    ensures SeatsTaken(db.store, CommitHold(db, n).store, n.row.event, n.seats, n.hold, n.row.expiresAt)
  {
    hide SeatsTaken;
    var taken := HoldSeats(db.store.seats, Keys(n.row.event, n.seats), n.hold, n.row.expiresAt);
    SeatsTakenBy(db.store, n.row.event, n.seats, n.hold, n.row.expiresAt, n.now);
    SameSeatsTaken(db.store, db.store.(seats := taken), CommitHold(db, n).store, n);
  }

  lemma SameSeatsTaken(st: Store, a: Store, b: Store, n: NewHold)
    requires a.seats == b.seats && SeatsTaken(st, a, n.row.event, n.seats, n.hold, n.row.expiresAt)
    ensures SeatsTaken(st, b, n.row.event, n.seats, n.hold, n.row.expiresAt)
  {
  }

  lemma MakesOrder(db: Db, n: NewHold)
    requires n.row.status.ACTIVE? && n.row.actor == n.key.actor && n.row.event in db.store.events
    requires AllFree(db.store.seats, Keys(n.row.event, n.seats), n.now)
    requires n.total == MapSum(Prices(db.store.seats, Keys(n.row.event, n.seats)))
    requires n.currency == db.store.events[n.row.event].currency
    ensures OrderMade(db.store, CommitHold(db, n).store, n.key.actor, n.row.event, n.seats, n.hold, n.order,
      n.row.expiresAt, n.now)
  {
    hide MapSum, HoldSeats, Free;
    assert CommitHold(db, n).store.items[n.order] == Prices(db.store.seats, Keys(n.row.event, n.seats));
  }

  lemma MakesNothingElse(db: Db, n: NewHold)
    ensures MoneySame(db.store, CommitHold(db, n).store) && ConsumerSame(db, CommitHold(db, n))
  {
    hide HoldSeats, Commerce.Prices;
  }

  function Members(ids: seq<SeatId>): set<SeatId> { set s | s in ids }

  predicate Distinct(ids: seq<SeatId>) { forall i, j :: 0 <= i < j < |ids| ==> ids[i] != ids[j] }

  lemma DistinctGrows(front: seq<SeatId>, last: SeatId)
    ensures Distinct(front + [last]) <==> Distinct(front) && last !in front
    ensures Members(front + [last]) == Members(front) + {last}
  {
    var ids := front + [last];
    if Distinct(ids) {
      assert forall i :: 0 <= i < |front| ==> front[i] == ids[i] && ids[|front|] == last;
    }
  }

  lemma {:induction false} DistinctSize(ids: seq<SeatId>)
    ensures |Members(ids)| <= |ids| && (|Members(ids)| == |ids| <==> Distinct(ids))
  {
    if ids != [] {
      hide Distinct, Members;
      var front, last := ids[..|ids| - 1], ids[|ids| - 1];
      assert ids == front + [last];
      DistinctSize(front);
      DistinctGrows(front, last);
      MembersAre(front, last);
      assert last in Members(front) ==> Members(front) + {last} == Members(front);
      assert last !in Members(front) ==> |Members(front) + {last}| == |Members(front)| + 1;
    }
  }

  lemma MembersAre(ids: seq<SeatId>, s: SeatId)
    ensures s in Members(ids) <==> s in ids
  {
  }

  predicate ValidSeats(ids: seq<SeatId>) {
    1 <= |ids| <= 8 && Distinct(ids)
  }

  lemma SaleExactly(st: Store, event: Uuid, seats: set<SeatId>, now: Time)
    ensures var check := CheckSale(st, event, Keys(event, seats), now);
      && (check == Err(EventNotFound) <==> event !in st.events)
      && (check == Err(SaleClosed) <==> event in st.events && !OnSale(st, event, now))
      && (check == Err(SeatNotFound) <==> OnSale(st, event, now) && !AllExist(st, event, seats))
      && (check == Ok(None) <==> OnSale(st, event, now) && AllExist(st, event, seats))
      && (check.Err? ==> check.code in {EventNotFound, SaleClosed, SeatNotFound})
  {
    forall s | s in seats
      ensures SeatKey(event, s) in Keys(event, seats)
    {
    }
  }

  lemma FreeExactly(st: Store, event: Uuid, seats: set<SeatId>, now: Time)
    requires AllExist(st, event, seats)
    ensures AllFree(st.seats, Keys(event, seats), now) <==> !SomeOccupied(st, event, seats, now)
  {
    forall s | s in seats
      ensures SeatKey(event, s) in Keys(event, seats)
    {
    }
    if !AllFree(st.seats, Keys(event, seats), now) {
      var k :| k in Keys(event, seats) && !(k in st.seats && Free(st.seats[k], now));
      assert k == SeatKey(event, k.seat) && Occupied(st.seats[SeatKey(event, k.seat)], now);
    }
  }

  // Reservation: every answer and every row, for every input in every reachable state.
  lemma ReserveExactly(db: Db, now: Time, actor: Actor, event: Uuid, ids: seq<SeatId>, key: string, holdSeconds: int,
                       hold: Uuid, order: Uuid)
    requires Reachable(db, now)
    ensures var tx := Reserve(db, actor, event, ids, key, now, holdSeconds, hold, order);
      var st := db.store; var ik := IdemKey(actor, HoldOp, key); var seats := set s | s in ids;
      && (!ValidSeats(ids) ==> tx == Abort(db, InvalidSeats))
      && (ValidSeats(ids) && ik in db.idem ==> KeyUsed(db, tx, ik, HoldRequest(event, seats)))
      && (ValidSeats(ids) && ik !in db.idem ==>
            && (tx.out == Err(EventNotFound) <==> event !in st.events)
            && (tx.out == Err(SaleClosed) <==> event in st.events && !OnSale(st, event, now))
            && (tx.out == Err(SeatNotFound) <==> OnSale(st, event, now) && !AllExist(st, event, seats))
            && (tx.out == Err(SeatUnavailable) <==>
                  OnSale(st, event, now) && AllExist(st, event, seats) && SomeOccupied(st, event, seats, now))
            && (tx.out.Ok? <==>
                  OnSale(st, event, now) && AllExist(st, event, seats) && !SomeOccupied(st, event, seats, now))
            && (tx.out.Err? ==> tx.db == db)
            && (tx.out.Ok? ==>
                  && HoldMade(db, tx.db, ik, event, seats, hold, order, now + holdSeconds, now, tx.out.value)
                  && tx.db.commands == db.commands))
  {
    hide Reachable, CommitHold, HoldMade, AllFree, CheckSale, OnSale, AllExist, SomeOccupied, MapSum, DbOk;
    DistinctSize(ids);
    assert Members(ids) == set s | s in ids;
    var ik := IdemKey(actor, HoldOp, key);
    var seats := set s | s in ids;
    RecordedKey(db, now, ik);
    SaleExactly(db.store, event, seats, now);
    if CheckSale(db.store, event, Keys(event, seats), now) == Ok(None) {
      FreeExactly(db.store, event, seats, now);
    }
    if CheckReserve(db, ik, event, ids, now) == Ok(None) {
      CommitMakes(db, ReserveRecord(db, ik, event, ids, now, holdSeconds, hold, order));
    }
  }

  // Persisting a command: the same, with the command's own ids and expiry, after the replays of its row
  // and of its key.
  lemma PersistExactly(db: Db, now: Time, c: Command)
    requires Reachable(db, now)
    ensures var tx := Persist(db, c, now); var st := db.store; var ik := IdemKey(c.actor, HoldOp, c.key);
      var request := HoldRequest(c.event, c.seats);
      && (tx.out.Err? ==> tx.db == db)
      && (c.requestHash != request ==> tx.out == Err(CommandMismatch))
      && (c.requestHash == request && c.id in db.commands ==>
            tx == Tx(db, if db.commands[c.id].requestHash == request then Ok(db.commands[c.id].response)
              else Err(CommandMismatch)))
      && (c.requestHash == request && c.id !in db.commands && ik in db.idem ==>
            && tx.db == db
            && (db.idem[ik].request != request ==> tx.out == Err(IdempotencyMismatch))
            && (db.idem[ik].request == request ==>
                  var r := db.idem[ik].response;
                  tx.out == if r.Some? && r.value.HoldResponse? && r.value.holdId == c.holdId &&
                    r.value.orderId == c.orderId
                            then Ok(r.value) else Err(CommandMismatch)))
      && (c.requestHash == request && c.id !in db.commands && ik !in db.idem ==> NewCommand(db, now, c, tx))
  {
    hide Reachable, CommitHold, NewCommand, CheckSale, AllFreeFor, MapSum;
    RecordedKey(db, now, IdemKey(c.actor, HoldOp, c.key));
    if CheckReplay(db, c) == Ok(None) {
      NewCommandExactly(db, now, c);
    }
  }

  // A command seen for the first time under a new key.
  ghost predicate NewCommand(db: Db, now: Time, c: Command, tx: Tx<Response>) {
    var st := db.store; var ik := IdemKey(c.actor, HoldOp, c.key);
    var ready := OnSale(st, c.event, now) && AllExist(st, c.event, c.seats);
    && (tx.out == Err(EventNotFound) <==> c.event !in st.events)
    && (tx.out == Err(SaleClosed) <==> c.event in st.events && !OnSale(st, c.event, now))
    && (tx.out == Err(SeatNotFound) <==> OnSale(st, c.event, now) && !AllExist(st, c.event, c.seats))
    && (tx.out == Err(HoldExpired) <==> ready && c.expiresAt <= now)
    // A hold id in use is not this command's: such a command can only fail.
    && (c.holdId !in st.holds && c.orderId !in st.orders ==>
          && (tx.out == Err(SeatUnavailable) <==>
                ready && c.expiresAt > now && SomeOccupied(st, c.event, c.seats, now))
          && (tx.out.Ok? <==> ready && c.expiresAt > now && !SomeOccupied(st, c.event, c.seats, now)))
    && (tx.out.Ok? ==>
          && c.holdId !in st.holds && c.orderId !in st.orders
          && HoldMade(db, tx.db, ik, c.event, c.seats, c.holdId, c.orderId, c.expiresAt, now, tx.out.value)
          && tx.db.commands == db.commands[c.id := CommandRow(ik, c.requestHash, c.holdId, c.orderId, tx.out.value)])
  }

  lemma NewCommandExactly(db: Db, now: Time, c: Command)
    requires Reachable(db, now) && CheckReplay(db, c) == Ok(None)
    ensures NewCommand(db, now, c, Persist(db, c, now))
  {
    hide Reachable, CommitHold, HoldMade, AllFree, AllFreeFor, CheckSale, OnSale, AllExist, SomeOccupied, MapSum, DbOk;
    SaleExactly(db.store, c.event, c.seats, now);
    if CheckSale(db.store, c.event, Keys(c.event, c.seats), now) == Ok(None) {
      FreeExactly(db.store, c.event, c.seats, now);
      if c.holdId !in db.store.holds {
        OwnAllowance(db, now, c);
      }
    }
    if CheckPersist(db, c, now) == Ok(None) {
      CommitMakes(db, PersistRecord(db, c, now));
    }
  }

  // No seat carries a hold that does not exist.
  lemma OwnAllowance(db: Db, now: Time, c: Command)
    requires Reachable(db, now) && AllExist(db.store, c.event, c.seats) && c.holdId !in db.store.holds
    ensures AllFreeFor(db.store.seats, Keys(c.event, c.seats), now, c.holdId) <==>
            AllFree(db.store.seats, Keys(c.event, c.seats), now)
  {
    hide Reachable, DbOk;
    ReachableOk(db, now);
    DbOwned(db, now);
    if AllFreeFor(db.store.seats, Keys(c.event, c.seats), now, c.holdId) {
      FreeForIsFree(db.store, now, Keys(c.event, c.seats), c.holdId);
    }
  }

  lemma DbOwned(db: Db, now: Time)
    requires DbOk(db, now)
    ensures Owned(db.store)
  {
    hide Recorded, EventsOk, OrdersKnown;
    BooksOwned(db.store, now);
  }

  lemma RecordedKey(db: Db, now: Time, ik: IdemKey)
    requires Reachable(db, now)
    ensures ik in db.idem ==> db.idem[ik].response.Some?
  {
    hide Reachable, Books, EventsOk, OrdersKnown, OneEffect, AllCommandsOk;
    ReachableOk(db, now);
    assert ik in db.idem ==> RecordOk(db.store, ik, db.idem[ik]);
  }

  // ---------- checkout ----------

  predicate Mine(st: Store, o: Uuid, hold: Uuid, actor: Actor) {
    o in st.orders && st.orders[o].holdId == hold && st.orders[o].actor == actor
  }

  lemma FindsOrder(db: Db, now: Time, hold: Uuid, actor: Actor)
    requires Reachable(db, now)
    ensures forall o: Uuid :: Mine(db.store, o, hold, actor) <==> OrderFor(db.store, hold, actor) == Some(o)
    ensures forall o :: o in db.store.orders ==> db.store.orders[o].holdId in db.store.holds
  {
    hide Reachable, DbOk, Mine, OrderFor;
    ReachableOk(db, now);
    forall o: Uuid
      ensures Mine(db.store, o, hold, actor) <==> OrderFor(db.store, hold, actor) == Some(o)
      ensures o in db.store.orders ==> db.store.orders[o].holdId in db.store.holds
    {
      FindsOne(db, now, hold, actor, o);
    }
  }

  lemma FindsOne(db: Db, now: Time, hold: Uuid, actor: Actor, o: Uuid)
    requires DbOk(db, now)
    ensures Mine(db.store, o, hold, actor) <==> OrderFor(db.store, hold, actor) == Some(o)
    ensures o in db.store.orders ==> db.store.orders[o].holdId in db.store.holds
  {
    hide DbOk;
    if o in db.store.orders {
      OrderIsOk(db, now, o);
    }
  }

  lemma OrderIsOk(db: Db, now: Time, o: Uuid)
    requires DbOk(db, now) && o in db.store.orders
    ensures OrderOk(db.store, o)
  {
    hide Owned, Priced, Charged, Ticketed, Current, Recorded, EventsOk, OrdersKnown;
  }

  // Checkout: the actor's own order on that hold, unless it is pending and out of time.
  lemma CheckoutExactly(db: Db, now: Time, actor: Actor, hold: Uuid, key: string, o: Uuid)
    requires Reachable(db, now)
    ensures var tx := Checkout(db, actor, hold, key, now); var ik := IdemKey(actor, OrderOp, key); var st := db.store;
      && (ik in db.idem ==> KeyUsed(db, tx, ik, OrderRequest(hold)))
      && (ik !in db.idem ==>
            && (tx.out == Err(HoldNotFound) <==> forall q: Uuid :: !Mine(st, q, hold, actor))
            && (tx.out.Err? ==> tx.db == db)
            && (Mine(st, o, hold, actor) ==>
                  var r := st.orders[o]; var late := r.status.Pending? && hold in st.holds &&
                    st.holds[hold].expiresAt <= now;
                  && (late ==> tx.out == Err(HoldExpired))
                  && (!late ==>
                        && tx.out == Ok(OrderResponse(o, r.status, r.total, r.currency))
                        && tx.db == db.(idem := db.idem[ik := IdemRow(OrderRequest(hold), Some(tx.out.value))]))))
  {
    hide Reachable, Mine, OrderFor;
    RecordedKey(db, now, IdemKey(actor, OrderOp, key));
    FindsOrder(db, now, hold, actor);
  }

  // ---------- release and expiry ----------

  function FreedRow(r: SeatRow): SeatRow { SeatRow(r.price, None, None, None, r.version + 1) }

  // Exactly the seats that carried the hold are free again, one version later; an ACTIVE hold is closed, a
  // PENDING order expires, the freed seats are announced, and nothing else changes.
  ghost predicate Released(db: Db, db': Db, o: Uuid, state: HoldStatus)
    requires o in db.store.orders
  {
    var st := db.store; var st' := db'.store; var r := st.orders[o]; var h := r.holdId;
    && st'.seats.Keys == st.seats.Keys
    && (forall k :: k in st.seats ==>
          st'.seats[k] == if st.seats[k].holdId == Some(h) then FreedRow(st.seats[k]) else st.seats[k])
    && st'.holds == (if h in st.holds && st.holds[h].status.ACTIVE? then st.holds[h := st.holds[h].(status := state)]
        else st.holds)
    && st'.orders == (if r.status.Pending? then st.orders[o := r.(status := Expired)] else st.orders)
    && st'.items == st.items && st'.orderByHold == st.orderByHold && MoneySame(st, st')
    && ConsumerSame(db, db') && db'.idem == db.idem && db'.commands == db.commands
    && |db'.outbox| == |db.outbox| + 1 && db'.outbox[..|db.outbox|] == db.outbox
    && db'.outbox[|db.outbox|].SeatsChanged? && db'.outbox[|db.outbox|].event == r.event
    && db'.outbox[|db.outbox|].seats.Some?
    && (forall s :: s in db'.outbox[|db.outbox|].seats.value <==>
          SeatKey(r.event, s) in st.seats && st.seats[SeatKey(r.event, s)].holdId == Some(h))
  }

  lemma ReleaseFrees(db: Db, now: Time, o: Uuid, state: HoldStatus)
    requires DbOk(db, now) && o in db.store.orders
    ensures Released(db, ReleaseOrder(db, o, state), o, state)
  {
    hide Recorded, EventsOk, OrdersKnown, Charged, Ticketed, Current;
    var st := db.store;
    forall k | k in st.seats && st.seats[k].holdId == Some(st.orders[o].holdId)
      ensures st.seats[k].bookedOrder.None? && k == SeatKey(st.orders[o].event, k.seat)
    {
      HeldSeatOfOrder(db, now, o, k);
    }
    FreesRows(db, o, state);
  }

  lemma HeldSeatOfOrder(db: Db, now: Time, o: Uuid, k: SeatKey)
    requires DbOk(db, now) && o in db.store.orders && k in db.store.seats
    requires db.store.seats[k].holdId == Some(db.store.orders[o].holdId)
    ensures db.store.seats[k].bookedOrder.None? && k.event == db.store.orders[o].event
  {
    hide Recorded, EventsOk, OrdersKnown, Charged, Ticketed, Current;
    assert SeatOk(db.store, k);
    assert OrderOk(db.store, o) && ItemsOk(db.store, o);
  }

  lemma FreesRows(db: Db, o: Uuid, state: HoldStatus)
    requires o in db.store.orders
    requires forall k :: k in db.store.seats && db.store.seats[k].holdId == Some(db.store.orders[o].holdId) ==>
      db.store.seats[k].bookedOrder.None? && k == SeatKey(db.store.orders[o].event, k.seat)
    ensures Released(db, ReleaseOrder(db, o, state), o, state)
  {
  }

  lemma ReleaseExactly(db: Db, now: Time, actor: Actor, hold: Uuid, o: Uuid)
    requires Reachable(db, now)
    ensures var tx := ReleaseHold(db, actor, hold); var st := db.store;
      && (tx.out == Err(HoldNotFound) <==> forall q: Uuid :: !Mine(st, q, hold, actor))
      && (tx.out.Err? ==> tx.db == db)
      && (Mine(st, o, hold, actor) ==>
            && (IsPaid(st.orders[o].status) ==> tx.out == Err(AlreadyBooked))
            && (!IsPaid(st.orders[o].status) ==> tx.out.Ok? && Released(db, tx.db, o, RELEASED)))
  {
    hide Reachable, Mine, OrderFor, DbOk, ReleaseOrder, Released;
    FindsOrder(db, now, hold, actor);
    ReachableOk(db, now);
    var found := OrderFor(db.store, hold, actor);
    if found.Some? {
      assert Mine(db.store, found.value, hold, actor);
      MineIsOrder(db.store, found.value, hold, actor);
      ReleaseFrees(db, now, found.value, RELEASED);
    }
  }

  lemma MineIsOrder(st: Store, o: Uuid, hold: Uuid, actor: Actor)
    requires Mine(st, o, hold, actor)
    ensures o in st.orders
  {
  }

  // A hold of one of the orders.
  ghost predicate OfBatch(st: Store, batch: seq<Uuid>, h: Uuid) {
    exists o :: o in batch && o in st.orders && st.orders[o].holdId == h
  }

  // Every order of the batch has expired with its hold and given its seats back; nothing else changed.
  ghost predicate AllExpired(st: Store, st': Store, batch: seq<Uuid>) {
    && st'.orders.Keys == st.orders.Keys && st'.holds.Keys == st.holds.Keys && st'.seats.Keys == st.seats.Keys
    && (forall o :: o in st.orders ==>
          st'.orders[o] == if o in batch then st.orders[o].(status := Expired) else st.orders[o])
    && (forall h :: h in st.holds ==>
          st'.holds[h] == if OfBatch(st, batch, h) then st.holds[h].(status := EXPIRED) else st.holds[h])
    && (forall k :: k in st.seats ==>
          st'.seats[k] ==
          if st.seats[k].holdId.Some? && OfBatch(st, batch, st.seats[k].holdId.value) then FreedRow(st.seats[k])
            else st.seats[k])
    && st'.items == st.items && MoneySame(st, st')
  }

  lemma {:induction false} ExpireFrees(db: Db, now: Time, batch: seq<Uuid>)
    requires DbOk(db, now) && (forall o :: o in batch ==> o in db.store.orders && Due(db.store, o, now))
    requires forall i, j :: 0 <= i < j < |batch| ==> batch[i] != batch[j]
    ensures AllExpired(db.store, ExpireAll(db, batch).store, batch)
    ensures |ExpireAll(db, batch).outbox| == |db.outbox| + |batch| && ExpireAll(db, batch).idem == db.idem
  {
    hide DbOk, ReleaseOrder, AllExpired, Due;
    if batch == [] {
      NoneExpired(db.store);
    } else {
      var front, last := batch[..|batch| - 1], batch[|batch| - 1];
      assert batch == front + [last] && last in batch && last !in front;
      assert forall o :: o in front ==> o in batch;
      ExpireFrees(db, now, front);
      LastExpires(db, now, front, last);
    }
  }

  lemma LastExpires(db: Db, now: Time, front: seq<Uuid>, last: Uuid)
    requires DbOk(db, now) && (forall o :: o in front ==> o in db.store.orders)
    requires last in db.store.orders && Due(db.store, last, now) && last !in front
    requires AllExpired(db.store, ExpireAll(db, front).store, front)
    ensures var mid := ExpireAll(db, front);
      && last in mid.store.orders
      && var db' := ReleaseOrder(mid, last, EXPIRED);
         AllExpired(db.store, db'.store, front + [last]) && |db'.outbox| == |mid.outbox| + 1 && db'.idem == mid.idem
  {
    hide DbOk, ReleaseOrder, AllExpired, ExpireAll, Due;
    ExpireOk(db, now, front);
    var mid := ExpireAll(db, front);
    StillThere(db.store, mid.store, front, last);
    ReleaseFrees(mid, now, last, EXPIRED);
    OneMoreExpired(db, mid, now, front, last);
  }

  lemma NoneExpired(st: Store)
    ensures AllExpired(st, st, [])
  {
  }

  lemma StillThere(st: Store, st': Store, front: seq<Uuid>, last: Uuid)
    requires AllExpired(st, st', front) && last in st.orders
    ensures last in st'.orders
  {
  }

  lemma OneMoreExpired(db: Db, mid: Db, now: Time, front: seq<Uuid>, last: Uuid)
    requires DbOk(db, now) && AllExpired(db.store, mid.store, front) && Due(db.store, last, now) && last !in front
    requires last in mid.store.orders && Released(mid, ReleaseOrder(mid, last, EXPIRED), last, EXPIRED)
    ensures AllExpired(db.store, ReleaseOrder(mid, last, EXPIRED).store, front + [last])
  {
    hide DbOk, ReleaseOrder, OfBatch, Due;
    var st, st' := db.store, ReleaseOrder(mid, last, EXPIRED).store;
    var h := st.orders[last].holdId;
    DueIsPending(db, now, last);
    OwnHold(db, now, front, last);
    forall g: Uuid
      ensures OfBatch(st, front + [last], g) <==> OfBatch(st, front, g) || g == h
    {
      BatchGrows(st, front, last, g);
    }
  }

  lemma BatchGrows(st: Store, front: seq<Uuid>, last: Uuid, g: Uuid)
    requires last in st.orders
    ensures OfBatch(st, front + [last], g) <==> OfBatch(st, front, g) || g == st.orders[last].holdId
  {
    if OfBatch(st, front, g) {
      var o :| o in front && o in st.orders && st.orders[o].holdId == g;
      assert o in front + [last];
    }
    if g == st.orders[last].holdId {
      assert last in front + [last];
    }
  }

  lemma DueIsPending(db: Db, now: Time, o: Uuid)
    requires DbOk(db, now) && Due(db.store, o, now)
    ensures db.store.orders[o].status.Pending? && db.store.holds[db.store.orders[o].holdId].status.ACTIVE?
  {
    hide Recorded, EventsOk, OrdersKnown, Owned, Priced, Charged, Ticketed, Current;
    assert OrderOk(db.store, o);
  }

  // Orders do not share holds.
  lemma OwnHold(db: Db, now: Time, front: seq<Uuid>, last: Uuid)
    requires DbOk(db, now) && last in db.store.orders && last !in front
    ensures !OfBatch(db.store, front, db.store.orders[last].holdId)
  {
    hide Recorded, EventsOk, OrdersKnown, Owned, Priced, Charged, Ticketed, Current;
    assert OrderOk(db.store, last);
    forall o | o in front && o in db.store.orders
      ensures db.store.orders[o].holdId != db.store.orders[last].holdId
    {
      assert OrderOk(db.store, o);
    }
  }

  // The expiry worker: what its batch leaves behind, for every batch the query may return.
  lemma ExpireExactly(db: Db, now: Time, limit: nat, locked: set<Uuid>, batch: seq<Uuid>)
    requires Reachable(db, now) && IsDueBatch(db.store, now, limit, locked, batch)
    ensures forall o :: o in batch ==> o in db.store.orders
    ensures AllExpired(db.store, ExpireAll(db, batch).store, batch)
    ensures |ExpireAll(db, batch).outbox| == |db.outbox| + |batch| && ExpireAll(db, batch).idem == db.idem
  {
    hide Reachable, DbOk, AllExpired;
    ReachableOk(db, now);
    assert forall o :: o in batch ==> Due(db.store, o, now);
    ExpireFrees(db, now, batch);
  }
}
