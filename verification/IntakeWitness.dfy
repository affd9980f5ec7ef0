// A run from an empty system that ends with a command FAILED in Redis and persisted in the store:
// one seat, one hold that Redis has not heard of, one command on the stale map.
module IntakeWitness {
  import opened Domain
  import opened Sums
  import opened SeatMaps
  import opened Transactions
  import Records
  import opened Runs
  import opened StoreTheorems
  import opened IntakeScripts
  import opened IntakeRuns
  import opened IntakeProofs
  import opened IntakeTheorems

  const SEAT := SeatKey(0, "A")
  const WRITER: Uuid := 7
  const COMMAND: Uuid := 3

  // The sale runs from 0 to 100; seat A costs 5.
  function Inventory(): Db { OpenInventory(map[0 := EventRow("THB", 0, 100)], map[SEAT := 5]) }

  function Start(): Sys {
    Sys(0, 10, Inventory(), Slot(NO_MAP, map[], map[], map[], map[], 0), map[], {}, map[], {})
  }

  // The first snapshot shows seat A as available; then somebody holds it in the store until 10.
  function Snapshot(): Write { Full(map["A" := SeatState(5, AVAILABLE, None, None, 0)], 9, Some(Sale(0, 100, "THB"))) }

  function Rival(): Step { DoReserve("rival", 0, ["A"], "r", 10, 1, 2) }

  function Late(): Demand { Demand("late", "k", 0, ["A"], COMMAND, 4, 5, 100, 90) }

  ghost predicate RivalHolds(db: Db) {
    && db.store.events == map[0 := EventRow("THB", 0, 100)] && db.store.seats.Keys == {SEAT}
    && db.store.seats[SEAT] == SeatRow(5, Some(1), Some(10), None, 1)
    && db.store.holds.Keys == {1} && db.store.orders.Keys == {2}
    && db.commands == map[] && db.idem.Keys == {IdemKey("rival", HoldOp, "r")}
  }

  lemma RivalIsFree()
    ensures CheckReserve(Inventory(), IdemKey("rival", HoldOp, "r"), 0, ["A"], 0) == Ok(None)
  {
    var seats := set s | s in ["A"];
    assert seats == {"A"} && |seats| == 1;
    assert Keys(0, seats) == {SEAT};
    assert AllFree(Inventory().store.seats, {SEAT}, 0);
  }

  lemma RivalRows(db: Db, n: NewHold)
    requires db == Inventory() && n.seats == {"A"} && n.row == HoldRow("rival", 0, 10, ACTIVE) && n.hold == 1 &&
      n.order == 2
    requires n.key == IdemKey("rival", HoldOp, "r") && n.command.None?
    ensures RivalHolds(CommitHold(db, n))
  {
    assert Keys(0, n.seats) == {SEAT};
  }

  lemma RivalReserves()
    ensures Enabled(Inventory(), 0, Rival()) && RivalHolds(Apply(Inventory(), 0, Rival()))
  {
    hide CheckReserve, CommitHold, MapSum, RivalHolds;
    RivalIsFree();
    var n := ReserveRecord(Inventory(), IdemKey("rival", HoldOp, "r"), 0, ["A"], 0, 10, 1, 2);
    assert n.seats == {"A"};
    RivalRows(Inventory(), n);
  }

  // The rival keeps the command out before 10 and no longer from 10 on.
  lemma LateCommand(db: Db, now: Time)
    requires RivalHolds(db) && 0 <= now <= 10
    ensures var tx := Persist(db, CommandOf(Late()), now);
      if now < 10 then tx == Abort(db, SeatUnavailable) else tx.out.Ok?
  {
    hide MapSum, CommitHold;
    var c := CommandOf(Late());
    assert c.seats == {"A"};
    assert Keys(0, c.seats) == {SEAT};
    assert CheckReplay(db, c) == Ok(None);
    assert CheckSale(db.store, 0, {SEAT}, now) == Ok(None);
    assert FreeFor(db.store.seats[SEAT], now, 4) <==> now >= 10;
    assert AllFreeFor(db.store.seats, {SEAT}, now, 4) <==> now >= 10;
  }

  // The map as the first snapshot leaves it: whole, open, seat A available.
  ghost predicate Stale(m: SeatMap) {
    && m.version.Some? && !m.updating && m.sale == Some(Sale(0, 100, "THB"))
    && m.seats.Keys == {"A"} && m.seats["A"].state.status.AVAILABLE?
  }

  lemma SnapshotIsStale()
    ensures Stale(Put(NO_MAP, Snapshot()))
  {
    hide NextVersion;
    assert Changed(NO_MAP, Snapshot()) == {"A"};
  }

  // The command is accepted on the stale map.
  lemma LateIsAccepted(r: Slot)
    requires Stale(r.seatMap) && r.idem == map[] && r.stream == map[]
    ensures Enqueue(r, Late(), 10, 1) == (Admit(r, Late(), 1), Accepted(ReplyTo(r, Late(), 1)))
  {
    hide Admit, ReplyTo;
    assert |r.stream| == 0;
    EnqueueExactly(r, Late(), 10, 1);
  }

  // Before the writer asks the store.
  ghost predicate Waiting(s: Sys) {
    && RivalHolds(s.db) && WRITER in s.writers
    && s.writers[WRITER].payload == CommandOf(Late()) && COMMAND in s.slot.commands
    && s.slot.commands[COMMAND].status.PENDING? && s.writers.Keys == {WRITER}
  }

  lemma DeliveredTo(s: Sys)
    requires RivalHolds(s.db) && s.event == 0 && s.backlog == 10 && s.issued == {} && s.writers == map[]
    requires Stale(s.slot.seatMap) && s.slot.idem == map[] && s.slot.stream == map[] && s.slot.nextId == 0
    ensures Can(s, 1, DoEnqueue(Late()))
    ensures var s' := Next(s, 1, DoEnqueue(Late()));
      Can(s', 1, DoDeliver(WRITER, 0)) && Waiting(Next(s', 1, DoDeliver(WRITER, 0))) &&
      Next(s', 1, DoDeliver(WRITER, 0)).writers[WRITER].phase.Delivered?
  {
    hide Enqueue, Occupied, Total;
    LateIsAccepted(s.slot);
  }

  // The system after snapshot, rival hold, acceptance and delivery.
  lemma WaitingIsReached() returns (s: Sys)
    ensures Reached(s, 1) && Waiting(s) && s.writers[WRITER].phase.Delivered?
  {
    hide Reached, Put, Apply, Enabled, RivalHolds, Stale, AfterEnqueue, AfterDeliver, NewIds;
    assert Reached(Start(), 0) by { StartIsReached(); }
    SnapshotIsStale();
    RivalReserves();
    var s1 := WithMap(Start(), Put(NO_MAP, Snapshot()));
    ReachedMove(Start(), 0, Event(0, DoWrite(Snapshot())));
    assert Foreign(s1, Rival());
    ReachedMove(s1, 0, Event(0, DoStore(Rival())));
    var s2 := s1.(db := Apply(Inventory(), 0, Rival()));
    DeliveredTo(s2);
    ReachedMove(s2, 0, Event(1, DoEnqueue(Late())));
    var s3 := Next(s2, 1, DoEnqueue(Late()));
    ReachedMove(s3, 1, Event(1, DoDeliver(WRITER, 0)));
    s := Next(s3, 1, DoDeliver(WRITER, 0));
  }

  lemma StartIsReached()
    ensures Reached(Start(), 0)
  {
    hide DbOk, Reachable;
    InventoryIsReachable(map[0 := EventRow("THB", 0, 100)], map[SEAT := 5], 0);
    StoreStarts(Inventory(), 0, 10, NO_MAP, 0);
    Nothing(Start(), 0);
    assert IntakeTheorems.Clock(0, []) == 0;
    assert Initial(Start(), 0) && Possible(Start(), 0, []) && Start() == After(Start(), 0, []);
  }

  // Refused at 2, while the rival still holds the seat.
  ghost predicate Turned(s: Sys) {
    Waiting(s) && s.writers[WRITER].phase.Refused?
  }

  lemma TurnedIsReached() returns (s: Sys)
    ensures Reached(s, 2) && Turned(s)
  {
    hide Reached, RivalHolds, Persist;
    var before := WaitingIsReached();
    LateCommand(before.db, 2);
    ReachedMove(before, 1, Event(2, DoPersistBy(WRITER)));
    s := Next(before, 2, DoPersistBy(WRITER));
  }

  // FAILED in Redis, persisted in the store: the writer marks the command FAILED at 2 and dies; at 10
  // the message is delivered again and the seat is free.
  lemma FailedPersistedIsReached()
    ensures exists s :: Reached(s, 10) && COMMAND in s.db.commands && ShowsFailed(s, COMMAND)
  {
    hide Reached, SysOk, RivalHolds, Persist, Possible, After;
    var s := TurnedIsReached();
    ReachedOk(s, 2);
    LateCommand(s.db, 10);
    FailedYetPersisted(s, 2, WRITER, 10);
    var message := s.writers[WRITER].message;
    var run := [Event(2, DoMark(WRITER)), Event(2, DoCrash(WRITER)),
                Event(10, DoDeliver(WRITER, message)), Event(10, DoPersistBy(WRITER))];
    ReachedRun(s, 2, run);
  }

  const SECOND: Uuid := 8

  // A second writer persists the command while the first still holds its refusal.
  lemma SecondPersists(s: Sys)
    requires SysOk(s, 2) && Turned(s)
    ensures var message := s.writers[WRITER].message;
      && Can(s, 10, DoDeliver(SECOND, message))
      && var s1 := Next(s, 10, DoDeliver(SECOND, message));
         && Can(s1, 10, DoPersistBy(SECOND))
         && var s2 := Next(s1, 10, DoPersistBy(SECOND));
            COMMAND in s2.db.commands && s2.slot == s.slot && RefusalInHand(s2, COMMAND)
  {
    hide Persist, SysOk;
    var c := CommandOf(Late());
    MessageWaits(s, 2, WRITER);
    LateCommand(s.db, 10);
    StoredCommand(s, c);
    SuccessLeavesRow(s.db, c, 10);
    var s1 := Next(s, 10, DoDeliver(SECOND, s.writers[WRITER].message));
    var s2 := Next(s1, 10, DoPersistBy(SECOND));
    assert s2.writers[WRITER] == s.writers[WRITER];
  }

  lemma StoredCommand(s: Sys, c: Command)
    requires SysOk(s, 2) && WRITER in s.writers && s.writers[WRITER].payload == c
    ensures Records.Recorded(s.db) && StoredOk(s.db, c.id, c) && c.requestHash == HoldRequest(c.event, c.seats)
  {
    hide Books, Records.EventsOk, Records.OrdersKnown, HashesOk, StreamOk, KeysOk, OwnersOk, Records.Recorded;
    assert WriterOk(s.db.commands.Keys, s.slot.commands, s.log, s.writers[WRITER]);
    assert OriginalOk(s.event, s.issued, s.slot.nextId, c.id, s.log[c.id]);
    assert StoredOk(s.db, c.id, s.log[c.id].payload);
  }

  // The condition of PersistedCanFailExactly is met by a reached state: a command that is persisted
  // and still PENDING can become FAILED.
  lemma PersistedCanFailIsReached()
    ensures exists s ::
      && Reached(s, 10) && COMMAND in s.db.commands && COMMAND in s.slot.commands
      && s.slot.commands[COMMAND].status.PENDING? && RefusalInHand(s, COMMAND)
  {
    hide Reached, SysOk, Persist, RivalHolds, RefusalInHand, AfterPersist, AfterDeliver;
    var s := TurnedIsReached();
    ReachedOk(s, 2);
    SecondPersists(s);
    ReachedMove(s, 2, Event(10, DoDeliver(SECOND, s.writers[WRITER].message)));
    var s1 := Next(s, 10, DoDeliver(SECOND, s.writers[WRITER].message));
    ReachedMove(s1, 10, Event(10, DoPersistBy(SECOND)));
    var s2 := Next(s1, 10, DoPersistBy(SECOND));
  }
}
