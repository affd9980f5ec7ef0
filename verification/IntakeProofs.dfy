// Every move of the intake system keeps its invariant.
module IntakeProofs {
  import opened Domain
  import opened Commerce
  import opened Forward
  import opened SeatMaps
  import opened Transactions
  import opened Records
  import opened Runs
  import HoldHistory
  import opened IntakeScripts
  import opened IntakeRuns

  // ---------- the durable store's side ----------

  lemma CommitGrows(db: Db, n: NewHold)
    requires n.command.Some? ==> n.command.value !in db.commands
    ensures StoreGrows(db, CommitHold(db, n), Some(n.hold), n.command)
  {
  }

  lemma PersistGrows(db: Db, c: Command, now: Time)
    ensures StoreGrows(db, Persist(db, c, now).db, Some(c.holdId), Some(c.id))
  {
    hide CommitHold, StoreGrows;
    assert StoreGrows(db, db, Some(c.holdId), Some(c.id)) by { StaysGrown(db, Some(c.holdId), Some(c.id)); }
    if CheckPersist(db, c, now) == Ok(None) {
      CommitGrows(db, PersistRecord(db, c, now));
    }
  }

  lemma StaysGrown(db: Db, hold: Option<Uuid>, row: Option<Uuid>)
    ensures StoreGrows(db, db, hold, row)
  {
  }

  lemma ReserveGrows(db: Db, now: Time, step: Step)
    requires step.DoReserve? && Enabled(db, now, step)
    ensures StoreGrows(db, Apply(db, now, step), StepHold(step), None)
  {
    hide CommitHold, StoreGrows;
    StaysGrown(db, StepHold(step), None);
    var ik := IdemKey(step.actor, HoldOp, step.key);
    if CheckReserve(db, ik, step.event, step.seatIds, now) == Ok(None) {
      CommitGrows(db, ReserveRecord(db, ik, step.event, step.seatIds, now, step.holdSeconds, step.hold, step.order));
    }
  }

  lemma {:induction false} ExpireKeepsCommands(db: Db, batch: seq<Uuid>)
    requires forall o :: o in batch ==> o in db.store.orders
    ensures ExpireAll(db, batch).commands == db.commands
  {
    if batch != [] {
      ExpireKeepsCommands(db, batch[..|batch| - 1]);
    }
  }

  lemma DueAreOrders(db: Db, now: Time, step: Step)
    requires Enabled(db, now, step) && step.DoExpire?
    ensures forall o :: o in step.batch ==> o in db.store.orders
  {
  }

  lemma CallbackKeepsCommands(db: Db, c: Callback, now: Time)
    ensures PaymentCallback(db, c, now).db.commands == db.commands
  {
    hide Decide, ValidHold, PaymentDecision;
    if Linked(db.store, c.payment) {
      var o := db.store.payments[c.payment].order;
      DecideFrame(NoteOutcome(db, c), c.payment, o,
        PaymentDecision(db.store.orders[o].status, ValidHold(db.store, o, now), c.outcome));
    }
  }

  lemma OtherKeepsCommands(db: Db, now: Time, step: Step)
    requires Enabled(db, now, step) && (step.DoCheckout? || step.DoRelease? || step.DoPay? || step.DoConsume?)
    ensures Apply(db, now, step).commands == db.commands
  {
    hide Commerce.Release, OpenPayment, FulfilOrder, SettleRefund;
  }

  lemma StepGrows(db: Db, now: Time, step: Step)
    requires DbOk(db, now) && Enabled(db, now, step)
    ensures StoreGrows(db, Apply(db, now, step), StepHold(step), StepRow(step))
  {
    hide DbOk, IsDueBatch, Persist, PaymentCallback, Checkout, ReleaseHold, InitiatePayment, Consume, Reserve,
      ExpireAll;
    match step {
      case DoReserve(_, _, _, _, _, _, _) => ReserveGrows(db, now, step);
      case DoPersist(c) => PersistGrows(db, c, now);
      case DoExpire(_, _, batch) =>
        HoldHistory.ExpireShape(db, now, step);
        assert forall o :: o in batch ==> o in db.store.orders by { DueAreOrders(db, now, step); }
        ExpireKeepsCommands(db, batch);
      case DoCallback(c) =>
        HoldHistory.CallbackShape(db, c, now);
        CallbackKeepsCommands(db, c, now);
      case _ =>
        HoldHistory.OtherShape(db, now, step);
        OtherKeepsCommands(db, now, step);
    }
  }

  // ---------- a command and its row ----------

  // Once the row exists, every later delivery of the command succeeds.
  lemma PersistedReplays(db: Db, c: Command, now: Time)
    requires c.requestHash == HoldRequest(c.event, c.seats) && StoredOk(db, c.id, c) && c.id in db.commands
    ensures Persist(db, c, now) == Tx(db, Ok(db.commands[c.id].response))
  {
  }

  // A replayed answer with the command's own hold is the record of that hold.
  lemma AnswerIsRecorded(db: Db, c: Command, key: IdemKey)
    requires AllRecordsOk(db.store, db.idem) && key == IdemKey(c.actor, HoldOp, c.key)
    ensures key in db.idem && db.idem[key].response.Some? && Answers(db.idem[key].response.value, c) ==>
      c.holdId in db.store.holds
  {
    assert key in db.idem ==> RecordOk(db.store, key, db.idem[key]);
  }

  // A delivery succeeds only by leaving the command's row in the store.
  lemma SuccessLeavesRow(db: Db, c: Command, now: Time)
    requires Recorded(db) && StoredOk(db, c.id, c) && c.requestHash == HoldRequest(c.event, c.seats)
    ensures var tx := Persist(db, c, now);
      && (tx.out.Ok? ==> c.id in tx.db.commands)
      && (tx.out.Err? ==> tx.db == db)
      && StoredOk(tx.db, c.id, c)
  {
    hide AllCommandsOk, OneEffect, AllRecordsOk, CommitHold, Realized;
    var key := IdemKey(c.actor, HoldOp, c.key);
    assert AllRecordsOk(db.store, db.idem);
    AnswerIsRecorded(db, c, key);
    if CheckPersist(db, c, now) == Ok(None) {
      CommitRealizes(db, c, now);
    }
  }

  lemma CommitRealizes(db: Db, c: Command, now: Time)
    requires CheckPersist(db, c, now) == Ok(None)
    ensures var db' := CommitHold(db, PersistRecord(db, c, now));
      c.id in db'.commands && db'.commands[c.id].requestHash == c.requestHash && Realized(db'.store, c)
  {
    hide HoldSeats;
    assert Commerce.Prices(db.store.seats, Keys(c.event, c.seats)).Keys == Keys(c.event, c.seats);
  }

  lemma StoredSurvives(db: Db, db': Db, hold: Option<Uuid>, row: Option<Uuid>, id: Uuid, c: Command)
    requires StoreGrows(db, db', hold, row) && StoredOk(db, id, c) && hold != Some(c.holdId) && row != Some(id)
    requires OrdersStep(db.store, db'.store)
    ensures StoredOk(db', id, c)
  {
  }

  // ---------- moves of the store ----------

  lemma RowsOnlyGrow(persisted: set<Uuid>, persisted': set<Uuid>, s: Sys)
    requires persisted <= persisted'
    requires HashesOk(persisted, s.slot, s.log) && WritersOk(persisted, s.slot.commands, s.log, s.writers)
    ensures HashesOk(persisted', s.slot, s.log) && WritersOk(persisted', s.slot.commands, s.log, s.writers)
  {
    forall id | id in s.log
      ensures HashOk(persisted', s.slot, id, s.log[id])
    {
      assert HashOk(persisted, s.slot, id, s.log[id]);
    }
    forall w | w in s.writers
      ensures WriterOk(persisted', s.slot.commands, s.log, s.writers[w])
    {
      assert WriterOk(persisted, s.slot.commands, s.log, s.writers[w]);
    }
  }

  lemma ForeignKeepsStored(s: Sys, now: Time, step: Step)
    requires DbOk(s.db, now) && Enabled(s.db, now, step) && Foreign(s, step)
    requires LogOk(s.event, s.issued, s.slot.nextId, s.log) && StoreOk(s.db, s.log)
    ensures StoreOk(Apply(s.db, now, step), s.log)
    ensures s.db.commands.Keys <= Apply(s.db, now, step).commands.Keys
  {
    hide DbOk, Enabled, Apply, StoredOk, SeatsStep, OrdersStep, MoneyStep;
    StepGrows(s.db, now, step);
    StepOk(s.db, now, step);
    forall id | id in s.log
      ensures StoredOk(Apply(s.db, now, step), id, s.log[id].payload)
    {
      assert OriginalOk(s.event, s.issued, s.slot.nextId, id, s.log[id]);
      StoredSurvives(s.db, Apply(s.db, now, step), StepHold(step), StepRow(step), id, s.log[id].payload);
    }
  }

  lemma StoreMoveOk(s: Sys, now: Time, step: Step)
    requires SysOk(s, now) && Enabled(s.db, now, step) && Foreign(s, step)
    ensures SysOk(s.(db := Apply(s.db, now, step)), now)
  {
    hide DbOk, Enabled, Apply, Foreign, LogOk, StoreOk, HashesOk, StreamOk, WritersOk, KeysOk, OwnersOk;
    StepOk(s.db, now, step);
    ForeignKeepsStored(s, now, step);
    RowsOnlyGrow(s.db.commands.Keys, Apply(s.db, now, step).commands.Keys, s);
  }

  lemma PersistKeepsStored(s: Sys, now: Time, c: Command)
    requires DbOk(s.db, now) && c.id in s.log && s.log[c.id].payload == c
    requires LogOk(s.event, s.issued, s.slot.nextId, s.log) && StoreOk(s.db, s.log)
    ensures var tx := Persist(s.db, c, now);
      && StoreOk(tx.db, s.log) && s.db.commands.Keys <= tx.db.commands.Keys
      && (tx.out.Ok? ==> c.id in tx.db.commands) && (tx.out.Err? ==> tx.db == s.db)
  {
    hide Books, EventsOk, OrdersKnown, Recorded, Persist, StoredOk, SeatsStep, OrdersStep, MoneyStep;
    var tx := Persist(s.db, c, now);
    StepOk(s.db, now, DoPersist(c));
    assert OriginalOk(s.event, s.issued, s.slot.nextId, c.id, s.log[c.id]);
    assert StoredOk(s.db, c.id, s.log[c.id].payload);
    SuccessLeavesRow(s.db, c, now);
    PersistGrows(s.db, c, now);
    forall id | id in s.log
      ensures StoredOk(tx.db, id, s.log[id].payload)
    {
      if id != c.id {
        assert StoredOk(s.db, id, s.log[id].payload);
        StoredSurvives(s.db, tx.db, Some(c.holdId), Some(c.id), id, s.log[id].payload);
      }
    }
  }

  lemma PersistMoveOk(s: Sys, now: Time, w: Uuid)
    requires SysOk(s, now) && w in s.writers
    ensures SysOk(AfterPersist(s, w, now), now)
  {
    hide DbOk, LogOk, StoreOk, HashesOk, StreamOk, KeysOk, OwnersOk, Persist;
    var t := s.writers[w];
    assert WriterOk(s.db.commands.Keys, s.slot.commands, s.log, t);
    var tx := Persist(s.db, t.payload, now);
    StepOk(s.db, now, DoPersist(t.payload));
    PersistKeepsStored(s, now, t.payload);
    RowsOnlyGrow(s.db.commands.Keys, tx.db.commands.Keys, s);
  }

  // ---------- marks ----------

  lemma DurableMarkOk(s: Sys, now: Time, w: Uuid)
    requires SysOk(s, now) && w in s.writers && s.writers[w].phase.Persisted?
    ensures SysOk(AfterMark(s, w), now)
  {
    hide DbOk, LogOk, StoreOk, StreamOk, KeysOk, OwnsSeats;
    var t := s.writers[w];
    assert WriterOk(s.db.commands.Keys, s.slot.commands, s.log, t);
    var id := t.payload.id;
    var slot' := MarkDurable(s.slot, id).0;
    DurableCommands(s.db.commands.Keys, s.slot, s.log, id);
    DurableWriters(s.db.commands.Keys, s.slot, s.log, s.writers, id);
    assert OwnersOk(slot', s.log, s.recent, now);
  }

  lemma DurableCommands(persisted: set<Uuid>, slot: Slot, log: map<Uuid, Original>, id: Uuid)
    requires HashesOk(persisted, slot, log) && id in persisted
    ensures HashesOk(persisted, MarkDurable(slot, id).0, log)
  {
    var slot' := MarkDurable(slot, id).0;
    forall x | x in log
      ensures HashOk(persisted, slot', x, log[x])
    {
      assert HashOk(persisted, slot, x, log[x]);
    }
  }

  lemma DurableWriters(persisted: set<Uuid>, slot: Slot, log: map<Uuid, Original>, writers: map<Uuid, Writer>, id: Uuid)
    requires WritersOk(persisted, slot.commands, log, writers)
    ensures WritersOk(persisted, MarkDurable(slot, id).0.commands, log, writers)
  {
    forall w | w in writers
      ensures WriterOk(persisted, MarkDurable(slot, id).0.commands, log, writers[w])
    {
      assert WriterOk(persisted, slot.commands, log, writers[w]);
    }
  }

  lemma FailedMarkOk(s: Sys, now: Time, w: Uuid)
    requires SysOk(s, now) && w in s.writers && s.writers[w].phase.Refused?
    ensures SysOk(AfterMark(s, w), now)
  {
    hide DbOk, LogOk, StoreOk, StreamOk, KeysOk, HashesOk, OwnersOk, Vacated;
    var t := s.writers[w];
    assert WriterOk(s.db.commands.Keys, s.slot.commands, s.log, t);
    FailedCommands(s, t.payload.id, t.seats, t.phase.code);
    FailedWriters(s.db.commands.Keys, s.slot, s.log, s.writers, t.payload.id, t.seats, t.phase.code);
    FailedOwners(s, now, t.payload.id, t.phase.code);
  }

  lemma FailedCommands(s: Sys, id: Uuid, seats: seq<SeatId>, code: Failure)
    requires HashesOk(s.db.commands.Keys, s.slot, s.log) && LogOk(s.event, s.issued, s.slot.nextId, s.log) &&
      id in s.log
    ensures HashesOk(s.db.commands.Keys, MarkFailed(s.slot, id, seats, code).0, s.log)
  {
    hide Vacated;
    var slot' := MarkFailed(s.slot, id, seats, code).0;
    assert OriginalOk(s.event, s.issued, s.slot.nextId, id, s.log[id]);
    assert HashOk(s.db.commands.Keys, s.slot, id, s.log[id]);
    forall x | x in s.log
      ensures HashOk(s.db.commands.Keys, slot', x, s.log[x])
    {
      assert HashOk(s.db.commands.Keys, s.slot, x, s.log[x]);
    }
  }

  lemma FailedWriters(persisted: set<Uuid>, slot: Slot, log: map<Uuid, Original>, writers: map<Uuid, Writer>,
                      id: Uuid, seats: seq<SeatId>, code: Failure)
    requires WritersOk(persisted, slot.commands, log, writers)
    ensures WritersOk(persisted, MarkFailed(slot, id, seats, code).0.commands, log, writers)
  {
    hide Vacated;
    forall w | w in writers
      ensures WriterOk(persisted, MarkFailed(slot, id, seats, code).0.commands, log, writers[w])
    {
      assert WriterOk(persisted, slot.commands, log, writers[w]);
    }
  }

  // Another command's seats carry another hold, so compensation does not touch them.
  lemma FailedOwners(s: Sys, now: Time, id: Uuid, code: Failure)
    requires HashesOk(s.db.commands.Keys, s.slot, s.log) && LogOk(s.event, s.issued, s.slot.nextId, s.log) &&
      id in s.log
    requires OwnersOk(s.slot, s.log, s.recent, now)
    ensures OwnersOk(MarkFailed(s.slot, id, s.log[id].reply.seats, code).0, s.log, s.recent, now)
  {
    hide Vacated;
    var slot' := MarkFailed(s.slot, id, s.log[id].reply.seats, code).0;
    assert OriginalOk(s.event, s.issued, s.slot.nextId, id, s.log[id]);
    assert HashOk(s.db.commands.Keys, s.slot, id, s.log[id]);
    forall x | x in s.log && Owning(slot'.commands, s.recent, x, s.log[x], now)
      ensures OwnsSeats(slot'.seatMap.seats, s.log[x])
    {
      assert Owning(s.slot.commands, s.recent, x, s.log[x], now);
      forall seat | seat in s.log[x].reply.seats
        ensures HeldFor(slot'.seatMap.seats, seat, s.log[x])
      {
        assert HeldFor(s.slot.seatMap.seats, seat, s.log[x]);
        VacatedAt(s.slot.seatMap, s.log[id].reply.seats, s.log[id].payload.holdId, seat);
      }
    }
  }

  // ---------- acceptance ----------

  lemma EnqueueMoveOk(s: Sys, now: Time, d: Demand)
    requires SysOk(s, now) && d.event == s.event && NewIds(s, d)
    ensures SysOk(AfterEnqueue(s, d, now), now)
  {
    hide DbOk, Check, Admit, LogOk, StoreOk, HashesOk, StreamOk, WritersOk, KeysOk, OwnersOk, NewIds;
    AdmitLog(s, d, now);
    if Enqueue(s.slot, d, s.backlog, now).1.Accepted? {
      AdmitCommands(s, d, now);
      AdmitStream(s, d, now);
      AdmitOthers(s, d, now);
      AdmitOwners(s, d, now);
      AdmitAdvances(s.slot, d, now);
    }
  }

  lemma AdmitAdvances(r: Slot, d: Demand, now: Time)
    ensures Admit(r, d, now).nextId == r.nextId + 1
  {
  }

  function Logged(s: Sys, d: Demand, now: Time): map<Uuid, Original> {
    s.log[d.commandId := Original(CommandOf(d), ReplyTo(s.slot, d, now), s.slot.nextId)]
  }

  lemma AdmitLog(s: Sys, d: Demand, now: Time)
    requires LogOk(s.event, s.issued, s.slot.nextId, s.log) && NewIds(s, d) && d.event == s.event &&
      StoreOk(s.db, s.log)
    ensures LogOk(s.event, s.issued + {d.commandId, d.holdId, d.orderId}, s.slot.nextId, s.log)
    ensures LogOk(s.event, s.issued + {d.commandId, d.holdId, d.orderId}, s.slot.nextId + 1, Logged(s, d, now))
    ensures StoreOk(s.db, Logged(s, d, now))
  {
    hide StoredOk, ReplyTo;
    var issued' := s.issued + {d.commandId, d.holdId, d.orderId};
    forall id | id in s.log
      ensures OriginalOk(s.event, issued', s.slot.nextId, id, s.log[id])
    {
      assert OriginalOk(s.event, s.issued, s.slot.nextId, id, s.log[id]);
    }
    NewOriginalOk(s, d, now, issued');
    assert StoredOk(s.db, d.commandId, CommandOf(d)) by { NewStoredOk(s, d); }
  }

  lemma NewOriginalOk(s: Sys, d: Demand, now: Time, issued': set<Uuid>)
    requires d.event == s.event && d.commandId in issued' && d.holdId in issued'
    ensures OriginalOk(s.event, issued', s.slot.nextId + 1, d.commandId,
      Original(CommandOf(d), ReplyTo(s.slot, d, now), s.slot.nextId))
  {
  }

  lemma NewStoredOk(s: Sys, d: Demand)
    requires NewIds(s, d)
    ensures StoredOk(s.db, d.commandId, CommandOf(d))
  {
  }

  lemma AdmitCommands(s: Sys, d: Demand, now: Time)
    requires HashesOk(s.db.commands.Keys, s.slot, s.log) && LogOk(s.event, s.issued, s.slot.nextId, s.log) &&
      NewIds(s, d)
    ensures HashesOk(s.db.commands.Keys, Admit(s.slot, d, now), Logged(s, d, now))
  {
    hide Occupied, Total;
    var slot', log' := Admit(s.slot, d, now), Logged(s, d, now);
    forall x | x in log'
      ensures HashOk(s.db.commands.Keys, slot', x, log'[x])
    {
      if x != d.commandId {
        assert HashOk(s.db.commands.Keys, s.slot, x, s.log[x]);
      }
    }
  }

  lemma GrowStream(stream: map<nat, Message>, key: nat, x: Message)
    requires key !in stream
    ensures |stream[key := x]| == |stream| + 1
  {
    var stream' := stream[key := x];
    assert stream'.Keys == stream.Keys + {key};
    assert |stream'.Keys| == |stream.Keys| + 1;
  }

  lemma AdmitStream(s: Sys, d: Demand, now: Time)
    requires StreamOk(s.backlog, s.slot.stream, s.log) && LogOk(s.event, s.issued, s.slot.nextId, s.log) && NewIds(s, d)
    requires Enqueue(s.slot, d, s.backlog, now).1.Accepted?
    ensures StreamOk(s.backlog, Admit(s.slot, d, now).stream, Logged(s, d, now))
  {
    hide Occupied, Total, Scan;
    var stream := s.slot.stream;
    assert s.slot.nextId in stream ==> MessageOk(s.log, s.slot.nextId, stream[s.slot.nextId]);
    GrowStream(stream, s.slot.nextId, Message(CommandOf(d), ReplyTo(s.slot, d, now)));
    var stream' := Admit(s.slot, d, now).stream;
    forall m | m in stream'
      ensures MessageOk(Logged(s, d, now), m, stream'[m])
    {
      if m != s.slot.nextId {
        assert MessageOk(s.log, m, stream[m]);
      }
    }
  }

  lemma AdmitOthers(s: Sys, d: Demand, now: Time)
    requires WritersOk(s.db.commands.Keys, s.slot.commands, s.log, s.writers) && KeysOk(s.slot.idem, s.log)
    requires LogOk(s.event, s.issued, s.slot.nextId, s.log) && NewIds(s, d)
    ensures var slot', log' := Admit(s.slot, d, now), Logged(s, d, now);
      WritersOk(s.db.commands.Keys, slot'.commands, log', s.writers) && KeysOk(slot'.idem, log')
  {
    hide Occupied, Total;
    var slot', log' := Admit(s.slot, d, now), Logged(s, d, now);
    forall w | w in s.writers
      ensures WriterOk(s.db.commands.Keys, slot'.commands, log', s.writers[w])
    {
      assert WriterOk(s.db.commands.Keys, s.slot.commands, s.log, s.writers[w]);
    }
    forall k | k in slot'.idem
      ensures KeyOk(log', k, slot'.idem[k])
    {
      assert k in s.slot.idem ==> KeyOk(s.log, k, s.slot.idem[k]);
    }
  }

  // An accepted command takes only seats that no other owning command still holds.
  lemma AdmitOwners(s: Sys, d: Demand, now: Time)
    requires LogOk(s.event, s.issued, s.slot.nextId, s.log) && NewIds(s, d) && OwnersOk(s.slot, s.log, s.recent, now)
    requires Enqueue(s.slot, d, s.backlog, now).1.Accepted?
    ensures OwnersOk(Admit(s.slot, d, now), Logged(s, d, now), s.recent + {d.commandId}, now)
  {
    hide LogOk, Scan, Total, Takeable, Occupied;
    EnqueueExactly(s.slot, d, s.backlog, now);
    var slot', log' := Admit(s.slot, d, now), Logged(s, d, now);
    var recent' := s.recent + {d.commandId};
    forall id | id in log' && Owning(slot'.commands, recent', id, log'[id], now)
      ensures OwnsSeats(slot'.seatMap.seats, log'[id])
    {
      if id == d.commandId {
        forall seat | seat in d.seats
          ensures HeldFor(slot'.seatMap.seats, seat, log'[id])
        {
          OccupiedAt(s.slot.seatMap.seats, s.slot.seatMap.version.value, d.seats, d.holdId, now + d.holdSeconds, seat);
        }
      } else {
        assert Owning(s.slot.commands, s.recent, id, s.log[id], now);
        forall seat | seat in s.log[id].reply.seats
          ensures HeldFor(slot'.seatMap.seats, seat, s.log[id])
        {
          assert HeldFor(s.slot.seatMap.seats, seat, s.log[id]);
          assert !Takeable(s.slot.seatMap.seats[seat].state, now) by {
            HeldIsNotTakeable(s.slot.seatMap.seats, seat, s.log[id], now);
          }
          OccupiedAt(s.slot.seatMap.seats, s.slot.seatMap.version.value, d.seats, d.holdId, now + d.holdSeconds, seat);
        }
      }
    }
  }

  lemma HeldIsNotTakeable(seats: map<SeatId, Cached>, seat: SeatId, x: Original, now: Time)
    requires HeldFor(seats, seat, x) && x.reply.expiresEpoch > now
    ensures !Takeable(seats[seat].state, now)
  {
  }

  // ---------- the remaining moves ----------

  lemma DeliverMoveOk(s: Sys, now: Time, w: Uuid, message: nat)
    requires SysOk(s, now) && message in s.slot.stream
    ensures SysOk(AfterDeliver(s, w, message), now)
  {
    hide DbOk, LogOk, StoreOk, HashesOk, KeysOk, OwnersOk;
    assert MessageOk(s.log, message, s.slot.stream[message]);
  }

  lemma ShrinkStream(stream: map<nat, Message>, key: nat)
    ensures |stream - {key}| <= |stream|
  {
    var stream' := stream - {key};
    assert stream'.Keys == stream.Keys - {key};
    assert |stream'.Keys| <= |stream.Keys|;
  }

  // A message leaves the stream only after its command left PENDING.
  lemma AcknowledgedHashes(s: Sys, t: Writer)
    requires HashesOk(s.db.commands.Keys, s.slot, s.log) && LogOk(s.event, s.issued, s.slot.nextId, s.log)
    requires WriterOk(s.db.commands.Keys, s.slot.commands, s.log, t) && t.phase.Settled?
    ensures HashesOk(s.db.commands.Keys, s.slot.(stream := s.slot.stream - {t.message}), s.log)
  {
    var slot' := s.slot.(stream := s.slot.stream - {t.message});
    forall id | id in s.log
      ensures HashOk(s.db.commands.Keys, slot', id, s.log[id])
    {
      assert HashOk(s.db.commands.Keys, s.slot, id, s.log[id]);
    }
  }

  lemma AcknowledgeMoveOk(s: Sys, now: Time, w: Uuid)
    requires SysOk(s, now) && w in s.writers && s.writers[w].phase.Settled?
    ensures SysOk(AfterAcknowledge(s, w), now)
  {
    hide DbOk, StoreOk, KeysOk, OwnsSeats, LogOk, HashesOk, WriterOk, MessageOk;
    var t := s.writers[w];
    assert WriterOk(s.db.commands.Keys, s.slot.commands, s.log, t);
    ShrinkStream(s.slot.stream, t.message);
    AcknowledgedHashes(s, t);
    assert OwnersOk(AfterAcknowledge(s, w).slot, s.log, s.recent, now);
  }

  lemma LapseMoveOk(s: Sys, now: Time, id: Uuid)
    requires SysOk(s, now)
    ensures SysOk(AfterLapse(s, id), now)
  {
    hide DbOk, StoreOk, KeysOk, OwnsSeats, LogOk, StreamOk;
    var slot' := s.slot.(commands := s.slot.commands - {id});
    forall x | x in s.log
      ensures HashOk(s.db.commands.Keys, slot', x, s.log[x])
    {
      assert HashOk(s.db.commands.Keys, s.slot, x, s.log[x]);
    }
    forall w | w in s.writers
      ensures WriterOk(s.db.commands.Keys, slot'.commands, s.log, s.writers[w])
    {
      assert WriterOk(s.db.commands.Keys, s.slot.commands, s.log, s.writers[w]);
    }
    assert OwnersOk(slot', s.log, s.recent, now);
  }

  // A write to the map ends the protection of earlier commands and touches nothing else.
  lemma MapMoveOk(s: Sys, now: Time, m: SeatMap)
    requires SysOk(s, now)
    ensures SysOk(WithMap(s, m), now)
  {
    hide DbOk, StoreOk, KeysOk, LogOk, StreamOk, WritersOk;
    var slot' := s.slot.(seatMap := m);
    forall x | x in s.log
      ensures HashOk(s.db.commands.Keys, slot', x, s.log[x])
    {
      assert HashOk(s.db.commands.Keys, s.slot, x, s.log[x]);
    }
  }

  lemma SettleMoveOk(s: Sys, now: Time, w: Uuid)
    requires SysOk(s, now) && w in s.writers && s.writers[w].phase.Compensated?
    ensures SysOk(WithPhase(s, w, Settled), now)
  {
    hide DbOk, StoreOk, KeysOk, LogOk, StreamOk, HashesOk, OwnersOk;
    assert WriterOk(s.db.commands.Keys, s.slot.commands, s.log, s.writers[w]);
  }

  lemma CrashMoveOk(s: Sys, now: Time, w: Uuid)
    requires SysOk(s, now)
    ensures SysOk(AfterCrash(s, w), now)
  {
    hide DbOk, StoreOk, LogOk, StreamOk, HashesOk, KeysOk, OwnersOk, WriterOk;
  }

  lemma LapseKeyMoveOk(s: Sys, now: Time, key: ClientKey)
    requires SysOk(s, now)
    ensures SysOk(AfterLapseKey(s, key), now)
  {
    hide DbOk, StoreOk, LogOk, StreamOk, HashesOk, WritersOk, OwnersOk, KeyOk;
    SameHashes(s, AfterLapseKey(s, key).slot, now);
  }

  // The command hashes and owners do not depend on the client keys.
  lemma SameHashes(s: Sys, slot': Slot, now: Time)
    requires HashesOk(s.db.commands.Keys, s.slot, s.log) && OwnersOk(s.slot, s.log, s.recent, now)
    requires slot' == s.slot.(idem := slot'.idem)
    ensures HashesOk(s.db.commands.Keys, slot', s.log) && OwnersOk(slot', s.log, s.recent, now)
  {
    hide OwnsSeats;
    forall x | x in s.log
      ensures HashOk(s.db.commands.Keys, slot', x, s.log[x])
    {
      assert HashOk(s.db.commands.Keys, s.slot, x, s.log[x]);
    }
  }

  lemma LaterOk(s: Sys, now: Time, later: Time)
    requires SysOk(s, now) && now <= later
    ensures SysOk(s, later)
  {
    hide DbOk, StoreOk, KeysOk, LogOk, StreamOk, HashesOk, WritersOk, OwnsSeats;
    DbOkLater(s.db, now, later);
    forall id | id in s.log && Owning(s.slot.commands, s.recent, id, s.log[id], later)
      ensures OwnsSeats(s.slot.seatMap.seats, s.log[id])
    {
      assert Owning(s.slot.commands, s.recent, id, s.log[id], now);
    }
  }

  lemma MoveOk(s: Sys, now: Time, m: Move)
    requires SysOk(s, now) && Can(s, now, m)
    ensures SysOk(Next(s, now, m), now)
  {
    hide SysOk, Put, Cut, CanStop, AfterEnqueue, AfterPersist, AfterMark, AfterDeliver, AfterAcknowledge, AfterCrash,
      AfterLapse, AfterLapseKey, Enabled, Apply, Foreign, NewIds;
    match m {
      case DoEnqueue(d) => EnqueueMoveOk(s, now, d);
      case DoDeliver(w, message) => DeliverMoveOk(s, now, w, message);
      case DoPersistBy(w) => PersistMoveOk(s, now, w);
      case DoMark(w) =>
        if s.writers[w].phase.Persisted? {
          DurableMarkOk(s, now, w);
        } else {
          FailedMarkOk(s, now, w);
        }
      case DoSnapshot(w, write) =>
        MapMoveOk(s, now, Put(s.slot.seatMap, write));
        SettleMoveOk(WithMap(s, Put(s.slot.seatMap, write)), now, w);
      case DoAcknowledge(w) => AcknowledgeMoveOk(s, now, w);
      case DoCrash(w) => CrashMoveOk(s, now, w);
      case DoWrite(write) => MapMoveOk(s, now, Put(s.slot.seatMap, write));
      case DoCut(write, at) => MapMoveOk(s, now, Cut(s.slot.seatMap, write, at));
      case DoLoseMap => MapMoveOk(s, now, NO_MAP);
      case DoLapse(id) => LapseMoveOk(s, now, id);
      case DoLapseKey(key) => LapseKeyMoveOk(s, now, key);
      case DoStore(step) => StoreMoveOk(s, now, step);
    }
  }
}
