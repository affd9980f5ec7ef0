// Idempotency records, persisted commands and outbox events stay true of the store.
module Records {
  import opened Domain
  import opened Commerce
  import opened Forward
  import opened Transactions

  // ---------- idempotency records ----------

  // A recorded hold response describes a hold, its order and its price.
  ghost predicate Describes(st: Store, r: Response) {
    && r.HoldResponse? && r.holdId in st.holds && r.orderId in st.orders
    && st.orders[r.orderId].holdId == r.holdId && st.orders[r.orderId].total == r.total
    && st.holds[r.holdId].expiresAt == r.expiresAt
  }

  // Every committed record has a response, of the operation's own kind.
  ghost predicate RecordOk(st: Store, key: IdemKey, row: IdemRow) {
    && row.response.Some?
    && match key.op
       case HoldOp => row.request.HoldRequest? && Describes(st, row.response.value)
       case OrderOp => row.request.OrderRequest? && row.response.value.OrderResponse?
       case PaymentOp =>
         && row.request.PaymentRequest? && row.response.value.PaymentResponse?
         && row.response.value.paymentId in st.payments
  }

  ghost predicate RecordsHold(idem: map<IdemKey, IdemRow>, key: IdemKey, h: Uuid) {
    && key in idem && key.op.HoldOp? && idem[key].response.Some?
    && idem[key].response.value.HoldResponse? && idem[key].response.value.holdId == h
  }

  // Holds and hold records correspond one to one, so a key never has two effects.
  ghost predicate OneEffect(holds: map<Uuid, HoldRow>, idem: map<IdemKey, IdemRow>) {
    && (forall h :: h in holds ==> exists key :: RecordsHold(idem, key, h))
    && (forall a, b, h :: RecordsHold(idem, a, h) && RecordsHold(idem, b, h) ==> a == b)
  }

  // A persisted command carries the answer recorded under its key.
  ghost predicate CommandOk(idem: map<IdemKey, IdemRow>, c: CommandRow) {
    && c.key in idem && idem[c.key] == IdemRow(c.requestHash, Some(c.response))
    && RecordsHold(idem, c.key, c.holdId) && c.response.HoldResponse? && c.response.orderId == c.orderId
  }

  ghost predicate AllRecordsOk(st: Store, idem: map<IdemKey, IdemRow>) {
    forall key :: key in idem ==> RecordOk(st, key, idem[key])
  }

  ghost predicate AllCommandsOk(idem: map<IdemKey, IdemRow>, commands: map<Uuid, CommandRow>) {
    forall c :: c in commands ==> CommandOk(idem, commands[c])
  }

  ghost predicate Recorded(db: Db) {
    AllRecordsOk(db.store, db.idem) && OneEffect(db.store.holds, db.idem) && AllCommandsOk(db.idem, db.commands)
  }

  lemma RecordsSurvive(st: Store, st': Store, idem: map<IdemKey, IdemRow>)
    requires AllRecordsOk(st, idem) && OrdersStep(st, st') && MoneyStep(st, st')
    ensures AllRecordsOk(st', idem)
  {
    forall key | key in idem
      ensures RecordOk(st', key, idem[key])
    {
      assert RecordOk(st, key, idem[key]);
    }
  }

  lemma CommandsSurvive(idem: map<IdemKey, IdemRow>, commands: map<Uuid, CommandRow>, key: IdemKey, row: IdemRow)
    requires AllCommandsOk(idem, commands) && key !in idem
    ensures AllCommandsOk(idem[key := row], commands)
  {
    forall c | c in commands
      ensures CommandOk(idem[key := row], commands[c])
    {
      assert CommandOk(idem, commands[c]);
    }
  }

  // A record of another operation leaves the correspondence of holds and records alone.
  lemma OtherRecord(st: Store, idem: map<IdemKey, IdemRow>, key: IdemKey, row: IdemRow)
    requires AllRecordsOk(st, idem) && OneEffect(st.holds, idem) && key !in idem && !key.op.HoldOp? &&
      RecordOk(st, key, row)
    ensures AllRecordsOk(st, idem[key := row]) && OneEffect(st.holds, idem[key := row])
  {
    var idem' := idem[key := row];
    assert forall a, h :: RecordsHold(idem', a, h) <==> RecordsHold(idem, a, h);
  }

  // A new hold under an unused key.
  lemma HoldRecord(holds: map<Uuid, HoldRow>, idem: map<IdemKey, IdemRow>, key: IdemKey, row: IdemRow, h: Uuid,
                   hold: HoldRow)
    requires OneEffect(holds, idem) && key !in idem && key.op.HoldOp? && h !in holds
    requires forall a, g :: RecordsHold(idem, a, g) ==> g in holds
    requires row.response.Some? && row.response.value.HoldResponse? && row.response.value.holdId == h
    ensures OneEffect(holds[h := hold], idem[key := row])
  {
    var idem', holds' := idem[key := row], holds[h := hold];
    assert forall a, g :: RecordsHold(idem', a, g) <==> RecordsHold(idem, a, g) || (a == key && g == h);
    forall g | g in holds'
      ensures exists a :: RecordsHold(idem', a, g)
    {
      if g == h {
        assert RecordsHold(idem', key, g);
      } else {
        var a :| RecordsHold(idem, a, g);
        assert RecordsHold(idem', a, g);
      }
    }
  }

  lemma RecordedHoldsExist(st: Store, idem: map<IdemKey, IdemRow>)
    requires AllRecordsOk(st, idem)
    ensures forall a, g :: RecordsHold(idem, a, g) ==> g in st.holds
  {
    forall a, g | RecordsHold(idem, a, g)
      ensures g in st.holds
    {
      assert RecordOk(st, a, idem[a]);
    }
  }

  // Under `Recorded`, "go ahead" means the key was never used.
  lemma GoAheadIsFresh(db: Db, key: IdemKey, request: Request)
    requires Recorded(db) && Idem(db.idem, key, request).1 == Ok(None)
    ensures key !in db.idem
  {
    assert key in db.idem ==> RecordOk(db.store, key, db.idem[key]);
  }

  lemma CommitHoldRecorded(db: Db, n: NewHold)
    requires Recorded(db) && n.key !in db.idem && n.key.op.HoldOp? && n.hold !in db.store.holds
    requires n.request.HoldRequest? && n.command.Some? ==> n.command.value !in db.commands
    requires n.request.HoldRequest?
    requires OrdersStep(db.store, CommitHold(db, n).store) && MoneyStep(db.store, CommitHold(db, n).store)
    ensures Recorded(CommitHold(db, n))
  {
    hide OrdersStep, MoneyStep, OneEffect, Describes;
    var db' := CommitHold(db, n);
    RecordedHoldsExist(db.store, db.idem);
    HoldRecord(db.store.holds, db.idem, n.key, db'.idem[n.key], n.hold, n.row);
    RecordsSurvive(db.store, db'.store, db.idem);
    NewRecordDescribes(db, n);
    CommandsSurvive(db.idem, db.commands, n.key, db'.idem[n.key]);
  }

  lemma NewRecordDescribes(db: Db, n: NewHold)
    ensures Describes(CommitHold(db, n).store, HoldReply(n))
  {
  }

  // ---------- outbox events ----------

  // What an event may claim about the store.
  ghost predicate EventOk(st: Store, e: Payload) {
    match e
    case SeatsChanged(event, seats) => event in st.events
    case OrderPaid(o) => o in st.orders && IsPaid(st.orders[o].status)
    case RefundRequested(p, o) => p in st.refunds && st.refunds[p].order == o
    case TicketsIssued(o) => true
    case Unknown => false
  }

  ghost predicate EventsOk(st: Store, outbox: seq<Payload>) {
    forall i :: 0 <= i < |outbox| ==> EventOk(st, outbox[i])
  }

  // Events stay true because orders, refunds and events never move back.
  lemma EventsSurvive(st: Store, st': Store, outbox: seq<Payload>)
    requires EventsOk(st, outbox) && Advance(st, st')
    ensures EventsOk(st', outbox)
  {
    forall i | 0 <= i < |outbox|
      ensures EventOk(st', outbox[i])
    {
      assert EventOk(st, outbox[i]);
    }
  }

  // Every order's event exists, so its announcements name a known event.
  ghost predicate OrdersKnown(st: Store) {
    forall o :: o in st.orders ==> st.orders[o].event in st.events
  }
}
