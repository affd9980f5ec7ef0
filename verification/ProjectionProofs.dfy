// Every move of the projection keeps its invariant, so convergence holds in every interleaving.
module ProjectionProofs {
  import opened Domain
  import opened Sums
  import opened Commerce
  import opened Forward
  import opened Transactions
  import opened Runs
  import opened Announcements
  import opened SeatMaps
  import opened Projection

  // ---------- history only grows ----------

  ghost predicate Extends(h: History, h': History) {
    h'.Keys == h.Keys && forall s :: s in h ==> h[s] <= h'[s]
  }

  lemma RecallOk(h: History, seats: map<SeatKey, SeatRow>, seats': map<SeatKey, SeatRow>, e: Uuid)
    requires HistoryOk(h, seats, e) && seats'.Keys == seats.Keys
    requires forall k :: k in seats ==> RowStep(seats[k], seats'[k])
    ensures HistoryOk(Recall(h, seats', e), seats', e) && Extends(h, Recall(h, seats', e))
  {
    hide SeatHistoryOk, RowStep;
    var h' := Recall(h, seats', e);
    forall s | s in h
      ensures SeatHistoryOk(h'[s], seats'[SeatKey(e, s)]) && h[s] <= h'[s]
    {
      RecallSeat(h[s], seats[SeatKey(e, s)], seats'[SeatKey(e, s)]);
    }
  }

  lemma RecallSeat(past: seq<SeatState>, r: SeatRow, r': SeatRow)
    requires SeatHistoryOk(past, r) && RowStep(r, r')
    ensures SeatHistoryOk(if |past| <= r'.version then past + [StateOf(r')] else past, r')
  {
  }

  lemma MapOkGrows(h: History, h': History, m: SeatMap)
    requires MapOk(h, m) && Extends(h, h')
    ensures MapOk(h', m)
  {
    hide MapSum;
    forall s | s in m.seats
      ensures FromHistory(h', s, m.seats[s].state)
    {
      assert FromHistory(h, s, m.seats[s].state);
    }
  }

  lemma WriteOkGrows(h: History, h': History, w: Write)
    requires WriteOk(h, w) && Extends(h, h')
    ensures WriteOk(h', w)
  {
    forall s | s in w.rows
      ensures FromHistory(h', s, w.rows[s])
    {
      assert FromHistory(h, s, w.rows[s]);
    }
  }

  // ---------- announcements ----------

  lemma UnconsumedStays(outbox: seq<Payload>, more: seq<Payload>, inbox: set<nat>, k: SeatKey)
    requires Unconsumed(outbox, inbox, k) && outbox <= more
    ensures Unconsumed(more, inbox, k)
  {
    var i :| 0 <= i < |outbox| && i !in inbox && Mentions(outbox[i], k);
    assert more[i] == outbox[i];
  }

  lemma ToldIsUnconsumed(db: Db, outbox: seq<Payload>, k: SeatKey)
    requires InboxOk(db) && db.outbox <= outbox && Told(outbox, |db.outbox|, k)
    ensures Unconsumed(outbox, db.inbox, k)
  {
    var i :| |db.outbox| <= i < |outbox| && Mentions(outbox[i], k);
    assert i !in db.inbox;
  }

  // A delivery of something else does not consume this seat's announcement.
  lemma OtherDelivery(outbox: seq<Payload>, more: seq<Payload>, inbox: set<nat>, id: nat, k: SeatKey)
    requires Unconsumed(outbox, inbox, k) && outbox <= more && id < |outbox| && !Mentions(outbox[id], k)
    ensures Unconsumed(more, inbox + {id}, k)
  {
    var i :| 0 <= i < |outbox| && i !in inbox && Mentions(outbox[i], k);
    assert more[i] == outbox[i] && i !in inbox + {id};
  }

  // ---------- one transaction that is not a delivery ----------

  // The facts a commit gives the projection.
  ghost predicate Committed(e: Uuid, sys: Sys, db: Db) {
    && Announces(sys.db, db) && InboxOk(sys.db) && ConsumerUntouched(sys.db, db)
    && (forall k :: k in sys.db.store.seats ==> RowStep(sys.db.store.seats[k], db.store.seats[k]))
  }

  lemma CommitSeat(e: Uuid, sys: Sys, db: Db, s: SeatId)
    requires Committed(e, sys, db) && SeatKey(e, s) in sys.db.store.seats
    ensures db.store.seats[SeatKey(e, s)] == sys.db.store.seats[SeatKey(e, s)] ||
      Unconsumed(db.outbox, db.inbox, SeatKey(e, s))
    ensures Unconsumed(sys.db.outbox, sys.db.inbox, SeatKey(e, s)) ==> Unconsumed(db.outbox, db.inbox, SeatKey(e, s))
  {
    hide Unconsumed, Told;
    var k := SeatKey(e, s);
    if db.store.seats[k] != sys.db.store.seats[k] {
      ToldIsUnconsumed(sys.db, db.outbox, k);
    }
    if Unconsumed(sys.db.outbox, sys.db.inbox, k) {
      UnconsumedStays(sys.db.outbox, db.outbox, db.inbox, k);
    }
  }

  lemma CommitTracked(e: Uuid, sys: Sys, sys': Sys)
    requires Tracked(e, sys) && Committed(e, sys, sys'.db)
    requires sys'.cache == sys.cache && sys'.history.Keys == sys.history.Keys
    ensures Tracked(e, sys')
  {
    hide Unconsumed, UpToDate;
    forall s | s in sys'.history && SeatKey(e, s) in sys'.db.store.seats
      ensures UpToDate(sys'.cache, s, sys'.db.store.seats[SeatKey(e, s)])
              || Unconsumed(sys'.db.outbox, sys'.db.inbox, SeatKey(e, s)) || Requested(sys'.db.refresh, e, s)
    {
      CommitSeat(e, sys, sys'.db, s);
    }
  }

  lemma CommitTask(e: Uuid, sys: Sys, sys': Sys, t: Task)
    requires TaskOk(e, sys, t) && Committed(e, sys, sys'.db)
    requires sys'.cache == sys.cache && Extends(sys.history, sys'.history)
    ensures TaskOk(e, sys', t)
  {
    hide Unconsumed, UpToDate, InHand, WriteOk, Announces;
    if t.phase.HasRead? {
      WriteOkGrows(sys.history, sys'.history, t.phase.w);
    }
    if Live(sys.db.refresh, e, t) && t.generation == sys.db.refresh[e].generation {
      forall s | s in sys'.history && SeatKey(e, s) in sys'.db.store.seats && Covers(t.scope, s)
        ensures InHand(t.phase, sys'.cache, s, sys'.db.store.seats[SeatKey(e, s)])
                || Unconsumed(sys'.db.outbox, sys'.db.inbox, SeatKey(e, s))
      {
        assert sys'.db.store.seats.Keys == sys.db.store.seats.Keys by { AnnouncedKeys(sys.db, sys'.db); }
        CommitSeat(e, sys, sys'.db, s);
      }
    }
  }

  lemma AnnouncedKeys(db: Db, db': Db)
    requires Announces(db, db')
    ensures db'.store.seats.Keys == db.store.seats.Keys && db.outbox <= db'.outbox
  {
  }

  lemma CommitOk(e: Uuid, sys: Sys, at: Time, step: Step)
    requires SysOk(e, sys) && sys.now <= at && Enabled(sys.db, at, step) && !step.DoConsume?
    ensures SysOk(e, AfterCommit(e, sys, at, Apply(sys.db, at, step)))
  {
    hide DbOk, MapOk, HistoryOk, TaskOk, Tracked, RowOk, Enabled, Apply, Announces, Recall, OrdersStep, MoneyStep,
      Extends;
    var sys' := AfterCommit(e, sys, at, Apply(sys.db, at, step));
    DbOkLater(sys.db, sys.now, at);
    StepOk(sys.db, at, step);
    StepAnnounces(sys.db, at, step);
    StepConsumer(sys.db, at, step);
    AnnouncedKeys(sys.db, sys'.db);
    RecallOk(sys.history, sys.db.store.seats, sys'.db.store.seats, e);
    MapOkGrows(sys.history, sys'.history, sys.cache);
    ExtendsKeys(sys.history, sys'.history);
    CommitTracked(e, sys, sys');
    forall id | id in sys'.tasks
      ensures TaskOk(e, sys', sys'.tasks[id])
    {
      CommitTask(e, sys, sys', sys.tasks[id]);
    }
  }

  lemma ExtendsKeys(h: History, h': History)
    requires Extends(h, h')
    ensures h'.Keys == h.Keys
  {
  }

  // ---------- a delivery ----------

  // The consumer's tables after delivering outbox event `id` for the first time.
  ghost predicate Delivered(db: Db, id: nat, now: Time, db': Db) {
    && id < |db.outbox| && db.outbox <= db'.outbox && db'.store.seats == db.store.seats
    && db'.inbox == db.inbox + {id}
    && db'.refresh == (if db.outbox[id].SeatsChanged?
        then RequestRefresh(db.refresh, db.outbox[id].event, db.outbox[id].seats, now) else db.refresh)
  }

  lemma ConsumeDelivers(db: Db, id: nat, now: Time)
    requires id < |db.outbox| && id !in db.inbox && Consume(db, Envelope(id, 1, db.outbox[id]), now).out.Ok?
    ensures Delivered(db, id, now, Consume(db, Envelope(id, 1, db.outbox[id]), now).db)
  {
    hide RequestRefresh, BookedBy, SetOrder, IsPaid;
    match db.outbox[id] {
      case SeatsChanged(_, _) =>
      case OrderPaid(_) =>
      case RefundRequested(_, _) =>
      case TicketsIssued(_) =>
      case Unknown =>
    }
  }

  // An announcement is either still unconsumed or has become a pending request for the seat.
  lemma DeliveredSeat(e: Uuid, db: Db, id: nat, now: Time, db': Db, s: SeatId)
    requires Delivered(db, id, now, db') && RowShape(db.refresh, e)
    ensures Unconsumed(db.outbox, db.inbox, SeatKey(e, s)) ==>
      Unconsumed(db'.outbox, db'.inbox, SeatKey(e, s)) || Requested(db'.refresh, e, s)
    ensures Requested(db.refresh, e, s) ==> Requested(db'.refresh, e, s)
  {
    hide Unconsumed;
    var k := SeatKey(e, s);
    if Unconsumed(db.outbox, db.inbox, k) && !Mentions(db.outbox[id], k) {
      OtherDelivery(db.outbox, db'.outbox, db.inbox, id, k);
    }
  }

  ghost predicate RowShape(refresh: map<Uuid, RefreshRow>, e: Uuid) {
    e in refresh ==> 1 <= refresh[e].generation && refresh[e].completed <= refresh[e].generation
  }

  lemma DeliveredTracked(e: Uuid, sys: Sys, id: nat, now: Time, sys': Sys)
    requires Tracked(e, sys) && Delivered(sys.db, id, now, sys'.db) && RowShape(sys.db.refresh, e)
    requires sys'.cache == sys.cache && sys'.history == sys.history
    ensures Tracked(e, sys')
  {
    hide Unconsumed, UpToDate, Requested, RequestRefresh;
    forall s | s in sys'.history && SeatKey(e, s) in sys'.db.store.seats
      ensures UpToDate(sys'.cache, s, sys'.db.store.seats[SeatKey(e, s)])
              || Unconsumed(sys'.db.outbox, sys'.db.inbox, SeatKey(e, s)) || Requested(sys'.db.refresh, e, s)
    {
      DeliveredSeat(e, sys.db, id, now, sys'.db, s);
    }
  }

  // A request newer than the claim takes the worker's acknowledgement out of the game.
  lemma DeliveredTask(e: Uuid, sys: Sys, id: nat, now: Time, sys': Sys, t: Task)
    requires TaskOk(e, sys, t) && Delivered(sys.db, id, now, sys'.db) && RowShape(sys.db.refresh, e)
    requires sys'.cache == sys.cache && sys'.history == sys.history
    ensures TaskOk(e, sys', t)
  {
    hide Unconsumed, UpToDate, InHand, WriteOk;
    var ours := sys.db.outbox[id].SeatsChanged? && sys.db.outbox[id].event == e;
    if !ours && Live(sys.db.refresh, e, t) && t.generation == sys.db.refresh[e].generation {
      forall s | s in sys'.history && SeatKey(e, s) in sys'.db.store.seats && Covers(t.scope, s)
        ensures InHand(t.phase, sys'.cache, s, sys'.db.store.seats[SeatKey(e, s)])
                || Unconsumed(sys'.db.outbox, sys'.db.inbox, SeatKey(e, s))
      {
        if Unconsumed(sys.db.outbox, sys.db.inbox, SeatKey(e, s)) {
          OtherDelivery(sys.db.outbox, sys'.db.outbox, sys.db.inbox, id, SeatKey(e, s));
        }
      }
    }
  }

  lemma DeliveredRow(e: Uuid, db: Db, id: nat, now: Time, db': Db, cache: SeatMap)
    requires Delivered(db, id, now, db') && RowOk(db.refresh, e, cache) && InboxOk(db)
    ensures RowOk(db'.refresh, e, cache) && InboxOk(db')
  {
  }

  lemma RecallUnchanged(h: History, seats: map<SeatKey, SeatRow>, e: Uuid)
    requires HistoryOk(h, seats, e)
    ensures Recall(h, seats, e) == h
  {
    forall s | s in h
      ensures SeatHistoryOk(h[s], seats[SeatKey(e, s)])
    {
    }
  }

  lemma DeliverOk(e: Uuid, sys: Sys, at: Time, id: nat)
    requires SysOk(e, sys) && sys.now <= at && id < |sys.db.outbox|
    ensures SysOk(e, AfterCommit(e, sys, at, Consume(sys.db, Envelope(id, 1, sys.db.outbox[id]), at).db))
  {
    hide DbOk, MapOk, HistoryOk, TaskOk, Tracked, RequestRefresh, Recall, SeatsStep, OrdersStep, MoneyStep;
    var db' := Consume(sys.db, Envelope(id, 1, sys.db.outbox[id]), at).db;
    var sys' := AfterCommit(e, sys, at, db');
    DbOkLater(sys.db, sys.now, at);
    ConsumeOk(sys.db, id, at);
    ConsumeAnnounces(sys.db, Envelope(id, 1, sys.db.outbox[id]), at);
    RecallUnchanged(sys.history, sys.db.store.seats, e);
    hide Consume;
    if id in sys.db.inbox {
      RedeliveryNothing(sys.db, id, at);
      SameParts(e, sys, sys');
    } else {
      ConsumeDelivers(sys.db, id, at);
      DeliveredTracked(e, sys, id, at, sys');
      DeliveredRow(e, sys.db, id, at, db', sys.cache);
      forall t | t in sys'.tasks
        ensures TaskOk(e, sys', sys'.tasks[t])
      {
        DeliveredTask(e, sys, id, at, sys', sys.tasks[t]);
      }
    }
  }

  lemma RedeliveryNothing(db: Db, id: nat, now: Time)
    requires id < |db.outbox| && id in db.inbox
    ensures Consume(db, Envelope(id, 1, db.outbox[id]), now).db == db
  {
  }

  // Only the clock moved.
  lemma SameParts(e: Uuid, sys: Sys, sys': Sys)
    requires TasksOk(e, sys) && Tracked(e, sys) && sys' == sys.(now := sys'.now)
    ensures TasksOk(e, sys') && Tracked(e, sys')
  {
    hide Unconsumed, UpToDate, InHand, WriteOk;
    forall id | id in sys'.tasks
      ensures TaskOk(e, sys', sys'.tasks[id])
    {
      assert TaskOk(e, sys, sys.tasks[id]);
    }
  }
}
