// The workers' moves, and convergence over whole runs.
module ProjectionRuns {
  import opened Domain
  import opened Sums
  import opened Commerce
  import opened Transactions
  import opened Runs
  import opened Records
  import opened Announcements
  import opened SeatMaps
  import opened Projection
  import opened ProjectionProofs

  // The database invariant does not look at the refresh queue.
  lemma DbOkRefresh(db: Db, now: Time, refresh: map<Uuid, RefreshRow>)
    requires DbOk(db, now)
    ensures DbOk(db.(refresh := refresh), now)
  {
    hide Books, EventsOk, OrdersKnown, AllRecordsOk, OneEffect, AllCommandsOk;
  }

  // Moves that touch only tasks, or only the refresh row, leave tracking to these parts.
  ghost predicate SameWorld(sys: Sys, sys': Sys) {
    && sys'.db == sys.db.(refresh := sys'.db.refresh) && sys'.history == sys.history && sys'.cache == sys.cache
  }

  // ---------- claiming ----------

  lemma ClaimTask(e: Uuid, sys: Sys, token: Uuid, at: Time, sys': Sys, t: Task)
    requires TaskOk(e, sys, t) && t.token != Some(token) && e in sys.db.refresh && SameWorld(sys, sys')
    requires sys'.db.refresh == sys.db.refresh[e := LeaseRow(sys.db.refresh[e], token, at)]
    ensures TaskOk(e, sys', t)
  {
    hide WriteOk, ReadFresh;
  }

  lemma ClaimNewTask(e: Uuid, sys: Sys, r: RefreshRow)
    requires e in sys.db.refresh && sys.db.refresh[e] == r && r.leaseToken.Some? && r.completed < r.generation
    ensures TaskOk(e, sys, Task(r.leaseToken, r.generation, r.seatIds, Claimed))
  {
    hide Unconsumed, UpToDate;
  }

  lemma ClaimOk(e: Uuid, sys: Sys, id: nat, token: Uuid, at: Time)
    requires SysOk(e, sys) && CanMove(e, sys, ClaimRefresh(id, token, at))
    ensures SysOk(e, Next(e, sys, ClaimRefresh(id, token, at)))
  {
    hide DbOk, MapOk, HistoryOk, TaskOk, Unconsumed, UpToDate, InboxOk;
    var sys' := Next(e, sys, ClaimRefresh(id, token, at));
    var r := sys.db.refresh[e];
    DbOkLater(sys.db, sys.now, at);
    DbOkRefresh(sys.db, at, sys'.db.refresh);
    InboxOnly(sys.db, sys'.db);
    forall t | t in sys'.tasks
      ensures TaskOk(e, sys', sys'.tasks[t])
    {
      if t == id {
        ClaimNewTask(e, sys', LeaseRow(r, token, at));
      } else {
        ClaimTask(e, sys, token, at, sys', sys.tasks[t]);
      }
    }
  }

  lemma InboxOnly(db: Db, db': Db)
    requires InboxOk(db) && db'.inbox == db.inbox && db'.outbox == db.outbox
    ensures InboxOk(db')
  {
  }

  // ---------- starting, reading, dropping ----------

  lemma TaskElsewhere(e: Uuid, sys: Sys, sys': Sys, t: Task)
    requires TaskOk(e, sys, t) && sys' == sys.(tasks := sys'.tasks)
    ensures TaskOk(e, sys', t)
  {
    hide WriteOk, Unconsumed, UpToDate, InHand;
  }

  // A move that only edits the table of workers.
  lemma TasksOnly(e: Uuid, sys: Sys, sys': Sys)
    requires SysOk(e, sys) && sys' == sys.(tasks := sys'.tasks)
    requires forall id :: id in sys'.tasks ==>
      (id in sys.tasks && sys'.tasks[id] == sys.tasks[id]) || TaskOk(e, sys, sys'.tasks[id])
    requires forall id :: id in sys'.tasks && sys'.tasks[id].token.Some? ==>
      id in sys.tasks && sys'.tasks[id].token == sys.tasks[id].token
    ensures SysOk(e, sys')
  {
    hide DbOk, MapOk, HistoryOk, TaskOk, Unconsumed, UpToDate, InboxOk, RowOk;
    forall id | id in sys'.tasks
      ensures TaskOk(e, sys', sys'.tasks[id])
    {
      TaskElsewhere(e, sys, sys', sys'.tasks[id]);
    }
  }

  // What a worker reads is current when it reads it.
  lemma ReadIsFresh(e: Uuid, sys: Sys, t: Task, candidate: Uuid)
    requires HistoryOk(sys.history, sys.db.store.seats, e) && TaskOk(e, sys, t)
    ensures TaskOk(e, sys, ReadTask(sys.db.store, e, t, candidate))
  {
    hide Unconsumed, UpToDate;
    var t' := ReadTask(sys.db.store, e, t, candidate);
    var w := t'.phase.w;
    ReadRowsOk(sys.history, sys.db.store.seats, e, t.scope);
    ReadRowsOk(sys.history, sys.db.store.seats, e, None);
    assert WriteOk(sys.history, w);
  }

  lemma ReadRowsOk(h: History, seats: map<SeatKey, SeatRow>, e: Uuid, scope: Option<set<SeatId>>)
    requires HistoryOk(h, seats, e)
    ensures var rows := RowsOf(seats, e, scope);
      && rows.Keys <= h.Keys && (scope.None? ==> rows.Keys == h.Keys)
      && (forall s :: s in rows ==> FromHistory(h, s, rows[s]))
      && (forall s :: s in h && Covers(scope, s) ==> s in rows && rows[s].sourceVersion == seats[SeatKey(e, s)].version)
  {
    var rows := RowsOf(seats, e, scope);
    forall s | s in rows
      ensures FromHistory(h, s, rows[s])
    {
      assert SeatHistoryOk(h[s], seats[SeatKey(e, s)]);
    }
  }

  lemma ReadOk(e: Uuid, sys: Sys, id: nat, candidate: Uuid)
    requires SysOk(e, sys) && CanMove(e, sys, ReadRows(id, candidate))
    ensures SysOk(e, Next(e, sys, ReadRows(id, candidate)))
  {
    hide DbOk, MapOk, HistoryOk, TaskOk, Tracked, InboxOk, RowOk, RowsOf;
    ReadIsFresh(e, sys, sys.tasks[id], candidate);
    TasksOnly(e, sys, Next(e, sys, ReadRows(id, candidate)));
  }

  // ---------- writing the cache ----------

  // A cached or written version never exceeds the row's.
  lemma NeverAhead(h: History, seats: map<SeatKey, SeatRow>, e: Uuid, s: SeatId, x: SeatState)
    requires HistoryOk(h, seats, e) && FromHistory(h, s, x)
    ensures SeatKey(e, s) in seats && x.sourceVersion <= seats[SeatKey(e, s)].version
  {
    assert SeatHistoryOk(h[s], seats[SeatKey(e, s)]);
  }

  // What storing a write does to one seat: it never steps back and reaches what was written.
  ghost predicate Stored(h: History, cache: SeatMap, w: Write, cache': SeatMap) {
    && MapOk(h, cache') && (cache.version.Some? ==> cache'.version.Some?)
    && (forall s :: s in cache.seats ==>
          s in cache'.seats && cache.seats[s].state.sourceVersion <= cache'.seats[s].state.sourceVersion)
  }

  lemma PutStored(h: History, cache: SeatMap, w: Write)
    requires MapOk(h, cache) && WriteOk(h, w)
    ensures Stored(h, cache, w, Put(cache, w))
    ensures !Refused(cache, w) ==> Put(cache, w).version.Some?
    ensures !Refused(cache, w) ==>
      forall s :: s in w.rows ==>
        s in Put(cache, w).seats && w.rows[s].sourceVersion <= Put(cache, w).seats[s].state.sourceVersion
  {
    hide NextVersion, MapSum, FromHistory, Joined, Versions;
    PutJoins(h, cache, w);
  }

  lemma CutStored(h: History, cache: SeatMap, w: Write, stop: Stop)
    requires MapOk(h, cache) && WriteOk(h, w) && CanStop(cache, w, stop)
    ensures Stored(h, cache, w, Cut(cache, w, stop))
  {
    hide NextVersion, MapSum, FromHistory, Versions;
    CutKeeps(h, cache, w, stop);
  }

  lemma StoredUpToDate(e: Uuid, h: History, seats: map<SeatKey, SeatRow>, cache: SeatMap, w: Write, cache': SeatMap,
                       s: SeatId)
    requires HistoryOk(h, seats, e) && MapOk(h, cache) && Stored(h, cache, w, cache') && s in h
    requires UpToDate(cache, s, seats[SeatKey(e, s)])
    ensures UpToDate(cache', s, seats[SeatKey(e, s)])
  {
    hide MapSum;
    if cache'.version.Some? {
      NeverAhead(h, seats, e, s, cache'.seats[s].state);
    }
  }

  lemma WriteReaches(e: Uuid, h: History, seats: map<SeatKey, SeatRow>, cache: SeatMap, w: Write, s: SeatId)
    requires HistoryOk(h, seats, e) && MapOk(h, cache) && WriteOk(h, w) && !Refused(cache, w) && s in h && s in w.rows
    requires w.rows[s].sourceVersion == seats[SeatKey(e, s)].version
    ensures UpToDate(Put(cache, w), s, seats[SeatKey(e, s)])
  {
    hide MapSum, HistoryOk, Put;
    PutStored(h, cache, w);
    NeverAhead(h, seats, e, s, Put(cache, w).seats[s].state);
  }

  lemma StoredTracked(e: Uuid, sys: Sys, w: Write, sys': Sys)
    requires HistoryOk(sys.history, sys.db.store.seats, e) && MapOk(sys.history, sys.cache) && Tracked(e, sys)
    requires Stored(sys.history, sys.cache, w, sys'.cache) && sys'.db == sys.db && sys'.history == sys.history
    ensures Tracked(e, sys')
  {
    hide Unconsumed, UpToDate, MapOk, Stored, HistoryOk;
    forall s | s in sys'.history && SeatKey(e, s) in sys'.db.store.seats
      ensures UpToDate(sys'.cache, s, sys'.db.store.seats[SeatKey(e, s)])
              || Unconsumed(sys'.db.outbox, sys'.db.inbox, SeatKey(e, s)) || Requested(sys'.db.refresh, e, s)
    {
      if UpToDate(sys.cache, s, sys.db.store.seats[SeatKey(e, s)]) {
        StoredUpToDate(e, sys.history, sys.db.store.seats, sys.cache, w, sys'.cache, s);
      }
    }
  }

  lemma StoredTask(e: Uuid, sys: Sys, w: Write, sys': Sys, t: Task)
    requires HistoryOk(sys.history, sys.db.store.seats, e) && MapOk(sys.history, sys.cache) && TaskOk(e, sys, t)
    requires Stored(sys.history, sys.cache, w, sys'.cache) && sys'.db == sys.db && sys'.history == sys.history
    ensures TaskOk(e, sys', t)
  {
    hide Unconsumed, UpToDate, MapOk, HistoryOk, WriteOk;
    if Live(sys.db.refresh, e, t) && t.generation == sys.db.refresh[e].generation {
      forall s | s in sys'.history && SeatKey(e, s) in sys'.db.store.seats && Covers(t.scope, s)
        ensures InHand(t.phase, sys'.cache, s, sys'.db.store.seats[SeatKey(e, s)])
                || Unconsumed(sys'.db.outbox, sys'.db.inbox, SeatKey(e, s))
      {
        if t.phase.Written? && UpToDate(sys.cache, s, sys.db.store.seats[SeatKey(e, s)]) {
          StoredUpToDate(e, sys.history, sys.db.store.seats, sys.cache, w, sys'.cache, s);
        }
      }
    }
  }

  // The writing task itself: a refused patch starts over with a full snapshot, a stored write is done.
  lemma WritingTask(e: Uuid, sys: Sys, t: Task, sys': Sys)
    requires HistoryOk(sys.history, sys.db.store.seats, e) && MapOk(sys.history, sys.cache) && TaskOk(e, sys, t) &&
      t.phase.HasRead?
    requires sys'.cache == Put(sys.cache, t.phase.w) && sys'.db == sys.db && sys'.history == sys.history
    ensures TaskOk(e, sys', t.(phase := if Refused(sys.cache, t.phase.w) then NeedFull else Written))
  {
    hide Unconsumed, UpToDate, MapOk, HistoryOk, WriteOk, Put;
    var w := t.phase.w;
    PutStored(sys.history, sys.cache, w);
    if !Refused(sys.cache, w) && Live(sys.db.refresh, e, t) && t.generation == sys.db.refresh[e].generation {
      forall s | s in sys'.history && SeatKey(e, s) in sys'.db.store.seats && Covers(t.scope, s)
        ensures (sys'.cache.version.Some? && UpToDate(sys'.cache, s, sys'.db.store.seats[SeatKey(e, s)]))
                || Unconsumed(sys'.db.outbox, sys'.db.inbox, SeatKey(e, s))
      {
        assert InHand(t.phase, sys.cache, s, sys.db.store.seats[SeatKey(e, s)]) ||
          Unconsumed(sys.db.outbox, sys.db.inbox, SeatKey(e, s));
        if InHand(t.phase, sys.cache, s, sys.db.store.seats[SeatKey(e, s)]) {
          WriteReaches(e, sys.history, sys.db.store.seats, sys.cache, w, s);
        }
      }
    }
  }

  lemma WriteMapOk(e: Uuid, sys: Sys, id: nat)
    requires SysOk(e, sys) && CanMove(e, sys, WriteMap(id))
    ensures SysOk(e, Next(e, sys, WriteMap(id)))
  {
    hide DbOk, MapOk, HistoryOk, Tracked, InboxOk, TaskOk, Put, WriteOk;
    var sys' := Next(e, sys, WriteMap(id));
    var t := sys.tasks[id];
    assert WriteOk(sys.history, t.phase.w) by { TaskWrite(e, sys, t); }
    PutStored(sys.history, sys.cache, t.phase.w);
    StoredTracked(e, sys, t.phase.w, sys');
    forall q | q in sys'.tasks
      ensures TaskOk(e, sys', sys'.tasks[q])
    {
      if q == id {
        WritingTask(e, sys, t, sys');
      } else {
        StoredTask(e, sys, t.phase.w, sys', sys.tasks[q]);
      }
    }
  }

  lemma TaskWrite(e: Uuid, sys: Sys, t: Task)
    requires TaskOk(e, sys, t) && t.phase.HasRead?
    ensures WriteOk(sys.history, t.phase.w)
  {
  }

  lemma CutWriteOk(e: Uuid, sys: Sys, id: nat, stop: Stop)
    requires SysOk(e, sys) && CanMove(e, sys, CutWrite(id, stop))
    ensures SysOk(e, Next(e, sys, CutWrite(id, stop)))
  {
    hide DbOk, MapOk, HistoryOk, Tracked, InboxOk, TaskOk, Cut, WriteOk;
    var sys' := Next(e, sys, CutWrite(id, stop));
    var t := sys.tasks[id];
    assert WriteOk(sys.history, t.phase.w) by { TaskWrite(e, sys, t); }
    CutStored(sys.history, sys.cache, t.phase.w, stop);
    StoredTracked(e, sys, t.phase.w, sys');
    forall q | q in sys'.tasks
      ensures TaskOk(e, sys', sys'.tasks[q])
    {
      StoredTask(e, sys, t.phase.w, sys', sys.tasks[q]);
    }
  }

  // ---------- acknowledging ----------

  // Completing the row gives up exactly the coverage the finished write has made unnecessary.
  lemma AckTracked(e: Uuid, sys: Sys, t: Task, at: Time, cooldown: nat, sys': Sys)
    requires Tracked(e, sys) && TaskOk(e, sys, t) && t.phase.Written? && Live(sys.db.refresh, e, t) &&
      SameWorld(sys, sys')
    requires sys'.db.refresh == sys.db.refresh[e := AckRow(sys.db.refresh[e], t.generation, at, cooldown)]
    ensures Tracked(e, sys')
  {
    hide Unconsumed, UpToDate;
    forall s | s in sys'.history && SeatKey(e, s) in sys'.db.store.seats
      ensures UpToDate(sys'.cache, s, sys'.db.store.seats[SeatKey(e, s)])
              || Unconsumed(sys'.db.outbox, sys'.db.inbox, SeatKey(e, s)) || Requested(sys'.db.refresh, e, s)
    {
      assert t.generation == sys.db.refresh[e].generation && Covers(t.scope, s) ==>
        InHand(t.phase, sys.cache, s, sys.db.store.seats[SeatKey(e, s)]) ||
          Unconsumed(sys.db.outbox, sys.db.inbox, SeatKey(e, s));
    }
  }

  lemma AckTask(e: Uuid, sys: Sys, t: Task, at: Time, cooldown: nat, sys': Sys, q: Task)
    requires TaskOk(e, sys, t) && TaskOk(e, sys, q) && Live(sys.db.refresh, e, t) && SameWorld(sys, sys')
    requires sys'.db.refresh == sys.db.refresh[e := AckRow(sys.db.refresh[e], t.generation, at, cooldown)]
    ensures TaskOk(e, sys', q)
  {
    hide WriteOk, ReadFresh;
  }

  lemma AckOk(e: Uuid, sys: Sys, id: nat, at: Time, cooldown: nat)
    requires SysOk(e, sys) && CanMove(e, sys, Ack(id, at, cooldown))
    ensures SysOk(e, Next(e, sys, Ack(id, at, cooldown)))
  {
    hide DbOk, MapOk, HistoryOk, Tracked, InboxOk, TaskOk;
    var sys' := Next(e, sys, Ack(id, at, cooldown));
    var t := sys.tasks[id];
    DbOkLater(sys.db, sys.now, at);
    DbOkRefresh(sys.db, at, sys'.db.refresh);
    InboxOnly(sys.db, sys'.db);
    if Live(sys.db.refresh, e, t) {
      AckTracked(e, sys, t, at, cooldown, sys');
      AckedRow(e, sys, t, at, cooldown);
      forall q | q in sys'.tasks
        ensures TaskOk(e, sys', sys'.tasks[q])
      {
        AckTask(e, sys, t, at, cooldown, sys', sys.tasks[q]);
      }
    } else {
      StaleAck(e, sys, sys');
    }
  }

  lemma AckedRow(e: Uuid, sys: Sys, t: Task, at: Time, cooldown: nat)
    requires RowOk(sys.db.refresh, e, sys.cache) && TaskOk(e, sys, t) && t.phase.Written? && Live(sys.db.refresh, e, t)
    ensures RowOk(sys.db.refresh[e := AckRow(sys.db.refresh[e], t.generation, at, cooldown)], e, sys.cache)
  {
  }

  // An acknowledgement whose claim is no longer the latest changes nothing.
  lemma StaleAck(e: Uuid, sys: Sys, sys': Sys)
    requires TasksOk(e, sys) && Tracked(e, sys) && sys'.db == sys.db && sys'.cache == sys.cache &&
      sys'.history == sys.history
    requires sys'.tasks.Keys <= sys.tasks.Keys && forall id :: id in sys'.tasks ==> sys'.tasks[id] == sys.tasks[id]
    ensures TasksOk(e, sys') && Tracked(e, sys')
  {
    hide Unconsumed, UpToDate, InHand, WriteOk;
    forall id | id in sys'.tasks
      ensures TaskOk(e, sys', sys'.tasks[id])
    {
      assert TaskOk(e, sys, sys.tasks[id]);
    }
  }

  // ---------- every move, every run ----------

  lemma MoveOk(e: Uuid, sys: Sys, mv: Move)
    requires SysOk(e, sys) && CanMove(e, sys, mv)
    ensures SysOk(e, Next(e, sys, mv))
  {
    hide SysOk, Enabled, Apply, AfterCommit;
    match mv {
      case Commit(at, step) => CommitMoveOk(e, sys, at, step);
      case ClaimRefresh(id, token, at) => ClaimOk(e, sys, id, token, at);
      case StartSnapshot(id) => StartOk(e, sys, id);
      case ReadRows(id, candidate) => ReadOk(e, sys, id, candidate);
      case WriteMap(id) => WriteMapOk(e, sys, id);
      case CutWrite(id, stop) => CutWriteOk(e, sys, id, stop);
      case Ack(id, at, cooldown) => AckOk(e, sys, id, at, cooldown);
      case Crash(id) => CrashOk(e, sys, id);
    }
  }

  lemma CommitMoveOk(e: Uuid, sys: Sys, at: Time, step: Step)
    requires SysOk(e, sys) && sys.now <= at && Enabled(sys.db, at, step)
    ensures SysOk(e, AfterCommit(e, sys, at, Apply(sys.db, at, step)))
  {
    hide SysOk, Reserve, Persist, PaymentCallback, ExpireAll, ReleaseHold, Consume, Checkout, InitiatePayment,
      IsDueBatch, AfterCommit;
    if step.DoConsume? {
      DeliverOk(e, sys, at, step.id);
    } else {
      CommitOk(e, sys, at, step);
    }
  }

  lemma StartOk(e: Uuid, sys: Sys, id: nat)
    requires SysOk(e, sys) && CanMove(e, sys, StartSnapshot(id))
    ensures SysOk(e, Next(e, sys, StartSnapshot(id)))
  {
    hide DbOk, MapOk, HistoryOk, Tracked, InboxOk, RowOk, ReadFresh;
    TasksOnly(e, sys, Next(e, sys, StartSnapshot(id)));
  }

  lemma CrashOk(e: Uuid, sys: Sys, id: nat)
    requires SysOk(e, sys) && CanMove(e, sys, Crash(id))
    ensures SysOk(e, Next(e, sys, Crash(id)))
  {
    hide DbOk, MapOk, HistoryOk, Tracked, InboxOk, RowOk, TaskOk;
    TasksOnly(e, sys, Next(e, sys, Crash(id)));
  }

  ghost predicate MovesLegal(e: Uuid, sys: Sys, moves: seq<Move>)
    decreases |moves|
  {
    moves == [] || (CanMove(e, sys, moves[0]) && MovesLegal(e, Next(e, sys, moves[0]), moves[1..]))
  }

  ghost function Play(e: Uuid, sys: Sys, moves: seq<Move>): Sys
    requires MovesLegal(e, sys, moves)
    decreases |moves|
  {
    if moves == [] then sys else Play(e, Next(e, sys, moves[0]), moves[1..])
  }

  lemma {:induction false} PlayOk(e: Uuid, sys: Sys, moves: seq<Move>)
    requires SysOk(e, sys) && MovesLegal(e, sys, moves)
    ensures SysOk(e, Play(e, sys, moves))
    decreases |moves|
  {
    hide SysOk, CanMove, Next;
    if moves != [] {
      MoveOk(e, sys, moves[0]);
      PlayOk(e, Next(e, sys, moves[0]), moves[1..]);
    }
  }

  // A store nobody bought from, no cached map, no workers.
  ghost predicate Initial(e: Uuid, sys: Sys) {
    && Fresh(sys.db) && sys.cache == NO_MAP && sys.tasks.Keys == {}
    && HistoryOk(sys.history, sys.db.store.seats, e)
  }

  function Snapshots(seats: map<SeatKey, SeatRow>, e: Uuid): History {
    map s | s in EventSeats(seats, e) :: [StateOf(seats[SeatKey(e, s)])]
  }

  // Every fresh store is such a start, for each of its events.
  lemma FreshStarts(e: Uuid, db: Db, now: Time)
    requires Fresh(db)
    ensures Initial(e, Sys(db, now, Snapshots(db.store.seats, e), NO_MAP, map[]))
  {
    hide EventSeats;
    var past := Snapshots(db.store.seats, e);
    forall s
      ensures (s in past <==> SeatKey(e, s) in db.store.seats) &&
        (s in past ==> SeatHistoryOk(past[s], db.store.seats[SeatKey(e, s)]))
    {
      if SeatKey(e, s) in db.store.seats {
        assert db.store.seats[SeatKey(e, s)].version == 0;
      }
    }
  }

  lemma InitialOk(e: Uuid, sys: Sys)
    requires Initial(e, sys)
    ensures SysOk(e, sys)
  {
    hide DbOk, HistoryOk, MapSum, Unconsumed;
    FreshOk(sys.db, sys.now);
  }

  // Projection convergence: in every run, a seat the cache trails on is announced or requested, and
  // whenever both queues are empty an existing map shows exactly the database.
  lemma Convergence(e: Uuid, start: Sys, moves: seq<Move>)
    requires Initial(e, start) && MovesLegal(e, start, moves)
    ensures var sys := Play(e, start, moves);
      && Tracked(e, sys)
      && (Quiet(e, sys.db) && sys.cache.version.Some? ==> Mirrors(sys.cache, sys.db.store.seats, e))
  {
    hide Initial, MovesLegal, Play, DbOk, MapOk, HistoryOk, TasksOk, Tracked, RowOk, Quiet, Mirrors;
    InitialOk(e, start);
    PlayOk(e, start, moves);
    var sys := Play(e, start, moves);
    if Quiet(e, sys.db) && sys.cache.version.Some? {
      QuietMeansEqual(e, sys);
    }
  }

  // The refresh queue never forgets: generations and completions only grow, and a completion moves
  // only when the latest claim acknowledges a write it finished.
  lemma RefreshMonotone(e: Uuid, sys: Sys, mv: Move)
    requires SysOk(e, sys) && CanMove(e, sys, mv) && e in sys.db.refresh
    ensures var r := sys.db.refresh[e]; var refresh := Next(e, sys, mv).db.refresh;
      && e in refresh && r.generation <= refresh[e].generation
      && r.completed <= refresh[e].completed <= refresh[e].generation
      && (refresh[e].completed != r.completed ==>
            && mv.Ack? && Live(sys.db.refresh, e, sys.tasks[mv.id])
            && refresh[e].completed == sys.tasks[mv.id].generation && refresh[e].leaseToken.None?)
  {
    hide DbOk, MapOk, HistoryOk, Tracked, InboxOk, Enabled, Apply, ReadFresh, WriteOk, AfterCommit;
    match mv {
      case Commit(at, step) => CommitRow(e, sys, at, step);
      case Ack(id, at, cooldown) => assert TaskOk(e, sys, sys.tasks[id]);
      case _ =>
    }
  }

  lemma CommitRow(e: Uuid, sys: Sys, at: Time, step: Step)
    requires SysOk(e, sys) && sys.now <= at && Enabled(sys.db, at, step) && e in sys.db.refresh
    ensures var r := sys.db.refresh[e]; var refresh := AfterCommit(e, sys, at, Apply(sys.db, at, step)).db.refresh;
      e in refresh && r.generation <= refresh[e].generation && refresh[e].completed == r.completed <= r.generation
  {
    hide DbOk, MapOk, HistoryOk, Tracked, TasksOk, Reserve, Persist, PaymentCallback, ExpireAll, ReleaseHold,
      Checkout, InitiatePayment, IsDueBatch, Recall,
      FulfilOrder, SettleRefund;
    DbOkLater(sys.db, sys.now, at);
    if !step.DoConsume? {
      StepConsumer(sys.db, at, step);
    }
  }
}
