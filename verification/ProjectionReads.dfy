// Readers of the projected map in runs of the whole system: that a row's content is fixed by its
// version is derived here from the store, so tags and deltas are sound for what the workers really
// write, with stale workers, interrupted writes and loss of the key.
module ProjectionReads {
  import opened Domain
  import opened Forward
  import opened Runs
  import opened SeatMaps
  import opened SeatMapReads
  import opened Projection
  import opened ProjectionProofs
  import ProjectionRuns

  // `drawn` are the incarnation candidates workers have drawn so far, each a new uuid.
  datatype World = World(sys: Sys, drawn: set<Uuid>)

  datatype Event = Step(mv: Move) | LoseKey

  ghost predicate Can(e: Uuid, w: World, v: Event) {
    v.Step? ==> CanMove(e, w.sys, v.mv) && (v.mv.ReadRows? ==> v.mv.candidate !in w.drawn)
  }

  ghost function After1(e: Uuid, w: World, v: Event): World
    requires Can(e, w, v)
  {
    if v.LoseKey? then w.(sys := w.sys.(cache := NO_MAP))
    else World(Next(e, w.sys, v.mv), if v.mv.ReadRows? then w.drawn + {v.mv.candidate} else w.drawn)
  }

  // ---------- the invariant ----------

  predicate Offers(t: Task, candidate: Uuid) { t.phase.HasRead? && t.phase.w.Full? && t.phase.w.candidate == candidate }

  ghost predicate TaskHonest(h: History, drawn: set<Uuid>, t: Task) {
    t.phase.HasRead? ==> WriteOk(h, t.phase.w) && (t.phase.w.Full? ==> t.phase.w.candidate in drawn)
  }

  ghost predicate TasksHonest(h: History, drawn: set<Uuid>, tasks: map<nat, Task>) {
    && (forall id :: id in tasks ==> TaskHonest(h, drawn, tasks[id]))
    && (forall a, b, c :: a in tasks && b in tasks && Offers(tasks[a], c) && Offers(tasks[b], c) ==> a == b)
  }

  // An incarnation that was once set is offered by no worker any more.
  ghost predicate Spent(drawn: set<Uuid>, tasks: map<nat, Task>, incarnation: Option<Uuid>) {
    incarnation.Some? ==>
      incarnation.value in drawn && forall id :: id in tasks ==> !Offers(tasks[id], incarnation.value)
  }

  ghost predicate WorldOk(e: Uuid, w: World) {
    && DbOk(w.sys.db, w.sys.now) && HistoryOk(w.sys.history, w.sys.db.store.seats, e)
    && MapOk(w.sys.history, w.sys.cache) && TasksHonest(w.sys.history, w.drawn, w.sys.tasks)
    && Spent(w.drawn, w.sys.tasks, w.sys.cache.incarnation)
  }

  // A client that once read `seen`, if any did.
  ghost predicate ClientOk(w: World, seen: Option<SeatMap>) {
    seen.Some? ==>
      && Readable(seen.value) && MapOk(w.sys.history, seen.value) && SameLife(seen.value, w.sys.cache)
      && Spent(w.drawn, w.sys.tasks, seen.value.incarnation)
  }

  // ---------- transactions ----------

  lemma CommitKeeps(e: Uuid, w: World, at: Time, step: Runs.Step, seen: Option<SeatMap>)
    requires WorldOk(e, w) && ClientOk(w, seen) && w.sys.now <= at && Enabled(w.sys.db, at, step)
    ensures var w' := w.(sys := AfterCommit(e, w.sys, at, Apply(w.sys.db, at, step)));
      WorldOk(e, w') && ClientOk(w', seen)
  {
    hide DbOk, MapOk, HistoryOk, Enabled, Apply, Recall, OrdersStep, MoneyStep, Extends, SameLife, WriteOk, Spent;
    var db' := Apply(w.sys.db, at, step);
    DbOkLater(w.sys.db, w.sys.now, at);
    StepOk(w.sys.db, at, step);
    RecallOk(w.sys.history, w.sys.db.store.seats, db'.store.seats, e);
    var h' := Recall(w.sys.history, db'.store.seats, e);
    MapOkGrows(w.sys.history, h', w.sys.cache);
    if seen.Some? {
      MapOkGrows(w.sys.history, h', seen.value);
    }
    forall id | id in w.sys.tasks
      ensures TaskHonest(h', w.drawn, w.sys.tasks[id])
    {
      if w.sys.tasks[id].phase.HasRead? {
        WriteOkGrows(w.sys.history, h', w.sys.tasks[id].phase.w);
      }
    }
  }

  // ---------- moves that change only workers and the refresh queue ----------

  // Every task is an old one, or has read nothing, or has just read.
  ghost predicate Renewed(e: Uuid, w: World, w': World, id: nat, candidate: Uuid) {
    && w'.sys.history == w.sys.history && w'.sys.cache == w.sys.cache && w.drawn <= w'.drawn
    && forall x :: x in w'.sys.tasks ==>
         var t := w'.sys.tasks[x];
         || (x in w.sys.tasks && x != id && t == w.sys.tasks[x]) || !t.phase.HasRead?
         || (x == id && TaskHonest(w.sys.history, w'.drawn, t) && candidate !in w.drawn &&
             (t.phase.w.Full? ==> t.phase.w.candidate == candidate))
  }

  lemma RenewedKeeps(e: Uuid, w: World, w': World, id: nat, candidate: Uuid, seen: Option<SeatMap>)
    requires WorldOk(e, w) && ClientOk(w, seen) && Renewed(e, w, w', id, candidate)
    ensures MapOk(w'.sys.history, w'.sys.cache) && TasksHonest(w'.sys.history, w'.drawn, w'.sys.tasks)
    ensures Spent(w'.drawn, w'.sys.tasks, w'.sys.cache.incarnation) && ClientOk(w', seen)
  {
    hide DbOk, MapOk, HistoryOk, SameLife, WriteOk;
    forall x | x in w'.sys.tasks
      ensures TaskHonest(w'.sys.history, w'.drawn, w'.sys.tasks[x])
    {
      assert x in w.sys.tasks ==> TaskHonest(w.sys.history, w.drawn, w.sys.tasks[x]);
    }
    forall a, b, c | a in w'.sys.tasks && b in w'.sys.tasks && Offers(w'.sys.tasks[a], c) && Offers(w'.sys.tasks[b], c)
      ensures a == b
    {
      assert a in w.sys.tasks ==> TaskHonest(w.sys.history, w.drawn, w.sys.tasks[a]);
      assert b in w.sys.tasks ==> TaskHonest(w.sys.history, w.drawn, w.sys.tasks[b]);
    }
  }

  lemma ReadRenews(e: Uuid, w: World, id: nat, candidate: Uuid)
    requires WorldOk(e, w) && Can(e, w, Step(ReadRows(id, candidate)))
    ensures Renewed(e, w, After1(e, w, Step(ReadRows(id, candidate))), id, candidate)
  {
    hide DbOk, MapOk, HistoryOk, RowsOf, Spent;
    var t := w.sys.tasks[id];
    var seats := w.sys.db.store.seats;
    ProjectionRuns.ReadRowsOk(w.sys.history, seats, e, t.scope);
    ProjectionRuns.ReadRowsOk(w.sys.history, seats, e, None);
  }

  lemma QueueKeepsDb(e: Uuid, w: World, mv: Move)
    requires WorldOk(e, w) && CanMove(e, w.sys, mv) && (mv.ClaimRefresh? || mv.Ack?)
    ensures var sys' := Next(e, w.sys, mv);
      DbOk(sys'.db, sys'.now) && HistoryOk(sys'.history, sys'.db.store.seats, e)
  {
    hide DbOk, HistoryOk, MapOk, Live, LeaseRow, AckRow;
    DbOkLater(w.sys.db, w.sys.now, mv.at);
    ProjectionRuns.DbOkRefresh(w.sys.db, mv.at, Next(e, w.sys, mv).db.refresh);
  }

  // ---------- writes, interruptions, loss ----------

  // The operation a worker's write is for a reader.
  lemma WriteKeeps(e: Uuid, w: World, op: Op, id: nat, seen: Option<SeatMap>)
    requires WorldOk(e, w) && ClientOk(w, seen) && id in w.sys.tasks && w.sys.tasks[id].phase.HasRead? && !op.Lose?
    requires op.w == w.sys.tasks[id].phase.w && OpOk(w.sys.history, {}, w.sys.cache, op)
    ensures var m := ApplyOp(w.sys.history, {}, w.sys.cache, op);
      && MapOk(w.sys.history, m) && (seen.Some? ==> SameLife(seen.value, m))
      && (m.incarnation == w.sys.cache.incarnation || (op.w.Full? && m.incarnation == Some(op.w.candidate)))
  {
    hide DbOk, HistoryOk, MapOk, SameLife, WriteOk, NextVersion, Stamped, Changed;
    assert TaskHonest(w.sys.history, w.drawn, w.sys.tasks[id]);
    if op.DoPut? {
      PutJoins(w.sys.history, w.sys.cache, op.w);
    } else {
      CutKeeps(w.sys.history, w.sys.cache, op.w, op.at);
    }
    if seen.Some? {
      OpKeepsLife(w.sys.history, {seen.value.incarnation.value}, seen.value, w.sys.cache, op);
    }
  }

  // The writer's task stops offering its candidate, so the incarnation it may have set is spent.
  lemma WrittenSpent(e: Uuid, w: World, id: nat, tasks': map<nat, Task>, m: SeatMap, seen: Option<SeatMap>)
    requires WorldOk(e, w) && ClientOk(w, seen) && id in w.sys.tasks && w.sys.tasks[id].phase.HasRead?
    requires var x := w.sys.tasks[id].phase.w;
      m.incarnation == w.sys.cache.incarnation || (x.Full? && m.incarnation == Some(x.candidate))
    requires forall x :: x in tasks' ==>
      (x in w.sys.tasks && x != id && tasks'[x] == w.sys.tasks[x]) || !tasks'[x].phase.HasRead?
    ensures TasksHonest(w.sys.history, w.drawn, tasks') && Spent(w.drawn, tasks', m.incarnation)
    ensures seen.Some? ==> Spent(w.drawn, tasks', seen.value.incarnation)
  {
    hide DbOk, HistoryOk, MapOk, SameLife, WriteOk;
    assert TaskHonest(w.sys.history, w.drawn, w.sys.tasks[id]);
  }

  lemma WriteMapKeeps(e: Uuid, w: World, id: nat, seen: Option<SeatMap>)
    requires WorldOk(e, w) && ClientOk(w, seen) && CanMove(e, w.sys, WriteMap(id))
    ensures var w' := w.(sys := Next(e, w.sys, WriteMap(id))); WorldOk(e, w') && ClientOk(w', seen)
  {
    hide DbOk, HistoryOk, MapOk, SameLife, WriteOk, Put, TasksHonest, Spent;
    assert TaskHonest(w.sys.history, w.drawn, w.sys.tasks[id]) by { OneHonest(w, id); }
    var op := DoPut(w.sys.tasks[id].phase.w);
    WriteKeeps(e, w, op, id, seen);
    var sys' := Next(e, w.sys, WriteMap(id));
    WrittenSpent(e, w, id, sys'.tasks, sys'.cache, seen);
  }

  lemma CutWriteKeeps(e: Uuid, w: World, id: nat, stop: Stop, seen: Option<SeatMap>)
    requires WorldOk(e, w) && ClientOk(w, seen) && CanMove(e, w.sys, CutWrite(id, stop))
    ensures var w' := w.(sys := Next(e, w.sys, CutWrite(id, stop))); WorldOk(e, w') && ClientOk(w', seen)
  {
    hide DbOk, HistoryOk, MapOk, SameLife, WriteOk, Cut, CanStop, TasksHonest, Spent;
    assert TaskHonest(w.sys.history, w.drawn, w.sys.tasks[id]) by { OneHonest(w, id); }
    var op := DoCut(w.sys.tasks[id].phase.w, stop);
    WriteKeeps(e, w, op, id, seen);
    var sys' := Next(e, w.sys, CutWrite(id, stop));
    WrittenSpent(e, w, id, sys'.tasks, sys'.cache, seen);
  }

  lemma OneHonest(w: World, id: nat)
    requires TasksHonest(w.sys.history, w.drawn, w.sys.tasks) && id in w.sys.tasks
    ensures TaskHonest(w.sys.history, w.drawn, w.sys.tasks[id])
  {
  }

  lemma LossKeeps(e: Uuid, w: World, seen: Option<SeatMap>)
    requires WorldOk(e, w) && ClientOk(w, seen)
    ensures var w' := w.(sys := w.sys.(cache := NO_MAP)); WorldOk(e, w') && ClientOk(w', seen)
  {
    hide DbOk, HistoryOk, TasksHonest;
  }

  lemma WorkerKeeps(e: Uuid, w: World, mv: Move, seen: Option<SeatMap>)
    requires WorldOk(e, w) && ClientOk(w, seen) && Can(e, w, Step(mv))
    requires mv.ClaimRefresh? || mv.StartSnapshot? || mv.ReadRows? || mv.Ack? || mv.Crash?
    ensures WorldOk(e, After1(e, w, Step(mv))) && ClientOk(After1(e, w, Step(mv)), seen)
  {
    hide DbOk, HistoryOk, MapOk, SameLife, TasksHonest, Spent, TaskHonest, ReadTask;
    var w' := After1(e, w, Step(mv));
    if mv.ReadRows? {
      ReadRenews(e, w, mv.id, mv.candidate);
      RenewedKeeps(e, w, w', mv.id, mv.candidate, seen);
    } else {
      if mv.ClaimRefresh? || mv.Ack? {
        QueueKeepsDb(e, w, mv);
      }
      RenewedKeeps(e, w, w', mv.id, 0, seen);
    }
  }

  lemma EventKeeps(e: Uuid, w: World, v: Event, seen: Option<SeatMap>)
    requires WorldOk(e, w) && ClientOk(w, seen) && Can(e, w, v)
    ensures WorldOk(e, After1(e, w, v)) && ClientOk(After1(e, w, v), seen)
  {
    hide WorldOk, ClientOk, AfterCommit, Enabled, Apply, CanStop, Put, Cut;
    if v.LoseKey? {
      LossKeeps(e, w, seen);
    } else {
      match v.mv {
        case Commit(at, step) => CommitKeeps(e, w, at, step, seen);
        case WriteMap(id) => WriteMapKeeps(e, w, id, seen);
        case CutWrite(id, stop) => CutWriteKeeps(e, w, id, stop, seen);
        case _ => WorkerKeeps(e, w, v.mv, seen);
      }
    }
  }

  // ---------- whole runs ----------

  ghost predicate Possible(e: Uuid, w: World, run: seq<Event>)
    decreases |run|
  {
    run == [] || (Can(e, w, run[0]) && Possible(e, After1(e, w, run[0]), run[1..]))
  }

  ghost function After(e: Uuid, w: World, run: seq<Event>): World
    requires Possible(e, w, run)
    decreases |run|
  {
    if run == [] then w else After(e, After1(e, w, run[0]), run[1..])
  }

  lemma {:induction false} RunKeeps(e: Uuid, w: World, run: seq<Event>, seen: Option<SeatMap>)
    requires WorldOk(e, w) && ClientOk(w, seen) && Possible(e, w, run)
    ensures WorldOk(e, After(e, w, run)) && ClientOk(After(e, w, run), seen)
    decreases |run|
  {
    hide WorldOk, ClientOk, Can, After1;
    if run != [] {
      EventKeeps(e, w, run[0], seen);
      RunKeeps(e, After1(e, w, run[0]), run[1..], seen);
    }
  }

  lemma StartIsOk(e: Uuid, sys: Sys)
    requires ProjectionRuns.Initial(e, sys)
    ensures WorldOk(e, World(sys, {})) && ClientOk(World(sys, {}), None)
  {
    hide DbOk, HistoryOk;
    FreshOk(sys.db, sys.now);
  }

  lemma NewClient(e: Uuid, w: World)
    requires WorldOk(e, w) && Readable(w.sys.cache)
    ensures ClientOk(w, Some(w.sys.cache))
  {
    hide DbOk, HistoryOk, MapOk;
    FollowsSelf(w.sys.cache);
  }

  // The two states a client compares: it read `seen`, then reads again after `between`.
  lemma TwoReadings(e: Uuid, sys: Sys, before: seq<Event>, between: seq<Event>)
    requires ProjectionRuns.Initial(e, sys) && Possible(e, World(sys, {}), before)
    requires var w := After(e, World(sys, {}), before); Readable(w.sys.cache) && Possible(e, w, between)
    ensures var w := After(e, World(sys, {}), before); var w' := After(e, w, between);
      MapOk(w'.sys.history, w.sys.cache) && MapOk(w'.sys.history, w'.sys.cache) && SameLife(w.sys.cache, w'.sys.cache)
  {
    hide ProjectionRuns.Initial, Possible, After, DbOk, HistoryOk, MapOk, SameLife, TasksHonest, Spent;
    StartIsOk(e, sys);
    RunKeeps(e, World(sys, {}), before, None);
    var w := After(e, World(sys, {}), before);
    NewClient(e, w);
    RunKeeps(e, w, between, Some(w.sys.cache));
  }

  // Tag soundness in every run of store, workers and cache: two reads that show one incarnation and
  // one version see identical seats, whatever happened between them.
  lemma TagsAreSound(e: Uuid, sys: Sys, before: seq<Event>, between: seq<Event>)
    requires ProjectionRuns.Initial(e, sys) && Possible(e, World(sys, {}), before)
    requires var w := After(e, World(sys, {}), before); Readable(w.sys.cache) && Possible(e, w, between)
    ensures var w := After(e, World(sys, {}), before); var seen, m := w.sys.cache, After(e, w, between).sys.cache;
      Readable(m) && m.incarnation == seen.incarnation && m.version == seen.version ==> Contents(m) == Contents(seen)
  {
    hide ProjectionRuns.Initial, Possible, After, MapOk, Contents, Follows;
    TwoReadings(e, sys, before, between);
    var w := After(e, World(sys, {}), before);
    var w' := After(e, w, between);
    var seen, m := w.sys.cache, w'.sys.cache;
    if Readable(m) && m.incarnation == seen.incarnation && m.version == seen.version {
      SameVersionSameContents(w'.sys.history, seen, m);
    }
  }

  // Delta completeness in every such run: the seats stamped after the client's version, laid over what
  // the client saw, are the current map.
  lemma DeltasAreComplete(e: Uuid, sys: Sys, before: seq<Event>, between: seq<Event>)
    requires ProjectionRuns.Initial(e, sys) && Possible(e, World(sys, {}), before)
    requires var w := After(e, World(sys, {}), before); Readable(w.sys.cache) && Possible(e, w, between)
    ensures var w := After(e, World(sys, {}), before); var seen, m := w.sys.cache, After(e, w, between).sys.cache;
      Readable(m) && m.incarnation == seen.incarnation ==>
        seen.version.value <= m.version.value && Contents(seen) + Delta(m, seen.version.value) == Contents(m)
  {
    hide ProjectionRuns.Initial, Possible, After, MapOk, Contents, Delta, Follows;
    TwoReadings(e, sys, before, between);
    var w := After(e, World(sys, {}), before);
    var w' := After(e, w, between);
    if Readable(w'.sys.cache) && w'.sys.cache.incarnation == w.sys.cache.incarnation {
      OverlayIsCurrent(w'.sys.history, w.sys.cache, w'.sys.cache);
    }
  }
}
