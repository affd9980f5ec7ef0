// The projection of one event's seats into Redis: transactions announce changes, deliveries turn
// announcements into refresh requests, leased workers read the database and write the cache later.
// Workers may stall, crash, lose their lease or be cut off; the same delivery may arrive many times.
module Projection {
  import opened Domain
  import opened Sums
  import opened Commerce
  import opened Transactions
  import opened Runs
  import opened Announcements
  import opened SeatMaps

  // ---------- rows read by the workers ----------

  function StateOf(r: SeatRow): SeatState {
    SeatState(r.price, if r.bookedOrder.Some? then SOLD else if r.holdId.Some? then HELD else AVAILABLE,
              r.reservedUntil, None, r.version)
  }

  function EventSeats(seats: map<SeatKey, SeatRow>, e: Uuid): (ids: set<SeatId>)
    ensures forall s :: s in ids <==> SeatKey(e, s) in seats
  {
    var ids := set k | k in seats && k.event == e :: k.seat;
    assert forall s :: SeatKey(e, s) in seats ==> SeatKey(e, s).seat in ids;
    ids
  }

  predicate Covers(scope: Option<set<SeatId>>, s: SeatId) { scope.None? || s in scope.value }

  function RowsOf(seats: map<SeatKey, SeatRow>, e: Uuid, scope: Option<set<SeatId>>): Rows {
    map s | s in EventSeats(seats, e) && Covers(scope, s) :: StateOf(seats[SeatKey(e, s)])
  }

  // ---------- the system ----------

  datatype Phase = Claimed | NeedFull | HasRead(w: Write) | Written
  // A worker's copy of a claimed refresh row, or (no token) a reconciler's or writer's plain snapshot.
  datatype Task = Task(token: Option<Uuid>, generation: nat, scope: Option<set<SeatId>>, phase: Phase)

  datatype Sys = Sys(db: Db, now: Time, history: History, cache: SeatMap, tasks: map<nat, Task>)

  datatype Move =
    | Commit(at: Time, step: Step)
    | ClaimRefresh(id: nat, token: Uuid, at: Time)
    | StartSnapshot(id: nat)
    | ReadRows(id: nat, candidate: Uuid)
    | WriteMap(id: nat)
    | CutWrite(id: nat, stop: Stop)
    | Ack(id: nat, at: Time, cooldown: nat)
    | Crash(id: nat)

  predicate Claimable(r: RefreshRow, now: Time) {
    && r.generation > r.completed && r.nextAttemptAt <= now
    && (r.leaseUntil.None? || r.leaseUntil.value < now)
  }

  ghost predicate CanMove(e: Uuid, sys: Sys, mv: Move) {
    match mv
    case Commit(at, step) => sys.now <= at && Enabled(sys.db, at, step)
    case ClaimRefresh(id, token, at) =>
      && sys.now <= at && id !in sys.tasks && e in sys.db.refresh && Claimable(sys.db.refresh[e], at)
      && forall t :: t in sys.tasks ==> sys.tasks[t].token != Some(token)
    case StartSnapshot(id) => id !in sys.tasks
    case ReadRows(id, candidate) => id in sys.tasks && (sys.tasks[id].phase.Claimed? || sys.tasks[id].phase.NeedFull?)
    case WriteMap(id) => id in sys.tasks && sys.tasks[id].phase.HasRead?
    case CutWrite(id, stop) =>
      id in sys.tasks && sys.tasks[id].phase.HasRead? && CanStop(sys.cache, sys.tasks[id].phase.w, stop)
    case Ack(id, at, cooldown) => sys.now <= at && id in sys.tasks && sys.tasks[id].phase.Written?
    case Crash(id) => id in sys.tasks
  }

  // A row changed, so its content at the new version joins the history.
  ghost function Recall(h: History, seats: map<SeatKey, SeatRow>, e: Uuid): History {
    map s | s in h ::
      if SeatKey(e, s) in seats && |h[s]| <= seats[SeatKey(e, s)].version
      then h[s] + [StateOf(seats[SeatKey(e, s)])] else h[s]
  }

  function LeaseRow(r: RefreshRow, token: Uuid, now: Time): RefreshRow {
    r.(leaseToken := Some(token), leaseUntil := Some(now + 30))
  }

  function AckRow(r: RefreshRow, generation: nat, now: Time, cooldown: nat): RefreshRow {
    r.(completed := generation, seatIds := if r.generation == generation then None else r.seatIds,
       leaseToken := None, leaseUntil := None, nextAttemptAt := now + cooldown)
  }

  function SaleOf(r: EventRow): Sale { Sale(r.saleStarts, r.saleEnds, r.currency) }

  function ReadTask(st: Store, e: Uuid, t: Task, candidate: Uuid): Task {
    if t.phase.NeedFull? || t.scope.None? then
      t.(phase := HasRead(Full(RowsOf(st.seats, e, None), candidate,
                               if e in st.events then Some(SaleOf(st.events[e])) else None)))
    else t.(phase := HasRead(Patch(RowsOf(st.seats, e, t.scope))))
  }

  ghost function AfterCommit(e: Uuid, sys: Sys, at: Time, db: Db): Sys {
    sys.(db := db, now := at, history := Recall(sys.history, db.store.seats, e))
  }

  ghost function Next(e: Uuid, sys: Sys, mv: Move): Sys
    requires CanMove(e, sys, mv)
  {
    match mv
    case Commit(at, step) =>
      AfterCommit(e, sys, at, Apply(sys.db, at, step))
    case ClaimRefresh(id, token, at) =>
      var r := sys.db.refresh[e];
      sys.(now := at, db := sys.db.(refresh := sys.db.refresh[e := LeaseRow(r, token, at)]),
           tasks := sys.tasks[id := Task(Some(token), r.generation, r.seatIds, Claimed)])
    case StartSnapshot(id) => sys.(tasks := sys.tasks[id := Task(None, 0, None, Claimed)])
    case ReadRows(id, candidate) => sys.(tasks := sys.tasks[id := ReadTask(sys.db.store, e, sys.tasks[id], candidate)])
    case WriteMap(id) =>
      var t := sys.tasks[id];
      sys.(cache := Put(sys.cache, t.phase.w),
           tasks := sys.tasks[id := t.(phase := if Refused(sys.cache, t.phase.w) then NeedFull else Written)])
    case CutWrite(id, stop) => sys.(cache := Cut(sys.cache, sys.tasks[id].phase.w, stop), tasks := sys.tasks - {id})
    case Ack(id, at, cooldown) =>
      var t := sys.tasks[id];
      var refresh := if Live(sys.db.refresh, e, t)
        then sys.db.refresh[e := AckRow(sys.db.refresh[e], t.generation, at, cooldown)]
                     else sys.db.refresh;
      sys.(now := at, db := sys.db.(refresh := refresh), tasks := sys.tasks - {id})
    case Crash(id) => sys.(tasks := sys.tasks - {id})
  }

  // ---------- the invariant ----------

  // The worker's claim is the latest on the row: only then does its acknowledgement match.
  predicate Live(refresh: map<Uuid, RefreshRow>, e: Uuid, t: Task) {
    t.token.Some? && e in refresh && refresh[e].leaseToken == t.token
  }

  // An announcement of the seat that no delivery has consumed yet.
  ghost predicate Unconsumed(outbox: seq<Payload>, inbox: set<nat>, k: SeatKey) {
    exists i :: 0 <= i < |outbox| && i !in inbox && Mentions(outbox[i], k)
  }

  predicate Requested(refresh: map<Uuid, RefreshRow>, e: Uuid, s: SeatId) {
    e in refresh && refresh[e].completed < refresh[e].generation && Covers(refresh[e].seatIds, s)
  }

  ghost predicate HistoryOk(h: History, seats: map<SeatKey, SeatRow>, e: Uuid) {
    forall s :: (s in h <==> SeatKey(e, s) in seats) && (s in h ==> SeatHistoryOk(h[s], seats[SeatKey(e, s)]))
  }

  ghost predicate SeatHistoryOk(past: seq<SeatState>, r: SeatRow) {
    && |past| == r.version + 1 && past[r.version] == StateOf(r)
    && forall v :: 0 <= v < |past| ==> past[v].sourceVersion == v
  }

  // The cache has the seat's current version; before the first complete map, nothing has changed yet.
  ghost predicate UpToDate(cache: SeatMap, s: SeatId, r: SeatRow) {
    if cache.version.Some? then s in cache.seats && cache.seats[s].state.sourceVersion == r.version else r.version == 0
  }

  // Every trailing seat is announced or requested.
  ghost predicate Tracked(e: Uuid, sys: Sys) {
    forall s :: s in sys.history && SeatKey(e, s) in sys.db.store.seats ==>
      UpToDate(sys.cache, s, sys.db.store.seats[SeatKey(e, s)])
      || Unconsumed(sys.db.outbox, sys.db.inbox, SeatKey(e, s)) || Requested(sys.db.refresh, e, s)
  }

  ghost predicate RowOk(refresh: map<Uuid, RefreshRow>, e: Uuid, cache: SeatMap) {
    e in refresh ==>
      && 1 <= refresh[e].generation && refresh[e].completed <= refresh[e].generation
      && (cache.version.None? ==> refresh[e].completed == 0)
  }

  // What a worker has in hand, or has stored, for one seat is the seat's current version.
  ghost predicate InHand(phase: Phase, cache: SeatMap, s: SeatId, r: SeatRow) {
    && (phase.HasRead? ==> s in phase.w.rows && phase.w.rows[s].sourceVersion == r.version)
    && (phase.Written? ==> cache.version.Some? && UpToDate(cache, s, r))
  }

  // Rows a live worker read are current, or the change since then is still announced.
  ghost predicate ReadFresh(e: Uuid, sys: Sys, t: Task) {
    forall s :: s in sys.history && SeatKey(e, s) in sys.db.store.seats && Covers(t.scope, s) ==>
      InHand(t.phase, sys.cache, s, sys.db.store.seats[SeatKey(e, s)])
      || Unconsumed(sys.db.outbox, sys.db.inbox, SeatKey(e, s))
  }

  ghost predicate TaskOk(e: Uuid, sys: Sys, t: Task) {
    && (t.phase.HasRead? ==> WriteOk(sys.history, t.phase.w))
    && (t.token.Some? ==> e in sys.db.refresh && t.generation <= sys.db.refresh[e].generation)
    && (t.phase.Written? ==> sys.cache.version.Some?)
    && (Live(sys.db.refresh, e, t) ==>
          && sys.db.refresh[e].completed <= t.generation
          && (t.generation == sys.db.refresh[e].generation ==>
                t.scope == sys.db.refresh[e].seatIds && ReadFresh(e, sys, t)))
  }

  ghost predicate TasksOk(e: Uuid, sys: Sys) {
    && (forall id :: id in sys.tasks ==> TaskOk(e, sys, sys.tasks[id]))
    && (forall a, b :: a in sys.tasks && b in sys.tasks && a != b && sys.tasks[a].token.Some? ==>
          sys.tasks[a].token != sys.tasks[b].token)
  }

  ghost predicate InboxOk(db: Db) { forall i :: i in db.inbox ==> i < |db.outbox| }

  ghost predicate SysOk(e: Uuid, sys: Sys) {
    && DbOk(sys.db, sys.now) && InboxOk(sys.db)
    && HistoryOk(sys.history, sys.db.store.seats, e) && MapOk(sys.history, sys.cache)
    && RowOk(sys.db.refresh, e, sys.cache) && TasksOk(e, sys) && Tracked(e, sys)
  }

  // Nothing waiting for this event: no unconsumed announcement and no pending request.
  ghost predicate Quiet(e: Uuid, db: Db) {
    && (forall i :: 0 <= i < |db.outbox| && i !in db.inbox ==> !(db.outbox[i].SeatsChanged? && db.outbox[i].event == e))
    && (e in db.refresh ==> db.refresh[e].completed == db.refresh[e].generation)
  }

  // What a cached seat must say about its row.
  ghost predicate Shows(x: SeatState, r: SeatRow) {
    && (x.status.SOLD? <==> r.bookedOrder.Some?)
    && (x.status.HELD? <==> r.bookedOrder.None? && r.holdId.Some?)
    && (x.status.AVAILABLE? <==> r.bookedOrder.None? && r.holdId.None?)
    && x.price == r.price && x.reservedUntil == r.reservedUntil && x.sourceVersion == r.version && x.holdId.None?
  }

  ghost function RowVersions(seats: map<SeatKey, SeatRow>, e: Uuid): map<SeatId, nat> {
    map s | s in EventSeats(seats, e) :: seats[SeatKey(e, s)].version
  }

  // The map shows every seat of the event as it is in the database, under the sum of the row versions.
  ghost predicate Mirrors(cache: SeatMap, seats: map<SeatKey, SeatRow>, e: Uuid) {
    && (forall s :: s in cache.seats <==> SeatKey(e, s) in seats)
    && (forall s :: s in cache.seats ==> Shows(cache.seats[s].state, seats[SeatKey(e, s)]))
    && (cache.version.Some? && !cache.updating ==> cache.version.value == MapSum(RowVersions(seats, e)))
  }

  // When both queues are empty, an existing map equals the database, seat by seat.
  lemma QuietMeansEqual(e: Uuid, sys: Sys)
    requires SysOk(e, sys) && Quiet(e, sys.db) && sys.cache.version.Some?
    ensures Mirrors(sys.cache, sys.db.store.seats, e)
  {
    hide DbOk, TasksOk, MapSum;
    forall s | s in sys.history
      ensures s in sys.cache.seats && SeatKey(e, s) in sys.db.store.seats
      ensures Shows(sys.cache.seats[s].state, sys.db.store.seats[SeatKey(e, s)])
    {
      assert SeatHistoryOk(sys.history[s], sys.db.store.seats[SeatKey(e, s)]);
      assert FromHistory(sys.history, s, sys.cache.seats[s].state);
      assert !Unconsumed(sys.db.outbox, sys.db.inbox, SeatKey(e, s));
    }
    assert Versions(sys.cache.seats) == RowVersions(sys.db.store.seats, e);
  }
}
