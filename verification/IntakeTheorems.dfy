// What the intake protocol guarantees in every run, whatever is delivered, redelivered, lost or late.
module IntakeTheorems {
  import opened Domain
  import opened SeatMaps
  import opened Transactions
  import opened Records
  import opened Runs
  import opened IntakeScripts
  import opened IntakeRuns
  import opened IntakeProofs
  import StoreTheorems

  datatype Event = Event(now: Time, move: Move)

  ghost predicate Possible(s: Sys, now: Time, run: seq<Event>)
    decreases |run|
  {
    run == [] ||
    (now <= run[0].now && Can(s, run[0].now, run[0].move) &&
      Possible(Next(s, run[0].now, run[0].move), run[0].now, run[1..]))
  }

  ghost function After(s: Sys, now: Time, run: seq<Event>): Sys
    requires Possible(s, now, run)
    decreases |run|
  {
    if run == [] then s else After(Next(s, run[0].now, run[0].move), run[0].now, run[1..])
  }

  function Clock(now: Time, run: seq<Event>): Time {
    if run == [] then now else run[|run| - 1].now
  }

  // Any state of the durable store and any seat map, before the first command.
  ghost predicate Initial(s: Sys, now: Time) {
    && DbOk(s.db, now) && s.writers == map[] && s.log == map[] && s.recent == {}
    && s.slot.idem == map[] && s.slot.commands == map[] && s.slot.expiry == map[] && s.slot.stream == map[]
  }

  // Every reachable state of the durable store can start an intake run.
  lemma StoreStarts(db: Db, event: Uuid, backlog: nat, m: SeatMap, now: Time)
    requires StoreTheorems.Reachable(db, now)
    ensures Initial(Sys(event, backlog, db, Slot(m, map[], map[], map[], map[], 0), map[], {}, map[], {}), now)
  {
    hide DbOk, StoreTheorems.Reachable;
    StoreTheorems.ReachableOk(db, now);
  }

  lemma InitialOk(s: Sys, now: Time)
    requires Initial(s, now)
    ensures SysOk(s, now)
  {
    hide DbOk;
    assert |s.slot.stream| == 0;
  }

  lemma {:induction false} RunOk(s: Sys, now: Time, run: seq<Event>)
    requires SysOk(s, now) && Possible(s, now, run)
    ensures SysOk(After(s, now, run), Clock(now, run))
    decreases |run|
  {
    hide SysOk, Can, Next;
    if run != [] {
      LaterOk(s, now, run[0].now);
      MoveOk(s, run[0].now, run[0].move);
      RunOk(Next(s, run[0].now, run[0].move), run[0].now, run[1..]);
    }
  }

  ghost predicate Reached(s: Sys, now: Time) {
    exists s0: Sys, t0: Time, run: seq<Event> ::
      Initial(s0, t0) && Possible(s0, t0, run) && s == After(s0, t0, run) && now == Clock(t0, run)
  }

  lemma ReachedOk(s: Sys, now: Time)
    requires Reached(s, now)
    ensures SysOk(s, now)
  {
    hide SysOk, Initial, Possible, After, Clock;
    var s0: Sys, t0: Time, run: seq<Event> :|
      Initial(s0, t0) && Possible(s0, t0, run) && s == After(s0, t0, run) && now == Clock(t0, run);
    InitialOk(s0, t0);
    RunOk(s0, t0, run);
  }

  // ---------- every reachable state ----------

  // What a command's Redis status promises: DURABLE means a row in the durable store, PENDING means
  // its message is still in the stream, FAILED means it no longer waits for expiry; and the stream
  // never exceeds the backlog.
  lemma StatusMeaning(s: Sys, now: Time, id: Uuid)
    requires Reached(s, now) && id in s.slot.commands
    ensures var c := s.slot.commands[id];
      && (c.status.DURABLE? ==> id in s.db.commands && s.db.commands[id].requestHash == c.payload.requestHash)
      && (c.status.PENDING? ==> exists m :: m in s.slot.stream && s.slot.stream[m].payload == c.payload)
      && (c.status.FAILED? <==> id !in s.slot.expiry) && (c.status.FAILED? <==> c.error.Some?)
    ensures |s.slot.stream| <= s.backlog
  {
    hide Reached, DbOk, LogOk, KeysOk, OwnersOk, WritersOk, MessageOk;
    ReachedOk(s, now);
    assert HashOk(s.db.commands.Keys, s.slot, id, s.log[id]);
    assert StoredOk(s.db, id, s.log[id].payload);
    if s.slot.commands[id].status.PENDING? {
      PendingMessage(s, now, id);
    }
  }

  lemma PendingMessage(s: Sys, now: Time, id: Uuid)
    requires SysOk(s, now) && id in s.slot.commands && s.slot.commands[id].status.PENDING?
    ensures id in s.log
    ensures var m := s.log[id].message; m in s.slot.stream && s.slot.stream[m].payload == s.slot.commands[id].payload
  {
    hide DbOk, OriginalOk, StoreOk, WritersOk, KeysOk, OwnersOk;
    var m := s.log[id].message;
    assert HashOk(s.db.commands.Keys, s.slot, id, s.log[id]);
    assert m in s.slot.stream ==> MessageOk(s.log, m, s.slot.stream[m]);
  }

  // A persisted command is the one the client was told about: the order and hold of the reply exist, belong
  // together and to the command's actor, expire when the reply said, and list exactly the reply's seats.
  lemma PersistedAsAnswered(s: Sys, now: Time, id: Uuid)
    requires Reached(s, now) && id in s.log && id in s.db.commands
    ensures var reply, st := s.log[id].reply, s.db.store;
      && reply.commandId == id && reply.orderId in st.orders && reply.holdId in st.holds
      && st.orders[reply.orderId].holdId == reply.holdId && st.orders[reply.orderId].actor == s.log[id].payload.actor
      && st.holds[reply.holdId].expiresAt == reply.expiresAt
      && reply.orderId in st.items
      && forall k :: k in st.items[reply.orderId] <==> k.event == s.event && k.seat in reply.seats
  {
    hide Reached, DbOk, KeysOk, OwnersOk, WritersOk, HashesOk, StreamOk;
    ReachedOk(s, now);
    assert OriginalOk(s.event, s.issued, s.slot.nextId, id, s.log[id]);
    assert StoredOk(s.db, id, s.log[id].payload);
  }

  // A replay answers with the first command of that key: same actor, key, event and seats.
  lemma ReplayNamesFirst(s: Sys, now: Time, d: Demand)
    requires Reached(s, now) && d.event == s.event && Enqueue(s.slot, d, s.backlog, now).1.Replayed?
    ensures var reply := Enqueue(s.slot, d, s.backlog, now).1.reply;
      && reply.commandId in s.log && s.log[reply.commandId].reply == reply
      && s.log[reply.commandId].payload.actor == d.actor && s.log[reply.commandId].payload.key == d.key
      && forall x :: x in reply.seats <==> x in d.seats
  {
    hide Reached, DbOk, OwnersOk, WritersOk, HashesOk, StreamOk, Scan, Occupied, Total;
    ReachedOk(s, now);
    var ck := ClientKey(d.actor, d.key);
    assert KeyOk(s.log, ck, s.slot.idem[ck]);
    var id := s.slot.idem[ck].response.commandId;
    assert OriginalOk(s.event, s.issued, s.slot.nextId, id, s.log[id]);
    assert SeatSet(s.log[id].reply.seats) == SeatSet(d.seats);
    assert forall x :: x in s.log[id].reply.seats <==> x in SeatSet(s.log[id].reply.seats);
    assert forall x :: x in d.seats <==> x in SeatSet(d.seats);
  }

  // Between map writes, two accepted commands that are neither FAILED nor run out share no seat.
  lemma ProvisionalExclusive(s: Sys, now: Time, a: Uuid, b: Uuid, seat: SeatId)
    requires Reached(s, now) && a in s.recent && b in s.recent && a != b
    requires forall id :: id in {a, b} ==>
      id in s.slot.commands && !s.slot.commands[id].status.FAILED? && s.slot.commands[id].response.expiresEpoch > now
    requires seat in s.slot.commands[a].response.seats
    ensures seat !in s.slot.commands[b].response.seats
  {
    hide Reached, DbOk, KeysOk, StoreOk, StreamOk, WritersOk, OriginalOk;
    ReachedOk(s, now);
    assert HashOk(s.db.commands.Keys, s.slot, a, s.log[a]) && HashOk(s.db.commands.Keys, s.slot, b, s.log[b]);
    assert Owning(s.slot.commands, s.recent, a, s.log[a], now) && Owning(s.slot.commands, s.recent, b, s.log[b], now);
    assert HeldFor(s.slot.seatMap.seats, seat, s.log[a]);
    assert seat in s.slot.commands[b].response.seats ==> HeldFor(s.slot.seatMap.seats, seat, s.log[b]);
  }

  // ---------- over runs ----------

  // A status only leaves PENDING, and a key that ran out is never set again.
  ghost predicate StatusStep(log: map<Uuid, Original>, a: map<Uuid, CommandHash>, b: map<Uuid, CommandHash>) {
    forall id :: id in log && id in b ==>
      id in a && b[id].payload == a[id].payload && (a[id].status.PENDING? || b[id].status == a[id].status)
  }

  lemma MoveStatus(s: Sys, now: Time, m: Move)
    requires SysOk(s, now) && Can(s, now, m)
    ensures StatusStep(s.log, s.slot.commands, Next(s, now, m).slot.commands)
    ensures s.log.Keys <= Next(s, now, m).log.Keys
  {
    hide DbOk, StoreOk, HashesOk, StreamOk, WritersOk, KeysOk, OwnersOk, Put, Cut, CanStop, Persist, Enabled, Apply,
      Check, Occupied, Total, Vacated, WithPhase, WithMap;
    match m {
      case DoEnqueue(d) => EnqueueStatus(s, now, d);
      case DoMark(w) => MarkStatus(s, w);
      case DoPersistBy(w) => PhaseFrame(s, w, now);
      case DoSnapshot(w, write) => MapFrame(s, w, Put(s.slot.seatMap, write));
      case DoWrite(write) => MapFrame(s, 0, Put(s.slot.seatMap, write));
      case DoCut(write, at) => MapFrame(s, 0, Cut(s.slot.seatMap, write, at));
      case DoLoseMap => MapFrame(s, 0, NO_MAP);
      case _ =>
    }
  }

  lemma PhaseFrame(s: Sys, w: Uuid, now: Time)
    requires w in s.writers
    ensures AfterPersist(s, w, now).slot == s.slot && AfterPersist(s, w, now).log == s.log
  {
  }

  lemma MapFrame(s: Sys, w: Uuid, m: SeatMap)
    ensures WithMap(s, m).slot.commands == s.slot.commands && WithMap(s, m).log == s.log
    ensures w in s.writers ==>
      WithPhase(WithMap(s, m), w, Settled).slot.commands == s.slot.commands &&
      WithPhase(WithMap(s, m), w, Settled).log == s.log
  {
  }

  lemma EnqueueStatus(s: Sys, now: Time, d: Demand)
    requires LogOk(s.event, s.issued, s.slot.nextId, s.log) && NewIds(s, d)
    ensures StatusStep(s.log, s.slot.commands, AfterEnqueue(s, d, now).slot.commands)
    ensures s.log.Keys <= AfterEnqueue(s, d, now).log.Keys
  {
    hide Check, Occupied, Total;
    assert d.commandId in s.log ==> OriginalOk(s.event, s.issued, s.slot.nextId, d.commandId, s.log[d.commandId]);
  }

  lemma MarkStatus(s: Sys, w: Uuid)
    requires w in s.writers && (s.writers[w].phase.Persisted? || s.writers[w].phase.Refused?)
    ensures StatusStep(s.log, s.slot.commands, AfterMark(s, w).slot.commands)
    ensures AfterMark(s, w).log == s.log
  {
    hide Vacated;
  }

  // DURABLE and FAILED are terminal: as long as the key lives, no later state shows another status.
  lemma {:induction false} StatusIsFinal(s: Sys, now: Time, run: seq<Event>, id: Uuid)
    requires SysOk(s, now) && Possible(s, now, run) && id in s.log
    ensures var later := After(s, now, run).slot.commands;
      id in later ==>
        id in s.slot.commands && later[id].payload == s.slot.commands[id].payload &&
        (s.slot.commands[id].status.PENDING? || later[id].status == s.slot.commands[id].status)
    decreases |run|
  {
    hide SysOk, Can, Next;
    if run != [] {
      LaterOk(s, now, run[0].now);
      MoveOk(s, run[0].now, run[0].move);
      MoveStatus(s, run[0].now, run[0].move);
      StatusIsFinal(Next(s, run[0].now, run[0].move), run[0].now, run[1..], id);
    }
  }

  // A persisted command that is not FAILED and that no writer has refused.
  ghost predicate Safe(s: Sys, id: Uuid) {
    && id in s.log && id in s.db.commands
    && (id in s.slot.commands ==> !s.slot.commands[id].status.FAILED?)
    && (forall w :: w in s.writers && s.writers[w].payload.id == id ==> !s.writers[w].phase.Refused?)
  }

  lemma PersistKeepsSafe(s: Sys, now: Time, w: Uuid, id: Uuid)
    requires SysOk(s, now) && w in s.writers && Safe(s, id)
    ensures Safe(AfterPersist(s, w, now), id)
  {
    hide DbOk, HashesOk, StreamOk, KeysOk, OwnersOk, Persist;
    var c := s.writers[w].payload;
    assert WriterOk(s.db.commands.Keys, s.slot.commands, s.log, s.writers[w]);
    assert OriginalOk(s.event, s.issued, s.slot.nextId, c.id, s.log[c.id]);
    assert StoredOk(s.db, c.id, s.log[c.id].payload);
    PersistGrows(s.db, c, now);
    if c.id == id {
      PersistedReplays(s.db, c, now);
    }
  }

  lemma MarkKeepsSafe(s: Sys, w: Uuid, id: Uuid)
    requires w in s.writers && (s.writers[w].phase.Persisted? || s.writers[w].phase.Refused?) && Safe(s, id)
    ensures Safe(AfterMark(s, w), id)
  {
    hide Vacated;
  }

  lemma EnqueueKeepsSafe(s: Sys, now: Time, d: Demand, id: Uuid)
    requires NewIds(s, d) && Safe(s, id)
    ensures Safe(AfterEnqueue(s, d, now), id)
  {
    hide Check, Occupied, Total;
  }

  lemma MoveKeepsSafe(s: Sys, now: Time, m: Move, id: Uuid)
    requires SysOk(s, now) && Can(s, now, m) && Safe(s, id)
    ensures Safe(Next(s, now, m), id)
  {
    hide SysOk, Safe, Put, Cut, CanStop, Persist, Enabled, Apply, Foreign, AfterEnqueue, AfterPersist, AfterMark,
      NewIds, AfterDeliver, AfterAcknowledge, AfterCrash, AfterLapse, AfterLapseKey, WithMap, WithPhase;
    match m {
      case DoEnqueue(d) => EnqueueKeepsSafe(s, now, d, id);
      case DoPersistBy(w) => PersistKeepsSafe(s, now, w, id);
      case DoMark(w) => MarkKeepsSafe(s, w, id);
      case DoDeliver(w, message) => WriterKeepsSafe(s, w, message, id);
      case DoAcknowledge(w) => WriterKeepsSafe(s, w, s.writers[w].message, id);
      case DoCrash(w) => WriterKeepsSafe(s, w, 0, id);
      case DoSnapshot(w, write) => MapKeepsSafe(s, w, Put(s.slot.seatMap, write), id);
      case DoWrite(write) => MapKeepsSafe(s, 0, Put(s.slot.seatMap, write), id);
      case DoCut(write, at) => MapKeepsSafe(s, 0, Cut(s.slot.seatMap, write, at), id);
      case DoLoseMap => MapKeepsSafe(s, 0, NO_MAP, id);
      case DoLapse(c) => LapseKeepsSafe(s, c, ClientKey("", ""), id);
      case DoLapseKey(key) => LapseKeepsSafe(s, 0, key, id);
      case DoStore(step) => StoreKeepsSafe(s, now, step, id);
    }
  }

  lemma WriterKeepsSafe(s: Sys, w: Uuid, message: nat, id: Uuid)
    requires Safe(s, id)
    ensures Safe(AfterCrash(s, w), id)
    ensures w in s.writers ==> Safe(AfterAcknowledge(s, w), id)
    ensures message in s.slot.stream ==> Safe(AfterDeliver(s, w, message), id)
  {
  }

  lemma MapKeepsSafe(s: Sys, w: Uuid, m: SeatMap, id: Uuid)
    requires Safe(s, id)
    ensures Safe(WithMap(s, m), id)
    ensures w in s.writers ==> w in WithMap(s, m).writers && Safe(WithPhase(WithMap(s, m), w, Settled), id)
  {
  }

  lemma LapseKeepsSafe(s: Sys, c: Uuid, key: ClientKey, id: Uuid)
    requires Safe(s, id)
    ensures Safe(AfterLapse(s, c), id) && Safe(AfterLapseKey(s, key), id)
  {
  }

  lemma StoreKeepsSafe(s: Sys, now: Time, step: Step, id: Uuid)
    requires SysOk(s, now) && Enabled(s.db, now, step) && Safe(s, id)
    ensures Safe(s.(db := Apply(s.db, now, step)), id)
  {
    hide SysOk, Enabled, Apply;
    StoreIsOk(s, now);
    StepGrows(s.db, now, step);
  }

  lemma StoreIsOk(s: Sys, now: Time)
    requires SysOk(s, now)
    ensures DbOk(s.db, now)
  {
  }

  // After persistence no redelivery ever marks the command FAILED, as long as no refusal of it was
  // already in a writer's hands.
  lemma {:induction false} PersistedNeverFails(s: Sys, now: Time, run: seq<Event>, id: Uuid)
    requires SysOk(s, now) && Possible(s, now, run) && Safe(s, id)
    ensures Safe(After(s, now, run), id)
    decreases |run|
  {
    hide SysOk, Can, Next, Safe;
    if run != [] {
      LaterOk(s, now, run[0].now);
      assert Safe(Next(s, run[0].now, run[0].move), id) by { MoveKeepsSafe(s, run[0].now, run[0].move, id); }
      MoveOk(s, run[0].now, run[0].move);
      PersistedNeverFails(Next(s, run[0].now, run[0].move), run[0].now, run[1..], id);
    }
  }

  ghost predicate ShowsFailed(s: Sys, id: Uuid) { id in s.slot.commands && s.slot.commands[id].status.FAILED? }

  // A writer was told that persistence failed and has not marked the command yet.
  ghost predicate RefusalInHand(s: Sys, id: Uuid) {
    exists w :: w in s.writers && s.writers[w].payload.id == id && s.writers[w].phase.Refused?
  }

  // Exactly when a persisted command can still become FAILED: its hash is PENDING and some writer
  // holds a refusal from before the persistence.
  lemma PersistedCanFailExactly(s: Sys, now: Time, id: Uuid)
    requires SysOk(s, now) && id in s.log && id in s.db.commands && !ShowsFailed(s, id)
    ensures (exists run :: Possible(s, now, run) && ShowsFailed(After(s, now, run), id)) <==>
      (id in s.slot.commands && s.slot.commands[id].status.PENDING? && RefusalInHand(s, id))
  {
    hide SysOk, Possible, After;
    forall run | Possible(s, now, run) && ShowsFailed(After(s, now, run), id)
      ensures id in s.slot.commands && s.slot.commands[id].status.PENDING? && RefusalInHand(s, id)
    {
      StatusIsFinal(s, now, run, id);
      if !RefusalInHand(s, id) {
        PersistedNeverFails(s, now, run, id);
      }
    }
    if id in s.slot.commands && s.slot.commands[id].status.PENDING? && RefusalInHand(s, id) {
      var w :| w in s.writers && s.writers[w].payload.id == id && s.writers[w].phase.Refused?;
      MarkFails(s, now, w, id);
    }
  }

  lemma MarkFails(s: Sys, now: Time, w: Uuid, id: Uuid)
    requires w in s.writers && s.writers[w].payload.id == id && s.writers[w].phase.Refused?
    requires id in s.slot.commands && s.slot.commands[id].status.PENDING?
    ensures var run := [Event(now, DoMark(w))]; Possible(s, now, run) && ShowsFailed(After(s, now, run), id)
  {
    hide Vacated;
    var mark := Event(now, DoMark(w));
    Nothing(AfterMark(s, w), now);
    OneMore(s, now, mark, []);
    assert [mark] + [] == [mark];
  }

  // Marking FAILED changes a seat only if the seat still carries that command's own hold.
  lemma CompensationFreesOwn(s: Sys, now: Time, w: Uuid, seat: SeatId)
    requires Reached(s, now) && w in s.writers && s.writers[w].phase.Refused? && seat in s.slot.seatMap.seats
    ensures var after := AfterMark(s, w).slot.seatMap.seats; var own := s.writers[w].payload.holdId;
      && after.Keys == s.slot.seatMap.seats.Keys
      && (after[seat] != s.slot.seatMap.seats[seat] ==>
            s.slot.seatMap.seats[seat].state.holdId == Some(own) && seat in s.writers[w].seats &&
            after[seat].state.status.AVAILABLE? && after[seat].state.holdId.None?)
  {
    hide Reached, DbOk, KeysOk, StoreOk, StreamOk, OwnersOk, Vacated;
    ReachedOk(s, now);
    var t := s.writers[w];
    var id := t.payload.id;
    assert WriterOk(s.db.commands.Keys, s.slot.commands, s.log, t);
    assert OriginalOk(s.event, s.issued, s.slot.nextId, id, s.log[id]);
    assert HashOk(s.db.commands.Keys, s.slot, id, s.log[id]);
    VacatedAt(s.slot.seatMap, t.seats, t.payload.holdId, seat);
  }

  // The converse of "DURABLE means persisted" fails: a writer that dies between marking FAILED and
  // acknowledging leaves its message to be delivered again, and the second attempt may succeed.
  lemma FailedYetPersisted(s: Sys, now: Time, w: Uuid, later: Time)
    requires SysOk(s, now) && w in s.writers && s.writers[w].phase.Refused? && now <= later
    requires s.writers[w].payload.id in s.slot.commands && s.slot.commands[s.writers[w].payload.id].status.PENDING?
    requires Persist(s.db, s.writers[w].payload, later).out.Ok?
    ensures var id, message := s.writers[w].payload.id, s.writers[w].message;
      var run := [Event(now, DoMark(w)), Event(now, DoCrash(w)), Event(later, DoDeliver(w, message)),
        Event(later, DoPersistBy(w))];
      && Possible(s, now, run)
      && var s' := After(s, now, run);
         id in s'.db.commands && id in s'.slot.commands && s'.slot.commands[id].status.FAILED?
  {
    hide SysOk, AfterMark, AfterCrash, AfterDeliver, AfterPersist, Possible, After, Persist;
    var t := s.writers[w];
    var id, message := t.payload.id, t.message;
    MessageWaits(s, now, w);
    Retried(s, now, w, later);
    var s1 := AfterMark(s, w);
    var s2 := AfterCrash(s1, w);
    var s3 := AfterDeliver(s2, w, message);
    var s4 := AfterPersist(s3, w, later);
    var m1, m2, m3, m4 := Event(now, DoMark(w)), Event(now, DoCrash(w)), Event(later, DoDeliver(w, message)),
      Event(later, DoPersistBy(w));
    assert [m4] + [] == [m4] && [m3] + [m4] == [m3, m4] && [m2] + [m3, m4] == [m2, m3, m4] &&
      [m1] + [m2, m3, m4] == [m1, m2, m3, m4];
    Nothing(s4, later);
    OneMore(s3, later, m4, []);
    OneMore(s2, now, m3, [m4]);
    OneMore(s1, now, m2, [m3, m4]);
    OneMore(s, now, m1, [m2, m3, m4]);
  }

  lemma Nothing(s: Sys, now: Time)
    ensures Possible(s, now, []) && After(s, now, []) == s
  {
  }

  lemma OneMore(s: Sys, now: Time, e: Event, run: seq<Event>)
    requires now <= e.now && Can(s, e.now, e.move) && Possible(Next(s, e.now, e.move), e.now, run)
    ensures Possible(s, now, [e] + run) && After(s, now, [e] + run) == After(Next(s, e.now, e.move), e.now, run)
  {
    assert ([e] + run)[1..] == run;
  }

  // What can follow a reached state is reached.
  lemma {:induction false} RunsJoin(s: Sys, now: Time, run: seq<Event>, more: seq<Event>)
    requires Possible(s, now, run) && Possible(After(s, now, run), Clock(now, run), more)
    ensures Possible(s, now, run + more) &&
      After(s, now, run + more) == After(After(s, now, run), Clock(now, run), more)
    decreases |run|
  {
    hide Can, Next;
    if run == [] {
      assert run + more == more;
    } else {
      var e := run[0];
      RunsJoin(Next(s, e.now, e.move), e.now, run[1..], more);
      OneMore(s, now, e, run[1..] + more);
      assert [e] + (run[1..] + more) == run + more;
    }
  }

  lemma ReachedRun(s: Sys, now: Time, more: seq<Event>)
    requires Reached(s, now) && Possible(s, now, more)
    ensures Reached(After(s, now, more), Clock(now, more))
  {
    hide Initial, Possible, After;
    var s0: Sys, t0: Time, run: seq<Event> :|
      Initial(s0, t0) && Possible(s0, t0, run) && s == After(s0, t0, run) && now == Clock(t0, run);
    RunsJoin(s0, t0, run, more);
    assert Clock(t0, run + more) == Clock(now, more);
  }

  lemma ReachedMove(s: Sys, now: Time, e: Event)
    requires Reached(s, now) && now <= e.now && Can(s, e.now, e.move)
    ensures Reached(Next(s, e.now, e.move), e.now)
  {
    hide Reached, Possible, After;
    Nothing(Next(s, e.now, e.move), e.now);
    OneMore(s, now, e, []);
    assert [e] + [] == [e];
    ReachedRun(s, now, [e]);
  }

  lemma MessageWaits(s: Sys, now: Time, w: Uuid)
    requires SysOk(s, now) && w in s.writers
    requires s.writers[w].payload.id in s.slot.commands && s.slot.commands[s.writers[w].payload.id].status.PENDING?
    ensures s.writers[w].message in s.slot.stream && s.slot.stream[s.writers[w].message].payload == s.writers[w].payload
  {
    hide DbOk, OriginalOk, StoreOk, KeysOk, OwnersOk;
    var t := s.writers[w];
    var id := t.payload.id;
    assert WriterOk(s.db.commands.Keys, s.slot.commands, s.log, t);
    assert HashOk(s.db.commands.Keys, s.slot, id, s.log[id]);
    PendingMessage(s, now, id);
  }

  // The four moves, one after the other.
  lemma Retried(s: Sys, now: Time, w: Uuid, later: Time)
    requires SysOk(s, now) && w in s.writers && s.writers[w].phase.Refused?
    requires s.writers[w].payload.id in s.slot.commands && s.slot.commands[s.writers[w].payload.id].status.PENDING?
    requires s.writers[w].message in s.slot.stream &&
      s.slot.stream[s.writers[w].message].payload == s.writers[w].payload
    requires Persist(s.db, s.writers[w].payload, later).out.Ok?
    ensures var id, message := s.writers[w].payload.id, s.writers[w].message;
      var s2 := AfterCrash(AfterMark(s, w), w);
      && w !in s2.writers && message in s2.slot.stream
      && var s3 := AfterDeliver(s2, w, message);
         w in s3.writers && s3.writers[w].phase.Delivered? &&
         var s4 := AfterPersist(s3, w, later);
         id in s4.db.commands && id in s4.slot.commands && s4.slot.commands[id].status.FAILED?
  {
    hide Vacated, Persist, Books, EventsOk, OrdersKnown, Recorded, HashesOk, KeysOk, OwnersOk, StreamOk;
    var c := s.writers[w].payload;
    assert WriterOk(s.db.commands.Keys, s.slot.commands, s.log, s.writers[w]);
    assert OriginalOk(s.event, s.issued, s.slot.nextId, c.id, s.log[c.id]);
    assert StoredOk(s.db, c.id, s.log[c.id].payload);
    SuccessLeavesRow(s.db, c, later);
  }
}
