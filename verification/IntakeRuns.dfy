// The Redis-first path end to end, for one event: intake scripts, at-least-once delivery to writers
// that may crash at any point, the durable store with all its other traffic, map writes, and keys
// that run out. Times of all components are readings of one clock.
module IntakeRuns {
  import opened Domain
  import opened Commerce
  import opened SeatMaps
  import opened Transactions
  import opened Runs
  import opened IntakeScripts

  // Where a writer stands with its copy of a message (persist_reservation_batch).
  datatype Phase =
    | Delivered | Persisted
    | Refused(code: Failure)        // persistence failed, nothing marked yet
    | Compensated                   // marked FAILED, snapshot not yet written
    | Settled                       // only the acknowledgement is left
  datatype Writer = Writer(message: nat, payload: Command, seats: seq<SeatId>, phase: Phase)

  // An accepted command as it was first written: copies elsewhere never differ from it.
  datatype Original = Original(payload: Command, reply: Reply, message: nat)

  // `log` and `recent` are history: all accepted commands, and those accepted since the last map write.
  datatype Sys = Sys(
    event: Uuid, backlog: nat, db: Db, slot: Slot, writers: map<Uuid, Writer>,
    issued: set<Uuid>, log: map<Uuid, Original>, recent: set<Uuid>)

  datatype Move =
    | DoEnqueue(demand: Demand)
    | DoDeliver(writer: Uuid, message: nat)
    | DoPersistBy(writer: Uuid)
    | DoMark(writer: Uuid)
    | DoSnapshot(writer: Uuid, write: Write)
    | DoAcknowledge(writer: Uuid)
    | DoCrash(writer: Uuid)
    | DoWrite(write: Write)
    | DoCut(write: Write, at: Stop)
    | DoLoseMap
    | DoLapse(command: Uuid)
    | DoLapseKey(key: ClientKey)
    | DoStore(step: Step)            // any other transaction of the durable store

  // Errors that are not a business failure escape the writer's handler.
  predicate Business(code: Failure) {
    !(code.UniqueViolation? || code.ForeignKeyViolation? || code.UnsupportedSchema? || code.UnknownEvent? ||
      code.NoPaidOrder? || code.InvalidLimit?)
  }

  ghost predicate NewIds(s: Sys, d: Demand) {
    && d.commandId !in s.issued && d.holdId !in s.issued && d.orderId !in s.issued
    && d.commandId !in s.db.commands && d.holdId !in s.db.store.holds
  }

  // Transactions that do not come from this event's stream use uuids of their own.
  ghost predicate Foreign(s: Sys, step: Step) {
    match step
    case DoReserve(_, _, _, _, _, hold, _) => hold !in s.issued
    case DoPersist(c) => c.id !in s.issued && c.holdId !in s.issued
    case _ => true
  }

  ghost predicate Can(s: Sys, now: Time, m: Move) {
    match m
    case DoEnqueue(d) => d.event == s.event && NewIds(s, d)
    case DoDeliver(w, message) => w !in s.writers && message in s.slot.stream
    case DoPersistBy(w) => w in s.writers && s.writers[w].phase.Delivered?
    case DoMark(w) => w in s.writers && (s.writers[w].phase.Persisted? || s.writers[w].phase.Refused?)
    case DoSnapshot(w, write) => w in s.writers && s.writers[w].phase.Compensated? && write.Full?
    case DoAcknowledge(w) => w in s.writers && s.writers[w].phase.Settled?
    case DoCut(write, at) => CanStop(s.slot.seatMap, write, at)
    case DoStore(step) => Enabled(s.db, now, step) && Foreign(s, step)
    case _ => true
  }

  function WithPhase(s: Sys, w: Uuid, phase: Phase): Sys
    requires w in s.writers
  {
    s.(writers := s.writers[w := s.writers[w].(phase := phase)])
  }

  function WithMap(s: Sys, m: SeatMap): Sys {
    s.(slot := s.slot.(seatMap := m), recent := {})
  }

  function AfterEnqueue(s: Sys, d: Demand, now: Time): Sys {
    var (slot', out) := Enqueue(s.slot, d, s.backlog, now);
    var base := s.(slot := slot', issued := s.issued + {d.commandId, d.holdId, d.orderId});
    if !out.Accepted? then base
    else base.(log := s.log[d.commandId := Original(CommandOf(d), out.reply, s.slot.nextId)],
               recent := s.recent + {d.commandId})
  }

  ghost function AfterPersist(s: Sys, w: Uuid, now: Time): Sys
    requires w in s.writers
  {
    var tx := Persist(s.db, s.writers[w].payload, now);
    var s' := s.(db := tx.db);
    if tx.out.Ok? then WithPhase(s', w, Persisted)
    else if Business(tx.out.code) then WithPhase(s', w, Refused(tx.out.code))
    else s'.(writers := s.writers - {w})
  }

  // mark_durable must answer 1 or the writer raises; mark_failed's answer is ignored.
  function AfterMark(s: Sys, w: Uuid): Sys
    requires w in s.writers && (s.writers[w].phase.Persisted? || s.writers[w].phase.Refused?)
  {
    var t := s.writers[w];
    if t.phase.Persisted? then
      var (slot', code) := MarkDurable(s.slot, t.payload.id);
      if code == 1 then WithPhase(s.(slot := slot'), w, Settled) else s.(slot := slot', writers := s.writers - {w})
    else WithPhase(s.(slot := MarkFailed(s.slot, t.payload.id, t.seats, t.phase.code).0), w, Compensated)
  }

  function AfterAcknowledge(s: Sys, w: Uuid): Sys
    requires w in s.writers
  {
    s.(slot := s.slot.(stream := s.slot.stream - {s.writers[w].message}), writers := s.writers - {w})
  }

  function AfterDeliver(s: Sys, w: Uuid, message: nat): Sys
    requires message in s.slot.stream
  {
    var x := s.slot.stream[message];
    s.(writers := s.writers[w := Writer(message, x.payload, x.response.seats, Delivered)])
  }

  function AfterLapse(s: Sys, id: Uuid): Sys { s.(slot := s.slot.(commands := s.slot.commands - {id})) }

  function AfterLapseKey(s: Sys, key: ClientKey): Sys { s.(slot := s.slot.(idem := s.slot.idem - {key})) }

  function AfterCrash(s: Sys, w: Uuid): Sys { s.(writers := s.writers - {w}) }

  ghost function Next(s: Sys, now: Time, m: Move): Sys
    requires Can(s, now, m)
  {
    match m
    case DoEnqueue(d) => AfterEnqueue(s, d, now)
    case DoDeliver(w, message) => AfterDeliver(s, w, message)
    case DoPersistBy(w) => AfterPersist(s, w, now)
    case DoMark(w) => AfterMark(s, w)
    case DoSnapshot(w, write) => WithPhase(WithMap(s, Put(s.slot.seatMap, write)), w, Settled)
    case DoAcknowledge(w) => AfterAcknowledge(s, w)
    case DoCrash(w) => AfterCrash(s, w)
    case DoWrite(write) => WithMap(s, Put(s.slot.seatMap, write))
    case DoCut(write, at) => WithMap(s, Cut(s.slot.seatMap, write, at))
    case DoLoseMap => WithMap(s, NO_MAP)
    case DoLapse(id) => AfterLapse(s, id)
    case DoLapseKey(key) => AfterLapseKey(s, key)
    case DoStore(step) => s.(db := Apply(s.db, now, step))
  }

  // ---------- the invariant ----------

  ghost predicate OriginalOk(event: Uuid, issued: set<Uuid>, nextId: nat, id: Uuid, x: Original) {
    && x.payload.id == id && x.payload.event == event && x.payload.seats == SeatSet(x.reply.seats)
    && x.payload.requestHash == HoldRequest(event, x.payload.seats)
    && id in issued && x.payload.holdId in issued
    && x.reply.commandId == id && x.reply.holdId == x.payload.holdId && x.message < nextId
    && x.reply.orderId == x.payload.orderId && x.reply.expiresAt == x.payload.expiresAt
  }

  ghost predicate LogOk(event: Uuid, issued: set<Uuid>, nextId: nat, log: map<Uuid, Original>) {
    && (forall id :: id in log ==> OriginalOk(event, issued, nextId, id, log[id]))
    && (forall a, b :: a in log && b in log && log[a].payload.holdId == log[b].payload.holdId ==> a == b)
    && (forall a, b :: a in log && b in log && log[a].message == log[b].message ==> a == b)
  }

  // The command's own order is in the store, on its own hold, with its own seats.
  ghost predicate Realized(st: Store, c: Command) {
    && c.orderId in st.orders && st.orders[c.orderId].holdId == c.holdId && st.orders[c.orderId].actor == c.actor
    && st.orders[c.orderId].event == c.event
    && c.orderId in st.items && st.items[c.orderId].Keys == Keys(c.event, c.seats)
    && c.holdId in st.holds && st.holds[c.holdId].expiresAt == c.expiresAt && st.holds[c.holdId].actor == c.actor
  }

  // In the durable store a command's hold exists only together with its command row, and the row only
  // together with the command's order.
  ghost predicate StoredOk(db: Db, id: Uuid, c: Command) {
    && (id in db.commands ==> db.commands[id].requestHash == c.requestHash && Realized(db.store, c))
    && (c.holdId in db.store.holds ==> id in db.commands)
  }

  ghost predicate StoreOk(db: Db, log: map<Uuid, Original>) {
    forall id :: id in log ==> StoredOk(db, id, log[id].payload)
  }

  ghost predicate HashOk(persisted: set<Uuid>, slot: Slot, id: Uuid, x: Original) {
    id in slot.commands ==>
      var c := slot.commands[id];
      && c.payload == x.payload && c.response == x.reply
      && (c.status.DURABLE? ==> id in persisted)
      && (c.status.PENDING? ==> x.message in slot.stream)
      && (c.status.FAILED? <==> id !in slot.expiry) && (c.status.FAILED? <==> c.error.Some?)
      && (id in slot.expiry ==> slot.expiry[id] == x.reply.expiresEpoch)
  }

  ghost predicate HashesOk(persisted: set<Uuid>, slot: Slot, log: map<Uuid, Original>) {
    slot.commands.Keys <= log.Keys && forall id :: id in log ==> HashOk(persisted, slot, id, log[id])
  }

  ghost predicate MessageOk(log: map<Uuid, Original>, message: nat, x: Message) {
    x.payload.id in log && log[x.payload.id] == Original(x.payload, x.response, message)
  }

  ghost predicate StreamOk(backlog: nat, stream: map<nat, Message>, log: map<Uuid, Original>) {
    |stream| <= backlog && forall m :: m in stream ==> MessageOk(log, m, stream[m])
  }

  ghost predicate WriterOk(persisted: set<Uuid>, commands: map<Uuid, CommandHash>, log: map<Uuid, Original>,
                           t: Writer) {
    var id := t.payload.id;
    && id in log && log[id].payload == t.payload && log[id].message == t.message && log[id].reply.seats == t.seats
    && (t.phase.Persisted? ==> id in persisted)
    && (t.phase.Settled? || t.phase.Compensated? ==> id in commands ==> !commands[id].status.PENDING?)
  }

  ghost predicate WritersOk(persisted: set<Uuid>, commands: map<Uuid, CommandHash>, log: map<Uuid, Original>,
                            writers: map<Uuid, Writer>) {
    forall w :: w in writers ==> WriterOk(persisted, commands, log, writers[w])
  }

  ghost predicate KeyOk(log: map<Uuid, Original>, key: ClientKey, x: ClientRecord) {
    var id := x.response.commandId;
    id in log && log[id].reply == x.response && log[id].payload.actor == key.actor &&
    log[id].payload.key == key.key && log[id].payload.requestHash == x.requestHash
  }

  ghost predicate KeysOk(idem: map<ClientKey, ClientRecord>, log: map<Uuid, Original>) {
    forall k :: k in idem ==> KeyOk(log, k, idem[k])
  }

  // A command still owns its seats provisionally: it is recent, not FAILED and not run out.
  ghost predicate Owning(commands: map<Uuid, CommandHash>, recent: set<Uuid>, id: Uuid, x: Original, now: Time) {
    id in recent && id in commands && !commands[id].status.FAILED? && x.reply.expiresEpoch > now
  }

  ghost predicate HeldFor(seats: map<SeatId, Cached>, s: SeatId, x: Original) {
    && s in seats && seats[s].state.holdId == Some(x.payload.holdId)
    && seats[s].state.status.HELD? && seats[s].state.reservedUntil == Some(x.reply.expiresEpoch)
  }

  ghost predicate OwnsSeats(seats: map<SeatId, Cached>, x: Original) {
    forall s :: s in x.reply.seats ==> HeldFor(seats, s, x)
  }

  ghost predicate OwnersOk(slot: Slot, log: map<Uuid, Original>, recent: set<Uuid>, now: Time) {
    && recent <= log.Keys
    && forall id :: id in log && Owning(slot.commands, recent, id, log[id], now) ==>
        OwnsSeats(slot.seatMap.seats, log[id])
  }

  ghost predicate SysOk(s: Sys, now: Time) {
    && DbOk(s.db, now)
    && LogOk(s.event, s.issued, s.slot.nextId, s.log)
    && StoreOk(s.db, s.log)
    && HashesOk(s.db.commands.Keys, s.slot, s.log)
    && StreamOk(s.backlog, s.slot.stream, s.log)
    && WritersOk(s.db.commands.Keys, s.slot.commands, s.log, s.writers)
    && KeysOk(s.slot.idem, s.log)
    && OwnersOk(s.slot, s.log, s.recent, now)
  }

  // ---------- the durable store's side ----------

  // Command rows are never rewritten, and a step adds at most its own hold.
  ghost predicate StoreGrows(db: Db, db': Db, hold: Option<Uuid>, row: Option<Uuid>) {
    && (forall id :: id in db.commands ==> id in db'.commands && db'.commands[id] == db.commands[id])
    && (forall id :: id in db'.commands && id !in db.commands ==> row == Some(id))
    && (forall h :: h in db'.store.holds && h !in db.store.holds ==> hold == Some(h))
  }

  function StepHold(step: Step): Option<Uuid> {
    match step
    case DoReserve(_, _, _, _, _, hold, _) => Some(hold)
    case DoPersist(c) => Some(c.holdId)
    case _ => None
  }

  function StepRow(step: Step): Option<Uuid> {
    if step.DoPersist? then Some(step.command.id) else None
  }
}
