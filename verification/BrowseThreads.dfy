// Any number of request threads, for any events, share one bounded body cache while the seat maps
// change underneath: every answer is the reference answer for the map Redis saw, and the cache stays
// within its limits.
module BrowseThreads {
  import opened Domain
  import opened SeatMaps
  import opened SeatMapReads
  import opened Tags
  import opened BrowseBodies
  import IntakeScripts

  // Rendering, the contents every seat of every event ever had, and the two limits of the cache.
  datatype Setup = Setup(codec: Codec, histories: Uuid -> History, entries: nat, bytes: nat)

  datatype Stage = LookedUp(cached: Option<Entry>) | Encoded(entry: Entry)
  datatype Request = Request(slot: Slot, list: string, stage: Stage)

  datatype Sys = Sys(used: set<Uuid>, maps: map<Uuid, SeatMap>, bodies: seq<Kept>, requests: map<nat, Request>)

  datatype Move =
    | Change(event: Uuid, op: Op)                   // a write, an interrupted write or a lost key
    | Lookup(id: nat, slot: Slot, list: string)     // first lock
    | Respond(id: nat)                              // the BROWSE script and the answer
    | Store(id: nat)                                // second lock, evictions included

  function MapOf(s: Sys, event: Uuid): SeatMap { if event in s.maps then s.maps[event] else NO_MAP }

  ghost predicate Can(x: Setup, s: Sys, mv: Move) {
    match mv
    case Change(event, op) => OpOk(x.histories(event), s.used, MapOf(s, event), op)
    case Lookup(id, _, _) => id !in s.requests
    case Respond(id) => id in s.requests && s.requests[id].stage.LookedUp?
    case Store(id) => id in s.requests && s.requests[id].stage.Encoded?
  }

  function CachedEntry(r: Request): Option<Entry> { if r.stage.LookedUp? then r.stage.cached else None }

  function Asked(c: Codec, m: SeatMap, r: Request): Reply<Body> {
    Browse(c, m, r.slot.event, r.slot.kind, Validators(r.list, CachedEntry(r)))
  }

  function AnswerOf(c: Codec, m: SeatMap, r: Request): Option<Reply<Bytes>> {
    Answer(c, r.list, CachedEntry(r), Asked(c, m, r))
  }

  // A fresh body is encoded outside the lock and stored later, or never.
  function Responded(c: Codec, m: SeatMap, r: Request): Option<Request> {
    var reply := Asked(c, m, r);
    if reply.Fresh? then Some(r.(stage := Encoded(Entry(reply.tag, c.encode(reply.body))))) else None
  }

  ghost function Changed1(x: Setup, s: Sys, event: Uuid, op: Op): Sys
    requires Can(x, s, Change(event, op))
  {
    s.(used := Drawn(s.used, op), maps := s.maps[event := ApplyOp(x.histories(event), s.used, MapOf(s, event), op)])
  }

  // Lookup and Store are the locked sections of BodyCache.
  ghost function Next(x: Setup, s: Sys, mv: Move): Sys
    requires Can(x, s, mv)
  {
    match mv
    case Change(event, op) => Changed1(x, s, event, op)
    case Lookup(id, slot, list) =>
      s.(bodies := Touched(s.bodies, slot),
         requests := s.requests[id := Request(slot, list, LookedUp(Got(s.bodies, slot)))])
    case Respond(id) =>
      var r := Responded(x.codec, MapOf(s, s.requests[id].slot.event), s.requests[id]);
      s.(requests := if r.Some? then s.requests[id := r.value] else s.requests - {id})
    case Store(id) =>
      var r := s.requests[id];
      s.(bodies := Stored(s.bodies, r.slot, r.stage.entry, x.entries, x.bytes), requests := s.requests - {id})
  }

  // ---------- the invariant ----------

  // The entry was encoded from `seen`, an earlier state of this event's key.
  ghost predicate From(x: Setup, used: set<Uuid>, m: SeatMap, slot: Slot, entry: Entry, seen: SeatMap) {
    && MapOk(x.histories(slot.event), seen) && SameLife(seen, m) && Honest(x.codec, slot.event, slot.kind, seen, entry)
    && seen.incarnation.Some? && seen.incarnation.value in used
  }

  ghost predicate EntryOk(x: Setup, s: Sys, slot: Slot, entry: Entry) {
    exists seen :: From(x, s.used, MapOf(s, slot.event), slot, entry, seen)
  }

  ghost predicate RequestOk(x: Setup, s: Sys, r: Request) {
    match r.stage
    case LookedUp(cached) => cached.Some? ==> EntryOk(x, s, r.slot, cached.value)
    case Encoded(entry) => EntryOk(x, s, r.slot, entry)
  }

  ghost predicate MapsOk(x: Setup, s: Sys) {
    forall e :: e in s.maps ==>
      MapOk(x.histories(e), s.maps[e]) && (s.maps[e].incarnation.Some? ==> s.maps[e].incarnation.value in s.used)
  }

  ghost predicate SysOk(x: Setup, s: Sys) {
    && MapsOk(x, s) && CacheOk(s.bodies, x.entries, x.bytes)
    && (forall k :: k in s.bodies ==> EntryOk(x, s, k.slot, k.entry))
    && (forall id :: id in s.requests ==> RequestOk(x, s, s.requests[id]))
  }

  lemma EmptyMapOk(h: History)
    ensures MapOk(h, NO_MAP)
  {
  }

  lemma MapAges(h: History, used: set<Uuid>, m: SeatMap, op: Op)
    requires MapOk(h, m) && (m.incarnation.Some? ==> m.incarnation.value in used) && OpOk(h, used, m, op)
    ensures var m' := ApplyOp(h, used, m, op);
      MapOk(h, m') && (m'.incarnation.Some? ==> m'.incarnation.value in Drawn(used, op))
  {
    hide NextVersion, Stamped, Changed, FromHistory, Versions;
    match op {
      case Lose =>
      case DoPut(w) => PutJoins(h, m, w);
      case DoCut(w, at) => CutKeeps(h, m, w, at);
    }
  }

  lemma EventMapOk(x: Setup, s: Sys, event: Uuid)
    requires MapsOk(x, s)
    ensures var m := MapOf(s, event);
      MapOk(x.histories(event), m) && (m.incarnation.Some? ==> m.incarnation.value in s.used)
  {
    EmptyMapOk(x.histories(event));
  }

  lemma UsedGrows(used: set<Uuid>, op: Op)
    ensures used <= Drawn(used, op)
  {
  }

  lemma EntryAges(x: Setup, s: Sys, event: Uuid, op: Op, slot: Slot, entry: Entry)
    requires EntryOk(x, s, slot, entry) && MapsOk(x, s) && Can(x, s, Change(event, op))
    ensures EntryOk(x, Changed1(x, s, event, op), slot, entry)
  {
    hide MapOk, SameLife, OpOk, ApplyOp, Drawn, MapsOk;
    var s' := Changed1(x, s, event, op);
    var seen :| From(x, s.used, MapOf(s, slot.event), slot, entry, seen);
    UsedGrows(s.used, op);
    EventMapOk(x, s, event);
    if slot.event == event {
      OpKeepsLife(x.histories(event), s.used, seen, MapOf(s, event), op);
    }
    assert From(x, s'.used, MapOf(s', slot.event), slot, entry, seen);
  }

  lemma MapsAge(x: Setup, s: Sys, event: Uuid, op: Op)
    requires MapsOk(x, s) && Can(x, s, Change(event, op))
    ensures MapsOk(x, Changed1(x, s, event, op))
  {
    hide MapOk, OpOk, ApplyOp, Drawn;
    EventMapOk(x, s, event);
    MapAges(x.histories(event), s.used, MapOf(s, event), op);
    UsedGrows(s.used, op);
  }

  lemma ChangeOk(x: Setup, s: Sys, event: Uuid, op: Op)
    requires SysOk(x, s) && Can(x, s, Change(event, op))
    ensures SysOk(x, Changed1(x, s, event, op))
  {
    hide MapsOk, CacheOk, EntryOk, OpOk;
    MapsAge(x, s, event, op);
    var s' := Changed1(x, s, event, op);
    forall k | k in s.bodies
      ensures EntryOk(x, s', k.slot, k.entry)
    {
      EntryAges(x, s, event, op, k.slot, k.entry);
    }
    forall id | id in s.requests
      ensures RequestOk(x, s', s.requests[id])
    {
      var r := s.requests[id];
      assert RequestOk(x, s, r);
      if r.stage.Encoded? {
        EntryAges(x, s, event, op, r.slot, r.stage.entry);
      } else if r.stage.cached.Some? {
        EntryAges(x, s, event, op, r.slot, r.stage.cached.value);
      }
    }
  }

  // What a thread encodes is honest about the map it was read from.
  lemma RespondedOk(x: Setup, s: Sys, r: Request)
    requires MapsOk(x, s)
    ensures var r' := Responded(x.codec, MapOf(s, r.slot.event), r); r'.Some? ==> RequestOk(x, s, r'.value)
  {
    hide MapOk, CurrentBody, CurrentTag, Matches, MapsOk;
    var m := MapOf(s, r.slot.event);
    EventMapOk(x, s, r.slot.event);
    var r' := Responded(x.codec, m, r);
    if r'.Some? {
      FollowsSelf(m);
      assert From(x, s.used, m, r.slot, r'.value.stage.entry, m);
    }
  }

  // The entries and requests of two states that differ only in cache and requests mean the same.
  lemma SameMeaning(x: Setup, s: Sys, s': Sys, slot: Slot, entry: Entry)
    requires s'.used == s.used && s'.maps == s.maps && EntryOk(x, s, slot, entry)
    ensures EntryOk(x, s', slot, entry)
  {
    var seen :| From(x, s.used, MapOf(s, slot.event), slot, entry, seen);
    assert From(x, s'.used, MapOf(s', slot.event), slot, entry, seen);
  }

  lemma LookupOk(x: Setup, s: Sys, id: nat, slot: Slot, list: string)
    requires SysOk(x, s)
    ensures SysOk(x, s.(bodies := Touched(s.bodies, slot),
                        requests := s.requests[id := Request(slot, list, LookedUp(Got(s.bodies, slot)))]))
  {
    hide MapsOk, Touched, Got, EntryOk, TotalBytes, DistinctSlots;
    var s' := s.(bodies := Touched(s.bodies, slot),
                 requests := s.requests[id := Request(slot, list, LookedUp(Got(s.bodies, slot)))]);
    TouchedKeeps(s.bodies, slot);
    GotExactly(s.bodies, slot);
    assert MapsOk(x, s') by { SameMaps(x, s, s'); }
    forall k | k in s'.bodies
      ensures EntryOk(x, s', k.slot, k.entry)
    {
      SameMeaning(x, s, s', k.slot, k.entry);
    }
    RequestsStay(x, s, s', id);
    if Got(s.bodies, slot).Some? {
      SameMeaning(x, s, s', slot, Kept(slot, Got(s.bodies, slot).value).entry);
    }
  }

  lemma SameMaps(x: Setup, s: Sys, s': Sys)
    requires MapsOk(x, s) && s'.used == s.used && s'.maps == s.maps
    ensures MapsOk(x, s')
  {
  }

  lemma RequestsStay(x: Setup, s: Sys, s': Sys, id: nat)
    requires s'.used == s.used && s'.maps == s.maps
    requires forall q :: q in s.requests ==> RequestOk(x, s, s.requests[q])
    ensures forall q :: q in s.requests && q != id ==> RequestOk(x, s', s.requests[q])
  {
    hide EntryOk;
    forall q | q in s.requests && q != id
      ensures RequestOk(x, s', s.requests[q])
    {
      var r := s.requests[q];
      assert RequestOk(x, s, r);
      if r.stage.Encoded? {
        SameMeaning(x, s, s', r.slot, r.stage.entry);
      } else if r.stage.cached.Some? {
        SameMeaning(x, s, s', r.slot, r.stage.cached.value);
      }
    }
  }

  lemma RespondOk(x: Setup, s: Sys, id: nat)
    requires SysOk(x, s) && id in s.requests
    ensures var r := Responded(x.codec, MapOf(s, s.requests[id].slot.event), s.requests[id]);
      SysOk(x, s.(requests := if r.Some? then s.requests[id := r.value] else s.requests - {id}))
  {
    hide MapsOk, EntryOk, Responded, CacheOk;
    var r := Responded(x.codec, MapOf(s, s.requests[id].slot.event), s.requests[id]);
    var s' := s.(requests := if r.Some? then s.requests[id := r.value] else s.requests - {id});
    RespondedOk(x, s, s.requests[id]);
    assert MapsOk(x, s') by { SameMaps(x, s, s'); }
    RequestsStay(x, s, s', id);
    if r.Some? {
      OneRequestStays(x, s, s', r.value);
    }
    forall k | k in s.bodies
      ensures EntryOk(x, s', k.slot, k.entry)
    {
      SameMeaning(x, s, s', k.slot, k.entry);
    }
  }

  lemma OneRequestStays(x: Setup, s: Sys, s': Sys, r: Request)
    requires s'.used == s.used && s'.maps == s.maps && RequestOk(x, s, r)
    ensures RequestOk(x, s', r)
  {
    hide EntryOk;
    if r.stage.Encoded? {
      SameMeaning(x, s, s', r.slot, r.stage.entry);
    } else if r.stage.cached.Some? {
      SameMeaning(x, s, s', r.slot, r.stage.cached.value);
    }
  }

  lemma StoreOk(x: Setup, s: Sys, id: nat)
    requires SysOk(x, s) && id in s.requests && s.requests[id].stage.Encoded?
    ensures var r := s.requests[id];
      SysOk(x, s.(bodies := Stored(s.bodies, r.slot, r.stage.entry, x.entries, x.bytes), requests := s.requests - {id}))
  {
    hide MapsOk, EntryOk, Stored, CacheOk;
    var r := s.requests[id];
    var s' := s.(bodies := Stored(s.bodies, r.slot, r.stage.entry, x.entries, x.bytes), requests := s.requests - {id});
    StoredKeeps(s.bodies, r.slot, r.stage.entry, x.entries, x.bytes);
    assert RequestOk(x, s, r);
    assert MapsOk(x, s') by { SameMaps(x, s, s'); }
    RequestsStay(x, s, s', id);
    forall k | k in s'.bodies
      ensures EntryOk(x, s', k.slot, k.entry)
    {
      SameMeaning(x, s, s', k.slot, k.entry);
    }
  }

  lemma MoveOk(x: Setup, s: Sys, mv: Move)
    requires SysOk(x, s) && Can(x, s, mv)
    ensures SysOk(x, Next(x, s, mv))
  {
    hide SysOk, OpOk, Changed1, Responded, Touched, Got, Stored;
    match mv {
      case Change(event, op) => ChangeOk(x, s, event, op);
      case Lookup(id, slot, list) => LookupOk(x, s, id, slot, list);
      case Respond(id) => RespondOk(x, s, id);
      case Store(id) => StoreOk(x, s, id);
    }
  }

  // ---------- whole runs ----------

  ghost predicate Possible(x: Setup, s: Sys, run: seq<Move>)
    decreases |run|
  {
    run == [] || (Can(x, s, run[0]) && Possible(x, Next(x, s, run[0]), run[1..]))
  }

  ghost function After(x: Setup, s: Sys, run: seq<Move>): Sys
    requires Possible(x, s, run)
    decreases |run|
  {
    if run == [] then s else After(x, Next(x, s, run[0]), run[1..])
  }

  lemma {:induction false} RunOk(x: Setup, s: Sys, run: seq<Move>)
    requires SysOk(x, s) && Possible(x, s, run)
    ensures SysOk(x, After(x, s, run))
    decreases |run|
  {
    hide SysOk, Can, Next;
    if run != [] {
      MoveOk(x, s, run[0]);
      RunOk(x, Next(x, s, run[0]), run[1..]);
    }
  }

  const START := Sys({}, map[], [], map[])

  lemma StartOk(x: Setup)
    ensures SysOk(x, START)
  {
  }

  // From an empty cache, through any interleaving of threads, writes, interruptions, key losses and
  // evictions, every answer is the reference answer and the assertion of the source never fires.
  lemma EveryAnswerIsReference(x: Setup, run: seq<Move>, id: nat)
    requires CodecOk(x.codec) && Possible(x, START, run) && Can(x, After(x, START, run), Respond(id))
    ensures var s := After(x, START, run); var r := s.requests[id]; var m := MapOf(s, r.slot.event);
      AnswerOf(x.codec, m, r) == Some(Reference(x.codec, m, r.slot.event, r.slot.kind, r.list))
  {
    hide Possible, After, MapOk, SameLife, Honest, Browse, Answer, Reference, CodecOk, MapsOk, CacheOk;
    StartOk(x);
    RunOk(x, START, run);
    var s := After(x, START, run);
    var r := s.requests[id];
    var m := MapOf(s, r.slot.event);
    EventMapOk(x, s, r.slot.event);
    assert RequestOk(x, s, r);
    var seen := m;
    if r.stage.cached.Some? {
      seen :| From(x, s.used, m, r.slot, r.stage.cached.value, seen);
    }
    BrowseRefines(x.codec, x.histories(r.slot.event), seen, m, r.slot.event, r.slot.kind, r.list, r.stage.cached);
  }

  // The entity tag of a readable map.
  function TagText(c: Codec, m: SeatMap, slot: Slot): string
    requires Readable(m)
  {
    c.render(if slot.kind.LayoutKind? then LayoutTag(slot.event, m.layout.value)
             else AvailabilityTag(slot.event, m.incarnation.value, m.version.value))
  }

  // `bytes` encode what the map holds: its layout, or its version and the status and expiry of every seat.
  ghost predicate Depicts(c: Codec, m: SeatMap, slot: Slot, bytes: Bytes)
    requires Readable(m)
  {
    var event, version := slot.event, m.version.value;
    if slot.kind.LayoutKind? then bytes == c.encode(LayoutBody(event, m.layout.value))
    else exists shown :: Pictures(shown, m.seats) && bytes == c.encode(AvailabilityBody(event, version, shown))
  }

  ghost predicate Pictures(shown: map<SeatId, Shown>, seats: map<SeatId, Cached>) {
    && shown.Keys == seats.Keys
    && forall s :: s in shown ==>
         shown[s].status == seats[s].state.status && shown[s].reservedUntil == seats[s].state.reservedUntil
  }

  // So, in every run: warming exactly when the map is not readable; 304 exactly when the client's own
  // list names a star or the current tag, weakly compared (sections 13.1.2 and 8.8.3.2 of RFC 9110), never
  // because of a tag added from the cache; otherwise 200 with the current tag and what the map holds now.
  lemma AnswersExactly(x: Setup, run: seq<Move>, id: nat)
    requires CodecOk(x.codec) && Possible(x, START, run) && Can(x, After(x, START, run), Respond(id))
    ensures var s := After(x, START, run); var r := s.requests[id]; var m := MapOf(s, r.slot.event);
      var answer := AnswerOf(x.codec, m, r);
      && answer.Some? && (answer.value.Warming? <==> !Readable(m))
      && (Readable(m) ==>
            var tag := TagText(x.codec, m, r.slot);
            && (answer.value.NotModified? <==> Lists(r.list, "*") || Lists(r.list, tag))
            && answer.value.tag == tag
            && (answer.value.Fresh? ==> Depicts(x.codec, m, r.slot, answer.value.body)))
  {
    hide Possible, After, AnswerOf, ParseList, Lists;
    EveryAnswerIsReference(x, run, id);
    var s := After(x, START, run);
    var r := s.requests[id];
    var m := MapOf(s, r.slot.event);
    if Readable(m) {
      var tag := TagText(x.codec, m, r.slot);
      PlainIsClean(tag);
      ParseExactly(r.list, "*");
      ParseExactly(r.list, tag);
      assert Pictures(Show(Contents(m)), m.seats);
    }
  }

  // In every state of every run no slot is kept twice and both limits hold.
  lemma CacheStaysBounded(x: Setup, run: seq<Move>)
    requires Possible(x, START, run)
    ensures CacheOk(After(x, START, run).bodies, x.entries, x.bytes)
  {
    hide Possible, After;
    StartOk(x);
    RunOk(x, START, run);
  }

  // After a PUT that was cut off anywhere, reads, patches and intake all refuse.
  lemma InterruptedMapRefuses(c: Codec, m: SeatMap, w: Write, at: Stop, event: Uuid, kind: Kind, list: string,
                              patch: Write, slot: IntakeScripts.Slot, d: IntakeScripts.Demand, backlog: nat, now: Time)
    requires CanStop(m, w, at) && patch.Patch? && slot.seatMap == Cut(m, w, at)
    ensures var cut := Cut(m, w, at);
      && Browse(c, cut, event, kind, list) == Warming
      && Put(cut, patch) == cut
      && IntakeScripts.Enqueue(slot, d, backlog, now) == (slot, IntakeScripts.Rejected(IntakeScripts.SEATMAP_WARMING))
  {
    hide NextVersion, Stamped;
  }
}
