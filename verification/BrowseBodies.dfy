// Conditional browsing with a bounded in-process cache of encoded bodies. The cache refines
// "validate against Redis, then encode the current representation".
module BrowseBodies {
  import opened Domain
  import opened SeatMaps
  import opened SeatMapReads
  import opened Tags

  datatype Kind = LayoutKind | AvailabilityKind
  datatype Tag = LayoutTag(event: Uuid, layout: Layout) | AvailabilityTag(event: Uuid, incarnation: Uuid, version: nat)
  datatype Shown = Shown(status: SeatStatus, reservedUntil: Option<Time>)
  datatype Body =
    | LayoutBody(event: Uuid, prices: Layout)
    | AvailabilityBody(event: Uuid, version: nat, seats: map<SeatId, Shown>)
  type Bytes = seq<nat>

  // How tags become header values (uuids, decimals and digests, all injective) and bodies become JSON.
  datatype Codec = Codec(render: Tag -> string, encode: Body -> Bytes)

  ghost predicate CodecOk(c: Codec) {
    && (forall t :: Plain(c.render(t)))
    && (forall t, u :: c.render(t) == c.render(u) ==> t == u)
  }

  function CurrentTag(m: SeatMap, event: Uuid, kind: Kind): Tag
    requires Readable(m)
  {
    if kind.LayoutKind? then LayoutTag(event, m.layout.value)
      else AvailabilityTag(event, m.incarnation.value, m.version.value)
  }

  function Show(seats: map<SeatId, SeatState>): map<SeatId, Shown> {
    map s | s in seats :: Shown(seats[s].status, seats[s].reservedUntil)
  }

  function CurrentBody(m: SeatMap, event: Uuid, kind: Kind): Body
    requires Readable(m)
  {
    if kind.LayoutKind? then LayoutBody(event, m.layout.value)
    else AvailabilityBody(event, m.version.value, Show(Contents(m)))
  }

  // ---------- the BROWSE script and `browse` ----------

  datatype Reply<+T> = Warming | NotModified(tag: string) | Fresh(tag: string, body: T)

  predicate Matches(candidates: seq<string>, tag: string) { "*" in candidates || tag in candidates }

  function Browse(c: Codec, m: SeatMap, event: Uuid, kind: Kind, list: string): Reply<Body> {
    if !Readable(m) then Warming
    else
      var tag := c.render(CurrentTag(m, event, kind));
      if Matches(ParseList(list), tag) then NotModified(tag) else Fresh(tag, CurrentBody(m, event, kind))
  }

  // The simple thing: validate the client's list, then encode the current representation.
  function Reference(c: Codec, m: SeatMap, event: Uuid, kind: Kind, list: string): Reply<Bytes> {
    match Browse(c, m, event, kind, list)
    case Warming => Warming
    case NotModified(tag) => NotModified(tag)
    case Fresh(tag, body) => Fresh(tag, c.encode(body))
  }

  // ---------- one request ----------

  datatype Entry = Entry(tag: string, bytes: Bytes)

  function Validators(list: string, cached: Option<Entry>): string {
    if cached.None? then list else list + "," + cached.value.tag
  }

  // The reply computed from what Redis answered; the last branch is the assertion of the source.
  function Answer(c: Codec, list: string, cached: Option<Entry>, r: Reply<Body>): Option<Reply<Bytes>> {
    match r
    case Warming => Some(Warming)
    case Fresh(tag, body) => Some(Fresh(tag, c.encode(body)))
    case NotModified(tag) =>
      if Matches(ParseList(list), tag) then Some(NotModified(tag))
      else if cached.Some? && cached.value.tag == tag then Some(Fresh(tag, cached.value.bytes))
      else None
  }

  // A cached body was encoded from some earlier readable state of this key.
  ghost predicate Honest(c: Codec, event: Uuid, kind: Kind, seen: SeatMap, x: Entry) {
    Readable(seen) && x == Entry(c.render(CurrentTag(seen, event, kind)), c.encode(CurrentBody(seen, event, kind)))
  }

  // Equal tags mean equal representations, whatever happened between the two reads.
  lemma TagFixesBody(c: Codec, h: History, seen: SeatMap, m: SeatMap, event: Uuid, kind: Kind)
    requires CodecOk(c) && MapOk(h, seen) && Readable(seen) && MapOk(h, m) && SameLife(seen, m) && Readable(m)
    requires c.render(CurrentTag(m, event, kind)) == c.render(CurrentTag(seen, event, kind))
    ensures CurrentBody(m, event, kind) == CurrentBody(seen, event, kind)
  {
    hide MapOk, Follows, Contents;
    assert CurrentTag(m, event, kind) == CurrentTag(seen, event, kind);
    if kind.AvailabilityKind? {
      SameVersionSameContents(h, seen, m);
    }
  }

  // For every earlier state the cached body may come from and every later state Redis validates
  // against: the assertion never fires and the reply is the reference reply for that later state.
  lemma BrowseRefines(c: Codec, h: History, seen: SeatMap, m: SeatMap, event: Uuid, kind: Kind, list: string,
                      cached: Option<Entry>)
    requires CodecOk(c) && MapOk(h, m)
    requires cached.Some? ==> MapOk(h, seen) && SameLife(seen, m) && Honest(c, event, kind, seen, cached.value)
    ensures var reply := Browse(c, m, event, kind, Validators(list, cached));
      Answer(c, list, cached, reply) == Some(Reference(c, m, event, kind, list))
  {
    hide MapOk, SameLife, CurrentBody, ParseList;
    if cached.Some? {
      assert Plain(c.render(CurrentTag(seen, event, kind)));
      ParseAppend(list, cached.value.tag);
      assert cached.value.tag != "*";
      if Readable(m) && c.render(CurrentTag(m, event, kind)) == cached.value.tag {
        TagFixesBody(c, h, seen, m, event, kind);
      }
    }
  }

  // ---------- the bounded cache ----------

  datatype Slot = Slot(event: Uuid, kind: Kind)
  datatype Kept = Kept(slot: Slot, entry: Entry)

  function TotalBytes(bodies: seq<Kept>): nat {
    if bodies == [] then 0 else |bodies[0].entry.bytes| + TotalBytes(bodies[1..])
  }

  lemma {:induction false} TotalAppend(a: seq<Kept>, b: seq<Kept>)
    ensures TotalBytes(a + b) == TotalBytes(a) + TotalBytes(b)
  {
    if a == [] {
      assert a + b == b;
    } else {
      TotalAppend(a[1..], b);
      assert (a + b)[1..] == a[1..] + b;
    }
  }

  ghost predicate DistinctSlots(bodies: seq<Kept>) {
    forall i, j :: 0 <= i < j < |bodies| ==> bodies[i].slot != bodies[j].slot
  }

  // What the cache may hold at any time between two locked sections.
  ghost predicate CacheOk(bodies: seq<Kept>, entries: nat, bytes: nat) {
    DistinctSlots(bodies) && |bodies| <= entries && TotalBytes(bodies) <= bytes
  }

  function Got(bodies: seq<Kept>, slot: Slot): Option<Entry> {
    if bodies == [] then None
    else if bodies[0].slot == slot then Some(bodies[0].entry) else Got(bodies[1..], slot)
  }

  // pop(key)
  function Without(bodies: seq<Kept>, slot: Slot): seq<Kept> {
    if bodies == [] then []
    else if bodies[0].slot == slot then Without(bodies[1..], slot) else [bodies[0]] + Without(bodies[1..], slot)
  }

  // move_to_end(key)
  function Touched(bodies: seq<Kept>, slot: Slot): seq<Kept> {
    var got := Got(bodies, slot);
    if got.None? then bodies else Without(bodies, slot) + [Kept(slot, got.value)]
  }

  // popitem(last=False) until both limits hold
  function Trimmed(bodies: seq<Kept>, entries: nat, bytes: nat): seq<Kept>
    decreases |bodies|
  {
    if bodies != [] && (|bodies| > entries || TotalBytes(bodies) > bytes)
    then Trimmed(bodies[1..], entries, bytes) else bodies
  }

  function Stored(bodies: seq<Kept>, slot: Slot, entry: Entry, entries: nat, bytes: nat): seq<Kept> {
    var rest := Without(bodies, slot);
    if entries > 0 && |entry.bytes| <= bytes then Trimmed(rest + [Kept(slot, entry)], entries, bytes) else rest
  }

  // ---------- what these operations keep ----------

  lemma {:induction false} GotExactly(bodies: seq<Kept>, slot: Slot)
    ensures Got(bodies, slot).None? <==> forall k :: k in bodies ==> k.slot != slot
    ensures Got(bodies, slot).Some? ==> Kept(slot, Got(bodies, slot).value) in bodies
  {
    if bodies != [] {
      GotExactly(bodies[1..], slot);
      assert forall k :: k in bodies <==> k == bodies[0] || k in bodies[1..];
      assert bodies[0].slot == slot ==> bodies[0] == Kept(slot, bodies[0].entry);
    }
  }

  lemma {:induction false} WithoutExactly(bodies: seq<Kept>, slot: Slot)
    ensures forall k :: k in Without(bodies, slot) <==> k in bodies && k.slot != slot
    ensures |Without(bodies, slot)| <= |bodies| && TotalBytes(Without(bodies, slot)) <= TotalBytes(bodies)
  {
    if bodies != [] {
      WithoutExactly(bodies[1..], slot);
      assert forall k :: k in bodies <==> k == bodies[0] || k in bodies[1..];
    }
  }

  lemma {:induction false} WithoutDistinct(bodies: seq<Kept>, slot: Slot)
    requires DistinctSlots(bodies)
    ensures DistinctSlots(Without(bodies, slot))
  {
    if bodies != [] {
      var rest := bodies[1..];
      WithoutDistinct(rest, slot);
      WithoutExactly(rest, slot);
      var out := Without(rest, slot);
      forall k | k in out
        ensures k.slot != bodies[0].slot
      {
        var i :| 0 <= i < |rest| && rest[i] == k;
        assert bodies[i + 1] == k;
      }
      assert forall i :: 0 <= i < |out| ==> out[i] in out;
    }
  }

  // The others stay in their order.
  lemma {:induction false} WithoutKeepsOrder(bodies: seq<Kept>, slot: Slot, i: nat)
    requires DistinctSlots(bodies) && i <= |bodies| && (i < |bodies| ==> bodies[i].slot == slot)
    requires forall j :: 0 <= j < i ==> bodies[j].slot != slot
    ensures Without(bodies, slot) == if i < |bodies| then bodies[..i] + bodies[i + 1..] else bodies
  {
    if bodies != [] {
      var rest := bodies[1..];
      assert forall j :: 0 <= j < |rest| ==> rest[j] == bodies[j + 1];
      if i == 0 {
        WithoutKeepsOrder(rest, slot, |rest|);
      } else {
        WithoutKeepsOrder(rest, slot, i - 1);
        assert bodies == [bodies[0]] + rest;
        if i < |bodies| {
          assert [bodies[0]] + (rest[..i - 1] + rest[i..]) == bodies[..i] + bodies[i + 1..];
        }
      }
    }
  }

  lemma AppendDistinct(bodies: seq<Kept>, kept: Kept)
    requires DistinctSlots(bodies) && forall k :: k in bodies ==> k.slot != kept.slot
    ensures DistinctSlots(bodies + [kept])
  {
    assert forall i :: 0 <= i < |bodies| ==> bodies[i] in bodies;
  }

  // Taking one entry out gives its bytes back.
  lemma {:induction false} WithoutBytes(bodies: seq<Kept>, slot: Slot)
    requires DistinctSlots(bodies)
    ensures var got := Got(bodies, slot);
      && TotalBytes(bodies) == TotalBytes(Without(bodies, slot)) + (if got.Some? then |got.value.bytes| else 0)
      && |bodies| == |Without(bodies, slot)| + (if got.Some? then 1 else 0)
  {
    if bodies != [] {
      var rest := bodies[1..];
      WithoutBytes(rest, slot);
      if bodies[0].slot == slot {
        assert forall i :: 0 <= i < |rest| ==> rest[i] == bodies[i + 1];
        GotExactly(rest, slot);
      }
    }
  }

  // Looking up only reorders.
  lemma TouchedKeeps(bodies: seq<Kept>, slot: Slot)
    requires DistinctSlots(bodies)
    ensures var after := Touched(bodies, slot);
      && DistinctSlots(after) && |after| == |bodies| && TotalBytes(after) == TotalBytes(bodies)
      && (forall k :: k in after <==> k in bodies)
  {
    GotExactly(bodies, slot);
    WithoutExactly(bodies, slot);
    WithoutDistinct(bodies, slot);
    WithoutBytes(bodies, slot);
    var got := Got(bodies, slot);
    if got.Some? {
      var kept := Kept(slot, got.value);
      AppendDistinct(Without(bodies, slot), kept);
      TotalAppend(Without(bodies, slot), [kept]);
      OneEntry(bodies, slot);
    }
  }

  lemma OneEntry(bodies: seq<Kept>, slot: Slot)
    requires DistinctSlots(bodies)
    ensures var got := Got(bodies, slot);
      got.Some? ==> forall k :: k in bodies && k.slot == slot ==> k == Kept(slot, got.value)
  {
    GotExactly(bodies, slot);
  }

  // Trimming drops the oldest entries and no more of them than the limits demand, and keeps a newest entry
  // that fits.
  lemma {:induction false} TrimmedKeeps(bodies: seq<Kept>, entries: nat, bytes: nat)
    requires DistinctSlots(bodies)
    ensures var after := Trimmed(bodies, entries, bytes);
      && CacheOk(after, entries, bytes) && (forall k :: k in after ==> k in bodies)
      && (bodies != [] && entries > 0 && |bodies[|bodies| - 1].entry.bytes| <= bytes ==>
            after != [] && after[|after| - 1] == bodies[|bodies| - 1])
      && |after| <= |bodies| && after == bodies[|bodies| - |after|..]
      && (|after| < |bodies| ==>
            |after| + 1 > entries || TotalBytes(bodies[|bodies| - |after| - 1..]) > bytes)
    decreases |bodies|
  {
    if bodies != [] && (|bodies| > entries || TotalBytes(bodies) > bytes) {
      assert |bodies| == 1 ==> TotalBytes(bodies[1..]) == 0;
      TrimmedKeeps(bodies[1..], entries, bytes);
      var after := Trimmed(bodies, entries, bytes);
      assert bodies[1..][|bodies| - 1 - |after|..] == bodies[|bodies| - |after|..];
      assert |after| < |bodies| - 1 ==> bodies[1..][|bodies| - 2 - |after|..] == bodies[|bodies| - |after| - 1..];
      assert |after| == |bodies| - 1 ==> bodies[|bodies| - |after| - 1..] == bodies;
    }
  }

  // Storing keeps the limits, adds nothing but the new entry, replaces the slot's old one, and the new
  // entry survives its own eviction loop whenever it may be stored at all.
  lemma StoredKeeps(bodies: seq<Kept>, slot: Slot, entry: Entry, entries: nat, bytes: nat)
    requires CacheOk(bodies, entries, bytes)
    ensures var after := Stored(bodies, slot, entry, entries, bytes);
      && CacheOk(after, entries, bytes)
      && (forall k :: k in after ==> k == Kept(slot, entry) || (k in bodies && k.slot != slot))
      && (entries > 0 && |entry.bytes| <= bytes ==> after != [] && after[|after| - 1] == Kept(slot, entry))
  {
    var rest := Without(bodies, slot);
    WithoutExactly(bodies, slot);
    WithoutDistinct(bodies, slot);
    if entries > 0 && |entry.bytes| <= bytes {
      AppendDistinct(rest, Kept(slot, entry));
      TrimmedKeeps(rest + [Kept(slot, entry)], entries, bytes);
    }
  }

  // An ordered dictionary, oldest first, with its byte count and limits.
  class BodyCache {
    var bodies: seq<Kept>
    var bodyBytes: nat
    const maxEntries: nat
    const maxBytes: nat

    ghost predicate Valid()
      reads this
    {
      CacheOk(bodies, maxEntries, maxBytes) && bodyBytes == TotalBytes(bodies)
    }

    constructor (entries: nat, bytes: nat)
      ensures Valid() && bodies == [] && maxEntries == entries && maxBytes == bytes
    {
      bodies := [];
      bodyBytes := 0;
      maxEntries := entries;
      maxBytes := bytes;
    }

    // get(key)
    method Find(slot: Slot) returns (got: Option<Entry>)
      ensures got == Got(bodies, slot)
    {
      var at := 0;
      while at < |bodies|
        invariant 0 <= at <= |bodies|
        invariant Got(bodies, slot) == Got(bodies[at..], slot)
      {
        assert bodies[at..][1..] == bodies[at + 1..];
        if bodies[at].slot == slot {
          return Some(bodies[at].entry);
        }
        at := at + 1;
      }
      got := None;
    }

    // get and move_to_end under the lock: the entry of the slot, exactly if there is one.
    method Lookup(slot: Slot) returns (cached: Option<Entry>)
      requires Valid()
      modifies this
      ensures Valid() && bodies == Touched(old(bodies), slot) && cached == Got(old(bodies), slot)
      ensures forall k :: k in bodies <==> k in old(bodies)
      ensures cached.None? <==> forall k :: k in bodies ==> k.slot != slot
      ensures cached.Some? ==> bodies[|bodies| - 1] == Kept(slot, cached.value)
    {
      GotExactly(bodies, slot);
      TouchedKeeps(bodies, slot);
      cached := Find(slot);
      if cached.Some? {
        bodies := Without(bodies, slot) + [Kept(slot, cached.value)];
      }
    }

    // Store a freshly encoded body under the lock: replace, then evict the oldest until both limits hold.
    method Store(slot: Slot, entry: Entry)
      requires Valid()
      modifies this
      ensures Valid() && bodies == Stored(old(bodies), slot, entry, maxEntries, maxBytes)
      ensures forall k :: k in bodies ==> k == Kept(slot, entry) || (k in old(bodies) && k.slot != slot)
      ensures maxEntries > 0 && |entry.bytes| <= maxBytes ==> bodies != [] && bodies[|bodies| - 1] == Kept(slot, entry)
    {
      StoredKeeps(bodies, slot, entry, maxEntries, maxBytes);
      WithoutExactly(bodies, slot);
      WithoutBytes(bodies, slot);
      var previous := Find(slot);
      bodies := Without(bodies, slot);
      if previous.Some? {
        bodyBytes := bodyBytes - |previous.value.bytes|;
      }
      if maxEntries > 0 && |entry.bytes| <= maxBytes {
        ghost var target := Stored(old(bodies), slot, entry, maxEntries, maxBytes);
        TotalAppend(bodies, [Kept(slot, entry)]);
        bodies := bodies + [Kept(slot, entry)];
        bodyBytes := bodyBytes + |entry.bytes|;
        while |bodies| > maxEntries || bodyBytes > maxBytes
          invariant Trimmed(bodies, maxEntries, maxBytes) == target && bodyBytes == TotalBytes(bodies)
          decreases |bodies|
        {
          bodyBytes := bodyBytes - |bodies[0].entry.bytes|;
          bodies := bodies[1..];
        }
      }
    }
  }
}
