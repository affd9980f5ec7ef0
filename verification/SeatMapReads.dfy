// Readers of the cached seat map: tags identify contents, deltas reproduce the current snapshot, and
// the order and number of writes does not matter.
module SeatMapReads {
  import opened Domain
  import opened Sums
  import opened SeatMaps

  // `read` and `browse` answer only when a version is present and no write is in progress.
  predicate Readable(m: SeatMap) {
    m.version.Some? && !m.updating && m.incarnation.Some? && m.layout.Some?
  }

  function Contents(m: SeatMap): map<SeatId, SeatState> {
    map s | s in m.seats :: m.seats[s].state
  }

  // ---------- runs of writes, interruptions and key loss ----------

  datatype Op = DoPut(w: Write) | DoCut(w: Write, at: Stop) | Lose

  // Rows come from the history; a full write offers an incarnation nobody drew before.
  ghost predicate OpOk(h: History, used: set<Uuid>, m: SeatMap, op: Op) {
    match op
    case Lose => true
    case DoPut(w) => WriteOk(h, w) && (w.Full? ==> w.candidate !in used)
    case DoCut(w, at) => WriteOk(h, w) && CanStop(m, w, at) && (w.Full? ==> w.candidate !in used)
  }

  ghost function ApplyOp(h: History, used: set<Uuid>, m: SeatMap, op: Op): SeatMap
    requires OpOk(h, used, m, op)
  {
    match op
    case Lose => NO_MAP
    case DoPut(w) => Put(m, w)
    case DoCut(w, at) => Cut(m, w, at)
  }

  function Drawn(used: set<Uuid>, op: Op): set<Uuid> {
    if !op.Lose? && op.w.Full? then used + {op.w.candidate} else used
  }

  ghost predicate OpsOk(h: History, used: set<Uuid>, m: SeatMap, ops: seq<Op>)
    decreases |ops|
  {
    ops == [] ||
    (OpOk(h, used, m, ops[0]) && OpsOk(h, Drawn(used, ops[0]), ApplyOp(h, used, m, ops[0]), ops[1..]))
  }

  ghost function Final(h: History, used: set<Uuid>, m: SeatMap, ops: seq<Op>): SeatMap
    requires OpsOk(h, used, m, ops)
    decreases |ops|
  {
    if ops == [] then m
    else Final(h, Drawn(used, ops[0]), ApplyOp(h, used, m, ops[0]), ops[1..])
  }

  // `m` is a later state of the same key: no seat went back, and every seat that moved on since the
  // client read version v carries a stamp above v.
  ghost predicate Follows(seen: SeatMap, m: SeatMap) {
    && seen.version.Some? && m.version.Some?
    && forall s :: s in seen.seats ==>
         && s in m.seats && seen.seats[s].state.sourceVersion <= m.seats[s].state.sourceVersion
         && (seen.seats[s].state.sourceVersion < m.seats[s].state.sourceVersion ==>
               m.seats[s].stamp > seen.version.value)
  }

  // A write that moves any seat past what the client saw has an aggregate version above the client's.
  lemma NextVersionExceeds(h: History, seen: SeatMap, m: SeatMap, w: Write, s: SeatId)
    requires MapOk(h, seen) && !seen.updating && MapOk(h, m) && WriteOk(h, w) && !Refused(m, w) && Follows(seen, m)
    requires s in w.rows && seen.seats[s].state.sourceVersion < Selected(m, w, s).sourceVersion
    ensures NextVersion(m, w) > seen.version.value
  {
    hide NextVersion, MapSum, FromHistory;
    NextVersionIsSum(h, m, w);
    var a, b := Versions(seen.seats), Joined(m, w);
    assert a[s] < b[s];
    SumMonotone(a, b);
  }

  lemma StoredFollows(h: History, seen: SeatMap, m: SeatMap, w: Write, done: set<SeatId>, m': SeatMap)
    requires MapOk(h, seen) && !seen.updating && MapOk(h, m) && WriteOk(h, w) && !Refused(m, w) && Follows(seen, m)
    requires done <= w.rows.Keys && m'.seats == m.seats + Stamped(m, w, NextVersion(m, w), done) && m'.version.Some?
    ensures Follows(seen, m')
  {
    hide NextVersion, MapSum, FromHistory;
    forall s | s in seen.seats
      ensures s in m'.seats && seen.seats[s].state.sourceVersion <= m'.seats[s].state.sourceVersion
      ensures seen.seats[s].state.sourceVersion < m'.seats[s].state.sourceVersion ==>
        m'.seats[s].stamp > seen.version.value
    {
      if s in done && seen.seats[s].state.sourceVersion < Selected(m, w, s).sourceVersion {
        NextVersionExceeds(h, seen, m, w, s);
      }
    }
  }

  // The situation of a client that read `seen`: the key still lives on, or its incarnation is gone for good.
  ghost predicate SameLife(seen: SeatMap, m: SeatMap) {
    m.incarnation == seen.incarnation ==> Follows(seen, m)
  }

  lemma OpKeepsLife(h: History, used: set<Uuid>, seen: SeatMap, m: SeatMap, op: Op)
    requires MapOk(h, seen) && Readable(seen) && seen.incarnation.value in used
    requires MapOk(h, m) && OpOk(h, used, m, op) && SameLife(seen, m)
    ensures var m' := ApplyOp(h, used, m, op);
      MapOk(h, m') && SameLife(seen, m') && seen.incarnation.value in Drawn(used, op)
  {
    hide NextVersion, MapSum, FromHistory, Follows, Changed, Stamped, Versions;
    match op {
      case Lose =>
      case DoPut(w) =>
        PutJoins(h, m, w);
        if !Refused(m, w) && m.incarnation == seen.incarnation {
          LifeHasVersion(seen, m);
          ChangedRows(m, w);
          StoredFollows(h, seen, m, w, Changed(m, w), Put(m, w));
        }
      case DoCut(w, at) =>
        CutKeeps(h, m, w, at);
        if m.incarnation == seen.incarnation {
          LifeHasVersion(seen, m);
          ChangedRows(m, w);
          StoredFollows(h, seen, m, w, at.done, Cut(m, w, at));
        }
    }
  }

  lemma LifeHasVersion(seen: SeatMap, m: SeatMap)
    requires Follows(seen, m)
    ensures m.version.Some?
  {
  }

  lemma {:induction false} RunKeepsLife(h: History, used: set<Uuid>, seen: SeatMap, m: SeatMap, ops: seq<Op>)
    requires MapOk(h, seen) && Readable(seen) && seen.incarnation.value in used
    requires MapOk(h, m) && OpsOk(h, used, m, ops) && SameLife(seen, m)
    ensures var m' := Final(h, used, m, ops); MapOk(h, m') && SameLife(seen, m')
    decreases |ops|
  {
    hide MapOk, SameLife, ApplyOp, Drawn;
    if ops != [] {
      OpKeepsLife(h, used, seen, m, ops[0]);
      RunKeepsLife(h, Drawn(used, ops[0]), seen, ApplyOp(h, used, m, ops[0]), ops[1..]);
    }
  }

  // From an empty key, a map with a version and no write in progress also has its layout and
  // incarnation, so `read` and `browse` answer in the same states.
  lemma {:induction false} WholeMapIsReadable(h: History, used: set<Uuid>, m: SeatMap, ops: seq<Op>)
    requires OpsOk(h, used, m, ops) && (m.version.Some? && !m.updating ==> Readable(m))
    ensures var m' := Final(h, used, m, ops); m'.version.Some? && !m'.updating ==> Readable(m')
    decreases |ops|
  {
    hide NextVersion, Stamped, Changed, WriteOk;
    if ops != [] {
      var m1 := ApplyOp(h, used, m, ops[0]);
      assert m1.version.Some? && !m1.updating ==> Readable(m1);
      WholeMapIsReadable(h, Drawn(used, ops[0]), m1, ops[1..]);
    }
  }

  lemma FollowsSelf(m: SeatMap)
    requires m.version.Some?
    ensures Follows(m, m)
  {
  }

  lemma LaterReading(h: History, used: set<Uuid>, seen: SeatMap, ops: seq<Op>)
    requires MapOk(h, seen) && Readable(seen) && seen.incarnation.value in used && OpsOk(h, used, seen, ops)
    ensures var m := Final(h, used, seen, ops);
      MapOk(h, m) && (Readable(m) && m.incarnation == seen.incarnation ==> Follows(seen, m))
  {
    hide MapOk, Follows, OpsOk, Final;
    FollowsSelf(seen);
    RunKeepsLife(h, used, seen, seen, ops);
  }

  lemma SameVersionSameContents(h: History, seen: SeatMap, m: SeatMap)
    requires MapOk(h, seen) && Readable(seen) && MapOk(h, m) && Readable(m) && Follows(seen, m)
    requires m.version == seen.version
    ensures Contents(m) == Contents(seen)
  {
    hide MapSum;
    SumMonotone(Versions(seen.seats), Versions(m.seats));
    forall s | s in seen.seats
      ensures m.seats[s].state == seen.seats[s].state
    {
      assert Versions(seen.seats)[s] == Versions(m.seats)[s];
      assert FromHistory(h, s, m.seats[s].state) && FromHistory(h, s, seen.seats[s].state);
    }
  }

  // ETag soundness: two reads with the same incarnation and version, with any writes, interruptions
  // and key losses between them, see identical seats.
  lemma ETagSound(h: History, used: set<Uuid>, seen: SeatMap, ops: seq<Op>)
    requires MapOk(h, seen) && Readable(seen) && seen.incarnation.value in used && OpsOk(h, used, seen, ops)
    ensures var m := Final(h, used, seen, ops);
      Readable(m) && m.incarnation == seen.incarnation && m.version == seen.version ==> Contents(m) == Contents(seen)
  {
    hide MapOk, Follows, OpsOk, Final, Contents;
    LaterReading(h, used, seen, ops);
    var m := Final(h, used, seen, ops);
    if Readable(m) && m.incarnation == seen.incarnation && m.version == seen.version {
      SameVersionSameContents(h, seen, m);
    }
  }

  // What /seat-deltas returns for `since`.
  function Delta(m: SeatMap, since: nat): map<SeatId, SeatState> {
    map s | s in m.seats && m.seats[s].stamp > since :: m.seats[s].state
  }

  // Delta completeness: laying the delta over the old snapshot gives the current one.
  lemma DeltaComplete(h: History, used: set<Uuid>, seen: SeatMap, ops: seq<Op>)
    requires MapOk(h, seen) && Readable(seen) && seen.incarnation.value in used && OpsOk(h, used, seen, ops)
    ensures var m := Final(h, used, seen, ops);
      Readable(m) && m.incarnation == seen.incarnation ==>
        seen.version.value <= m.version.value && Contents(seen) + Delta(m, seen.version.value) == Contents(m)
  {
    hide MapOk, Follows, OpsOk, Final, Contents, Delta;
    LaterReading(h, used, seen, ops);
    var m := Final(h, used, seen, ops);
    if Readable(m) && m.incarnation == seen.incarnation {
      OverlayIsCurrent(h, seen, m);
    }
  }

  lemma OverlayIsCurrent(h: History, seen: SeatMap, m: SeatMap)
    requires MapOk(h, seen) && Readable(seen) && MapOk(h, m) && Readable(m) && Follows(seen, m)
    ensures seen.version.value <= m.version.value
    ensures Contents(seen) + Delta(m, seen.version.value) == Contents(m)
  {
    hide MapSum;
    SumMonotone(Versions(seen.seats), Versions(m.seats));
    forall s | s in m.seats
      ensures m.seats[s].stamp > seen.version.value || m.seats[s].state == seen.seats[s].state
    {
      assert FromHistory(h, s, m.seats[s].state) && FromHistory(h, s, seen.seats[s].state);
    }
  }

  // ---------- replayed, reordered, stale writes ----------

  ghost function PutAll(m: SeatMap, ws: seq<Write>): SeatMap {
    if ws == [] then m else Put(PutAll(m, ws[..|ws| - 1]), ws[|ws| - 1])
  }

  // The largest source version of `s` among the writes, or `floor`.
  function Top(ws: seq<Write>, s: SeatId, floor: nat): (top: nat)
    ensures floor <= top
    ensures forall w :: w in ws && s in w.rows ==> w.rows[s].sourceVersion <= top
    ensures top == floor || exists w :: w in ws && s in w.rows && w.rows[s].sourceVersion == top
  {
    if ws == [] then floor
    else
      var last := ws[|ws| - 1];
      var rest := Top(ws[..|ws| - 1], s, floor);
      assert forall w :: w in ws <==> w in ws[..|ws| - 1] || w == last;
      if s in last.rows && last.rows[s].sourceVersion > rest then last.rows[s].sourceVersion else rest
  }

  predicate Whole(m: SeatMap) { m.version.Some? && !m.updating }

  function Floor(m: SeatMap, s: SeatId): nat { if s in m.seats then m.seats[s].state.sourceVersion else 0 }

  // The writes the script accepts: on an empty or interrupted key, all from the first full one on.
  function Accepted(m: SeatMap, ws: seq<Write>): seq<Write> {
    if ws == [] then []
    else
      var front, last := Accepted(m, ws[..|ws| - 1]), ws[|ws| - 1];
      if front == [] && !Whole(m) && last.Patch? then [] else front + [last]
  }

  lemma AcceptedStep(m: SeatMap, front: seq<Write>, last: Write)
    ensures var before := Accepted(m, front);
      Accepted(m, front + [last]) == if before == [] && !Whole(m) && last.Patch? then [] else before + [last]
  {
    assert (front + [last])[..|front|] == front;
  }

  lemma {:induction false} AcceptsAll(m: SeatMap, ws: seq<Write>)
    requires Whole(m) || (ws != [] && ws[0].Full?)
    ensures Accepted(m, ws) == ws
  {
    if ws != [] {
      hide Whole;
      var front, last := ws[..|ws| - 1], ws[|ws| - 1];
      assert ws == front + [last];
      AcceptedStep(m, front, last);
      hide Accepted;
      if Whole(m) || front != [] {
        AcceptsAll(m, front);
      } else {
        AcceptsNothing(m);
      }
    }
  }

  lemma AcceptsNothing(m: SeatMap)
    ensures Accepted(m, []) == []
  {
  }

  // Any sequence of full and patch writes, from any state of the key, leaves each seat at the maximum of
  // what was stored and what was accepted, with the content it had at that version, and the aggregate
  // version at the sum; refused writes leave no trace.
  lemma {:induction false} PutAllIsMaximum(h: History, m: SeatMap, ws: seq<Write>)
    requires MapOk(h, m) && forall w :: w in ws ==> WriteOk(h, w)
    ensures var m' := PutAll(m, ws); var accepted := Accepted(m, ws);
      && MapOk(h, m') && (accepted == [] ==> m' == m)
      && (Whole(m) || accepted != [] ==>
            && Whole(m')
            && forall s :: s in h ==> s in m'.seats && m'.seats[s].state.sourceVersion == Top(accepted, s, Floor(m, s)))
  {
    hide MapSum, NextVersion, FromHistory, Top, Put, MapOk;
    if ws == [] {
      if Whole(m) {
        WholeInventory(h, m);
        TopOfNothing(h, m);
      }
    } else {
      var front, last := ws[..|ws| - 1], ws[|ws| - 1];
      PutAllIsMaximum(h, m, front);
      var mid := PutAll(m, front);
      if Refused(mid, last) {
        RefusedStays(mid, last);
      } else {
        OneMoreWrite(h, m, Accepted(m, front), mid, last);
        assert Accepted(m, ws) == Accepted(m, front) + [last];
      }
    }
  }

  lemma RefusedStays(m: SeatMap, w: Write)
    requires Refused(m, w)
    ensures Put(m, w) == m
  {
  }

  lemma OneMoreWrite(h: History, m: SeatMap, accepted: seq<Write>, mid: SeatMap, last: Write)
    requires MapOk(h, m) && MapOk(h, mid) && WriteOk(h, last) && !Refused(mid, last)
    requires accepted == [] ==> mid == m
    requires accepted != [] ==>
      forall s :: s in h ==> s in mid.seats && mid.seats[s].state.sourceVersion == Top(accepted, s, Floor(m, s))
    ensures var m' := Put(mid, last);
      && MapOk(h, m') && Whole(m')
      && forall s :: s in h ==>
          s in m'.seats && m'.seats[s].state.sourceVersion == Top(accepted + [last], s, Floor(m, s))
  {
    hide MapSum, NextVersion, MapOk, WriteOk, Put, Top, Refused;
    PutIsWhole(h, mid, last);
    var m' := Put(mid, last);
    forall s | s in h
      ensures s in m'.seats && m'.seats[s].state.sourceVersion == Top(accepted + [last], s, Floor(m, s))
    {
      JoinedAt(h, mid, last, s);
      TopStep(accepted + [last], s, Floor(m, s));
      assert (accepted + [last])[..|accepted|] == accepted;
      TopEmpty(s, Floor(m, s));
    }
  }

  lemma PutIsWhole(h: History, m: SeatMap, w: Write)
    requires MapOk(h, m) && WriteOk(h, w) && !Refused(m, w)
    ensures MapOk(h, Put(m, w)) && Whole(Put(m, w))
  {
    hide MapOk, WriteOk, NextVersion, Stamped, Changed;
    PutJoins(h, m, w);
  }

  lemma JoinedAt(h: History, m: SeatMap, w: Write, s: SeatId)
    requires MapOk(h, m) && WriteOk(h, w) && !Refused(m, w) && s in h
    ensures s in Put(m, w).seats
    ensures Put(m, w).seats[s].state.sourceVersion ==
      if s in w.rows && w.rows[s].sourceVersion > Floor(m, s) then w.rows[s].sourceVersion else Floor(m, s)
  {
    hide Put, NextVersion, MapSum, FromHistory;
    PutVersions(m, w);
    assert s in Joined(m, w);
    assert Versions(Put(m, w).seats)[s] == Joined(m, w)[s];
  }

  lemma TopEmpty(s: SeatId, floor: nat)
    ensures Top([], s, floor) == floor
  {
  }

  lemma TopOfNothing(h: History, m: SeatMap)
    requires h.Keys == m.seats.Keys
    ensures forall s :: s in h ==> Top([], s, Floor(m, s)) == m.seats[s].state.sourceVersion
  {
  }

  lemma TopStep(ws: seq<Write>, s: SeatId, floor: nat)
    requires ws != []
    ensures var last := ws[|ws| - 1]; var rest := Top(ws[..|ws| - 1], s, floor);
      Top(ws, s, floor) ==
      if s in last.rows && last.rows[s].sourceVersion > rest then last.rows[s].sourceVersion else rest
  {
  }

  // Two sequences whose accepted writes are the same, in any order and any multiplicity, end with the
  // same seats and version, from any state of the key. On a whole map, and whenever the first write is
  // full, every write is accepted.
  lemma OrderDoesNotMatter(h: History, m: SeatMap, ws: seq<Write>, vs: seq<Write>)
    requires MapOk(h, m) && (forall w :: w in ws ==> WriteOk(h, w)) && (forall w :: w in vs ==> WriteOk(h, w))
    requires forall w :: w in Accepted(m, ws) <==> w in Accepted(m, vs)
    ensures Contents(PutAll(m, ws)) == Contents(PutAll(m, vs))
    ensures PutAll(m, ws).version == PutAll(m, vs).version
    ensures Whole(m) || (ws != [] && ws[0].Full?) ==> Accepted(m, ws) == ws
  {
    hide MapSum, NextVersion, Put, PutAll, Top, WriteOk, MapOk, Contents, Accepted;
    PutAllIsMaximum(h, m, ws);
    PutAllIsMaximum(h, m, vs);
    var a, b := PutAll(m, ws), PutAll(m, vs);
    var some, others := Accepted(m, ws), Accepted(m, vs);
    if Whole(m) || (ws != [] && ws[0].Full?) {
      AcceptsAll(m, ws);
    }
    assert some == [] <==> others == [] by { SameMembersEmpty(some, others); }
    if some != [] {
      forall s | s in h
        ensures a.seats[s].state.sourceVersion == b.seats[s].state.sourceVersion
      {
        SameTop(some, others, s, Floor(m, s));
      }
      SameVersionsSameMap(h, a, b);
    }
  }

  lemma SameMembersEmpty(a: seq<Write>, b: seq<Write>)
    requires forall w :: w in a <==> w in b
    ensures a == [] <==> b == []
  {
    assert a != [] ==> a[0] in b;
    assert b != [] ==> b[0] in a;
  }

  lemma WholeInventory(h: History, m: SeatMap)
    requires MapOk(h, m) && m.version.Some?
    ensures m.seats.Keys == h.Keys
  {
  }

  // A whole map is determined by its source versions.
  lemma SameVersionsSameMap(h: History, a: SeatMap, b: SeatMap)
    requires MapOk(h, a) && MapOk(h, b) && Whole(a) && Whole(b)
    requires forall s :: s in h ==>
      s in a.seats && s in b.seats && a.seats[s].state.sourceVersion == b.seats[s].state.sourceVersion
    ensures Contents(a) == Contents(b) && a.version == b.version
  {
    hide MapSum;
    forall s | s in h
      ensures a.seats[s].state == b.seats[s].state
    {
      assert FromHistory(h, s, a.seats[s].state) && FromHistory(h, s, b.seats[s].state);
    }
    assert Versions(a.seats) == Versions(b.seats);
  }

  lemma SameTop(ws: seq<Write>, vs: seq<Write>, s: SeatId, floor: nat)
    requires forall w :: w in ws <==> w in vs
    ensures Top(ws, s, floor) == Top(vs, s, floor)
  {
    var a, b := Top(ws, s, floor), Top(vs, s, floor);
    if a != floor {
      var w :| w in ws && s in w.rows && w.rows[s].sourceVersion == a;
      assert w in vs;
    }
    if b != floor {
      var w :| w in vs && s in w.rows && w.rows[s].sourceVersion == b;
      assert w in ws;
    }
  }
}
