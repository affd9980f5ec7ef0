// The cached seat map of one event: the Lua PUT script, its interruption, and what a sequence of
// stale, replayed or reordered writes leaves behind.
module SeatMaps {
  import opened Domain
  import opened Sums

  datatype SeatStatus = AVAILABLE | HELD | SOLD
  datatype SeatState = SeatState(
    price: nat, status: SeatStatus, reservedUntil: Option<Time>, holdId: Option<Uuid>, sourceVersion: nat)
  datatype Cached = Cached(state: SeatState, stamp: nat)
  datatype Sale = Sale(starts: Time, ends: Time, currency: string)

  type Rows = map<SeatId, SeatState>
  type Layout = map<SeatId, nat>

  // One Redis hash; the layout tag is a digest of the layout, modelled by the layout itself.
  datatype SeatMap = SeatMap(
    version: Option<nat>, updating: bool, seats: map<SeatId, Cached>,
    layout: Option<Layout>, incarnation: Option<Uuid>, sale: Option<Sale>)

  const NO_MAP := SeatMap(None, false, map[], None, None, None)

  datatype Write =
    | Full(rows: Rows, candidate: Uuid, window: Option<Sale>)
    | Patch(rows: Rows)

  // ---------- the PUT script ----------

  predicate Refused(m: SeatMap, w: Write) { w.Patch? && (m.version.None? || m.updating) }

  predicate Newer(m: SeatMap, w: Write, s: SeatId)
    requires s in w.rows
  {
    s !in m.seats || w.rows[s].sourceVersion > m.seats[s].state.sourceVersion
  }

  function Selected(m: SeatMap, w: Write, s: SeatId): SeatState
    requires s in w.rows
  {
    if Newer(m, w, s) then w.rows[s] else m.seats[s].state
  }

  function Changed(m: SeatMap, w: Write): set<SeatId> {
    set s | s in w.rows && (Newer(m, w, s) || m.updating)
  }

  lemma ChangedRows(m: SeatMap, w: Write)
    ensures Changed(m, w) <= w.rows.Keys
  {
  }

  // How much each row adds to the aggregate version.
  function Gain(m: SeatMap, w: Write, s: SeatId): nat
    requires s in w.rows
  {
    if w.Full? then Selected(m, w, s).sourceVersion
    else if !Newer(m, w, s) then 0
    else if s in m.seats then w.rows[s].sourceVersion - m.seats[s].state.sourceVersion
    else w.rows[s].sourceVersion
  }

  function Gains(m: SeatMap, w: Write, done: set<SeatId>): map<SeatId, nat> {
    map s | s in done && s in w.rows :: Gain(m, w, s)
  }

  function Base(m: SeatMap, w: Write): nat {
    if w.Patch? && m.version.Some? then m.version.value else 0
  }

  ghost function NextVersion(m: SeatMap, w: Write): nat {
    Base(m, w) + MapSum(Gains(m, w, w.rows.Keys))
  }

  function Stamped(m: SeatMap, w: Write, version: nat, done: set<SeatId>): map<SeatId, Cached> {
    map s | s in done && s in w.rows :: Cached(Selected(m, w, s), version)
  }

  function Prices(rows: Rows): Layout {
    map s | s in rows :: rows[s].price
  }

  // The last commands of a full write, in order: layout with its tag, incarnation unless one is set,
  // sale window when the write carries one. `steps` of them have run.
  function AfterMeta(m: SeatMap, w: Write, steps: nat): SeatMap {
    if w.Patch? then m
    else m.(layout := if steps >= 1 then Some(Prices(w.rows)) else m.layout,
            incarnation := if steps >= 2 && m.incarnation.None? then Some(w.candidate) else m.incarnation,
            sale := if steps >= 3 && w.window.Some? then w.window else m.sale)
  }

  const META_STEPS: nat := 3

  ghost function Put(m: SeatMap, w: Write): SeatMap {
    if Refused(m, w) then m
    else
      var v := NextVersion(m, w);
      var written := m.(seats := m.seats + Stamped(m, w, v, Changed(m, w)), version := Some(v), updating := false);
      AfterMeta(written, w, META_STEPS)
  }

  // A PUT that stopped between setting and clearing `updating`: some changed seats are written, only
  // after all of them the version, and only after that the first `meta` of the metadata commands.
  datatype Stop = Stop(done: set<SeatId>, versionSet: bool, meta: nat)

  ghost predicate CanStop(m: SeatMap, w: Write, at: Stop) {
    && !Refused(m, w) && at.done <= Changed(m, w)
    && (at.versionSet ==> at.done == Changed(m, w)) && at.meta <= META_STEPS && (at.meta > 0 ==> at.versionSet)
  }

  ghost function Cut(m: SeatMap, w: Write, at: Stop): SeatMap
    requires CanStop(m, w, at)
  {
    var v := NextVersion(m, w);
    var partial := m.(updating := true, seats := m.seats + Stamped(m, w, v, at.done));
    var versioned := if at.versionSet then partial.(version := Some(v)) else partial;
    AfterMeta(versioned, w, at.meta)
  }

  // ---------- what a map means ----------

  // Every content a seat ever had, indexed by its source version.
  type History = map<SeatId, seq<SeatState>>

  ghost predicate FromHistory(h: History, s: SeatId, x: SeatState) {
    s in h && x.sourceVersion < |h[s]| && h[s][x.sourceVersion] == x
  }

  function Versions(seats: map<SeatId, Cached>): map<SeatId, nat> {
    map s | s in seats :: seats[s].state.sourceVersion
  }

  // Rows come from the database; a full write carries the whole inventory.
  ghost predicate WriteOk(h: History, w: Write) {
    && (w.Full? ==> w.rows.Keys == h.Keys) && w.rows.Keys <= h.Keys
    && (forall s :: s in w.rows ==> FromHistory(h, s, w.rows[s]))
  }

  ghost predicate MapOk(h: History, m: SeatMap) {
    && m.seats.Keys <= h.Keys
    && (forall s :: s in m.seats ==> FromHistory(h, s, m.seats[s].state))
    && (m.version.Some? ==> m.seats.Keys == h.Keys)
    && (m.version.Some? && !m.updating ==> m.version.value == MapSum(Versions(m.seats)))
  }

  // The seats after a complete write, seat by seat.
  ghost function Joined(m: SeatMap, w: Write): map<SeatId, nat> {
    map s | s in m.seats.Keys + w.rows.Keys ::
      if s in w.rows then Selected(m, w, s).sourceVersion else m.seats[s].state.sourceVersion
  }

  lemma PutVersions(m: SeatMap, w: Write)
    requires !Refused(m, w)
    ensures Versions(Put(m, w).seats) == Joined(m, w)
  {
    hide NextVersion;
  }

  // The incrementally kept version is the sum of the joined source versions.
  lemma NextVersionIsSum(h: History, m: SeatMap, w: Write)
    requires MapOk(h, m) && WriteOk(h, w) && !Refused(m, w)
    ensures NextVersion(m, w) == MapSum(Joined(m, w))
  {
    if w.Full? {
      assert Gains(m, w, w.rows.Keys) == Joined(m, w);
    } else {
      PatchSum(m, w, w.rows.Keys);
      assert PartlyJoined(m, w, w.rows.Keys) == Joined(m, w);
    }
  }

  ghost function PartlyJoined(m: SeatMap, w: Write, done: set<SeatId>): map<SeatId, nat> {
    map s | s in m.seats ::
      if s in done && s in w.rows then Selected(m, w, s).sourceVersion else m.seats[s].state.sourceVersion
  }

  lemma {:induction false} PatchSum(m: SeatMap, w: Write, done: set<SeatId>)
    requires w.Patch? && done <= w.rows.Keys <= m.seats.Keys
    ensures MapSum(PartlyJoined(m, w, done)) == MapSum(Versions(m.seats)) + MapSum(Gains(m, w, done))
    decreases done
  {
    hide MapSum;
    if done == {} {
      SumEmpty(Gains(m, w, done));
      assert PartlyJoined(m, w, done) == Versions(m.seats);
    } else {
      var s :| s in done;
      var rest := done - {s};
      PatchSum(m, w, rest);
      var before := PartlyJoined(m, w, rest);
      assert before[s] == m.seats[s].state.sourceVersion;
      assert PartlyJoined(m, w, done) == before[s := Selected(m, w, s).sourceVersion];
      SumReplace(before, s, Selected(m, w, s).sourceVersion);
      assert Gains(m, w, done) == Gains(m, w, rest)[s := Gain(m, w, s)];
      SumAdd(Gains(m, w, rest), s, Gain(m, w, s));
    }
  }

  // What one write does, field by field. A patch is refused exactly on a missing or half-written map. A row
  // that is new or newer replaces its seat under the new version; repairing restamps the others; no other
  // seat changes. A full write sets layout and window, and an incarnation only where there is none.
  lemma PutExactly(m: SeatMap, w: Write)
    ensures var m' := Put(m, w);
      if w.Patch? && (m.version.None? || m.updating) then m' == m
      else
        && m'.version.Some? && !m'.updating && m'.seats.Keys == m.seats.Keys + w.rows.Keys
        && (forall s :: s in m'.seats ==>
              m'.seats[s] ==
              if s in w.rows && (s !in m.seats || w.rows[s].sourceVersion > m.seats[s].state.sourceVersion)
              then Cached(w.rows[s], m'.version.value)
              else if s in w.rows && m.updating then Cached(m.seats[s].state, m'.version.value)
              else m.seats[s])
        && (w.Patch? ==> m'.layout == m.layout && m'.incarnation == m.incarnation && m'.sale == m.sale)
        && (w.Full? ==>
              && m'.layout.Some? && m'.layout.value.Keys == w.rows.Keys
              && (forall s :: s in w.rows ==> m'.layout.value[s] == w.rows[s].price)
              && m'.incarnation == (if m.incarnation.Some? then m.incarnation else Some(w.candidate))
              && m'.sale == (if w.window.Some? then w.window else m.sale))
  {
    hide NextVersion;
  }

  // Whatever part of a write is stored, every seat keeps a content it really had.
  lemma StoredFromHistory(h: History, m: SeatMap, w: Write, v: nat, done: set<SeatId>)
    requires m.seats.Keys <= h.Keys && WriteOk(h, w) && done <= w.rows.Keys
    requires forall s :: s in m.seats ==> FromHistory(h, s, m.seats[s].state)
    ensures var seats := m.seats + Stamped(m, w, v, done);
      seats.Keys == m.seats.Keys + done && seats.Keys <= h.Keys &&
      forall s :: s in seats ==> FromHistory(h, s, seats[s].state)
  {
  }

  // PUT is a join: each seat ends at the larger source version, and the sum invariant is restored
  // from any state, interrupted ones included.
  lemma PutJoins(h: History, m: SeatMap, w: Write)
    requires MapOk(h, m) && WriteOk(h, w)
    ensures MapOk(h, Put(m, w))
    ensures !Refused(m, w) ==> Versions(Put(m, w).seats) == Joined(m, w) && !Put(m, w).updating
  {
    hide NextVersion, MapSum, FromHistory, Stamped, Joined, Versions;
    if !Refused(m, w) {
      PutVersions(m, w);
      NextVersionIsSum(h, m, w);
      StoredFromHistory(h, m, w, NextVersion(m, w), Changed(m, w));
    }
  }

  // An interrupted PUT refuses patches and reads, and loses nothing.
  lemma CutKeeps(h: History, m: SeatMap, w: Write, at: Stop)
    requires MapOk(h, m) && WriteOk(h, w) && CanStop(m, w, at)
    ensures MapOk(h, Cut(m, w, at)) && Cut(m, w, at).updating
  {
    hide NextVersion, MapSum, FromHistory, Stamped, Versions;
    StoredFromHistory(h, m, w, NextVersion(m, w), at.done);
  }

  // The next full write repairs an interrupted map without losing any newer seat already written.
  lemma RepairAfterCut(h: History, m: SeatMap, w: Write, at: Stop, next: Write)
    requires MapOk(h, m) && WriteOk(h, w) && CanStop(m, w, at) && WriteOk(h, next)
    ensures var cut := Cut(m, w, at);
      && (next.Patch? ==> Put(cut, next) == cut)
      && (next.Full? ==>
            var fixed := Put(cut, next);
            && MapOk(h, fixed) && !fixed.updating && fixed.version.Some?
            && fixed.layout.Some? && fixed.incarnation.Some?
            && (forall s :: s in cut.seats ==>
                  s in fixed.seats && cut.seats[s].state.sourceVersion <= fixed.seats[s].state.sourceVersion)
            && (forall s :: s in fixed.seats ==> fixed.seats[s].stamp == fixed.version.value))
  {
    hide NextVersion, MapSum, FromHistory, Cut, Versions, Joined, MapOk;
    CutKeeps(h, m, w, at);
    if next.Full? {
      RepairByFull(h, Cut(m, w, at), next);
    }
  }

  lemma RepairByFull(h: History, cut: SeatMap, next: Write)
    requires MapOk(h, cut) && cut.updating && WriteOk(h, next) && next.Full?
    ensures var fixed := Put(cut, next);
      && MapOk(h, fixed) && !fixed.updating && fixed.version.Some? && fixed.layout.Some? && fixed.incarnation.Some?
      && (forall s :: s in cut.seats ==>
            s in fixed.seats && cut.seats[s].state.sourceVersion <= fixed.seats[s].state.sourceVersion)
      && (forall s :: s in fixed.seats ==> fixed.seats[s].stamp == fixed.version.value)
  {
    hide NextVersion, MapSum, FromHistory, Versions, Joined;
    PutJoins(h, cut, next);
  }
}
