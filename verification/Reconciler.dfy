// The proactive reconciliation schedule: oldest-first claims, token-fenced completion and deferral
// with bounded exponential backoff, leases handed back at the deadline. Times are milliseconds.
module Reconciler {
  import opened Domain

  datatype Row = Row(dueAt: Time, failures: nat, lastAt: Option<Time>, token: Option<Uuid>, until: Option<Time>)
  type Schedule = map<Uuid, Row>

  datatype Settings = Settings(interval: nat, backoff: nat, lease: nat, batch: nat)

  // The ranges the configuration enforces, in milliseconds.
  predicate SettingsOk(s: Settings) {
    s.interval >= 1000 && 100 <= s.backoff <= 60000 && 5000 <= s.lease <= 300000 && 1 <= s.batch <= 100
  }

  // ---------- backoff ----------

  const BACKOFF_SHIFT_CAP: nat := 5

  function Pow2(n: nat): nat { if n == 0 then 1 else 2 * Pow2(n - 1) }

  function Least(a: nat, b: nat): nat { if a <= b then a else b }

  function Delay(backoff: nat, failures: nat): nat {
    Least(backoff * Pow2(Least(failures, BACKOFF_SHIFT_CAP)), backoff * Pow2(BACKOFF_SHIFT_CAP))
  }

  lemma {:induction false} Pow2Grows(a: nat, b: nat)
    requires a <= b
    ensures 1 <= Pow2(a) <= Pow2(b)
    decreases b
  {
    if a < b {
      Pow2Grows(a, b - 1);
    } else if a > 0 {
      Pow2Grows(a - 1, b - 1);
    }
  }

  lemma ScaleGrows(k: nat, a: nat, b: nat)
    requires a <= b
    ensures k * a <= k * b
  {
  }

  // The delay is base * 2^min(failures, 5): it starts at the base after a success, never shrinks as
  // failures add up, and never exceeds 32 times the base.
  lemma DelayBounds(backoff: nat, failures: nat, more: nat)
    requires failures <= more
    ensures Delay(backoff, failures) == backoff * Pow2(Least(failures, 5))
    ensures Delay(backoff, 0) == backoff
    ensures backoff <= Delay(backoff, failures) <= Delay(backoff, more) <= 32 * backoff
    ensures failures < 5 ==> Delay(backoff, failures + 1) == 2 * Delay(backoff, failures)
    ensures more >= 5 ==> Delay(backoff, more) == 32 * backoff
  {
    var a, b := Least(failures, 5), Least(more, 5);
    Pow2Grows(0, a);
    Pow2Grows(a, b);
    Pow2Grows(b, 5);
    Pow2Grows(a, 5);
    assert Pow2(5) == 32;
    ScaleGrows(backoff, 1, Pow2(a));
    ScaleGrows(backoff, Pow2(a), Pow2(b));
    ScaleGrows(backoff, Pow2(a), 32);
    ScaleGrows(backoff, Pow2(b), 32);
    if failures < 5 {
      Pow2Grows(failures + 1, 5);
      ScaleGrows(backoff, Pow2(failures + 1), 32);
      assert Pow2(failures + 1) == 2 * Pow2(failures);
      assert backoff * (2 * Pow2(failures)) == 2 * (backoff * Pow2(failures));
    }
  }

  // ---------- the statements ----------

  predicate Claimable(r: Row, now: Time) { r.dueAt <= now && (r.until.None? || r.until.value < now) }

  // ORDER BY next_due_at, event_id
  predicate Precedes(rows: Schedule, a: Uuid, b: Uuid)
    requires a in rows && b in rows
  {
    rows[a].dueAt < rows[b].dueAt || (rows[a].dueAt == rows[b].dueAt && a < b)
  }

  predicate Candidate(rows: Schedule, active: set<Uuid>, now: Time, locked: set<Uuid>, e: Uuid) {
    e in rows && e in active && e !in locked && Claimable(rows[e], now)
  }

  // What the claiming SELECT returns: the oldest claimable events in the sale window, in order,
  // skipping rows locked by others.
  ghost predicate IsClaim(rows: Schedule, active: set<Uuid>, now: Time, limit: nat, locked: set<Uuid>,
                          batch: seq<Uuid>) {
    && |batch| <= limit
    && (forall i :: 0 <= i < |batch| ==> Candidate(rows, active, now, locked, batch[i]))
    && (forall i, j :: 0 <= i < j < |batch| ==> batch[i] != batch[j])
    && (forall i, j :: 0 <= i < j < |batch| ==> Precedes(rows, batch[i], batch[j]))
    && (forall e :: Candidate(rows, active, now, locked, e) && e !in batch ==>
          |batch| == limit && forall i :: 0 <= i < |batch| ==> Precedes(rows, batch[i], e))
  }

  function Claimed(rows: Schedule, batch: seq<Uuid>, token: Uuid, now: Time, lease: nat): Schedule {
    map e | e in rows :: if e in batch then rows[e].(token := Some(token), until := Some(now + lease)) else rows[e]
  }

  predicate Holds(rows: Schedule, e: Uuid, token: Uuid) { e in rows && rows[e].token == Some(token) }

  function DoneRow(r: Row, now: Time, interval: nat): Row {
    Row(now + interval, 0, Some(now), None, None)
  }

  function DeferredRow(r: Row, now: Time, backoff: nat): Row {
    Row(now + Delay(backoff, r.failures), r.failures + 1, r.lastAt, None, None)
  }

  // Completion or deferral of one event; a stale token changes nothing.
  function Finished(rows: Schedule, s: Settings, e: Uuid, token: Uuid, now: Time, ok: bool): Schedule {
    if !Holds(rows, e, token) then rows
    else rows[e := if ok then DoneRow(rows[e], now, s.interval) else DeferredRow(rows[e], now, s.backoff)]
  }

  function Freed(r: Row): Row { r.(token := None, until := None) }

  function Returned(rows: Schedule, batch: seq<Uuid>, token: Uuid): Schedule {
    map e | e in rows :: if e in batch && Holds(rows, e, token) then Freed(rows[e]) else rows[e]
  }

  // What completion, deferral, claim and return do to the schedule, row by row. A success resets the
  // failures; a deferral counts one more and waits according to the failures before it.
  lemma FinishedExactly(rows: Schedule, s: Settings, e: Uuid, token: Uuid, now: Time, ok: bool, x: Uuid)
    ensures var rows' := Finished(rows, s, e, token, now, ok);
      && rows'.Keys == rows.Keys
      && (x in rows && (x != e || rows[x].token != Some(token)) ==> rows'[x] == rows[x])
      && (x in rows && x == e && rows[x].token == Some(token) ==>
            && rows'[x].token.None? && rows'[x].until.None?
            && (ok ==> rows'[x].failures == 0 && rows'[x].dueAt == now + s.interval && rows'[x].lastAt == Some(now))
            && (!ok ==>
                  && rows'[x].failures == rows[x].failures + 1 && rows'[x].lastAt == rows[x].lastAt
                  && rows'[x].dueAt == now + s.backoff * Pow2(Least(rows[x].failures, 5))))
  {
    if x in rows {
      DelayBounds(s.backoff, rows[x].failures, rows[x].failures);
    }
  }

  // A claimed event is nobody else's until its lease is over; a returned one can be claimed at once.
  lemma LeaseExactly(rows: Schedule, batch: seq<Uuid>, token: Uuid, now: Time, lease: nat, x: Uuid, later: Time)
    requires x in rows
    ensures var rows' := Claimed(rows, batch, token, now, lease);
      && rows'.Keys == rows.Keys && (x !in batch ==> rows'[x] == rows[x])
      && (x in batch ==>
            && rows'[x] == rows[x].(token := Some(token), until := rows'[x].until)
            && (Claimable(rows'[x], later) <==> rows[x].dueAt <= later && later > now + lease))
    ensures var rows' := Returned(rows, batch, token);
      && rows'.Keys == rows.Keys && (!(x in batch && rows[x].token == Some(token)) ==> rows'[x] == rows[x])
      && (x in batch && rows[x].token == Some(token) ==>
            && rows'[x] == rows[x].(token := None, until := None)
            && (Claimable(rows'[x], later) <==> rows[x].dueAt <= later))
  {
  }

  // A row after a success and then one deferral at each of these times.
  function Deferred(r: Row, backoff: nat, times: seq<Time>): Row {
    if times == [] then r
    else DeferredRow(Deferred(r, backoff, times[..|times| - 1]), times[|times| - 1], backoff)
  }

  // The n-th failure in a row after a success waits base * 2^min(n - 1, 5).
  lemma {:induction false} BackoffSequence(r: Row, backoff: nat, times: seq<Time>)
    requires r.failures == 0 && times != []
    ensures var d := Deferred(r, backoff, times); var n := |times|;
      d.failures == n && d.dueAt == times[n - 1] + backoff * Pow2(Least(n - 1, 5)) && d.lastAt == r.lastAt
  {
    var front := times[..|times| - 1];
    if front != [] {
      BackoffSequence(r, backoff, front);
    }
    DelayBounds(backoff, |front|, |front|);
  }

  // ---------- no starvation ----------

  datatype Move =
    | Claim(at: Time, locked: set<Uuid>, batch: seq<Uuid>, token: Uuid)
    | Finish(at: Time, event: Uuid, token: Uuid, ok: bool)
    | Return(at: Time, batch: seq<Uuid>, token: Uuid)

  ghost predicate Can(rows: Schedule, active: set<Uuid>, s: Settings, now: Time, m: Move) {
    now <= m.at && (m.Claim? ==> IsClaim(rows, active, m.at, s.batch, m.locked, m.batch))
  }

  function Next(rows: Schedule, s: Settings, m: Move): (r: Schedule)
    ensures r.Keys == rows.Keys
  {
    match m
    case Claim(at, _, batch, token) => Claimed(rows, batch, token, at, s.lease)
    case Finish(at, e, token, ok) => Finished(rows, s, e, token, at, ok)
    case Return(_, batch, token) => Returned(rows, batch, token)
  }

  // The in-window events that a claim would take before `w`.
  ghost function Ahead(rows: Schedule, active: set<Uuid>, w: Uuid): set<Uuid>
    requires w in rows
  {
    set e | e in active && e in rows && Precedes(rows, e, w)
  }

  predicate Finishes(rows: Schedule, m: Move, e: Uuid) { m.Finish? && m.event == e && Holds(rows, e, m.token) }

  lemma DelayPositive(s: Settings, failures: nat)
    requires SettingsOk(s)
    ensures Delay(s.backoff, failures) > 0
  {
    DelayBounds(s.backoff, failures, failures);
  }

  // A finished event goes behind every event that was already due; nothing else moves.
  lemma MoveAhead(rows: Schedule, active: set<Uuid>, s: Settings, m: Move, w: Uuid)
    requires SettingsOk(s) && w in rows && rows[w].dueAt <= m.at && !Finishes(rows, m, w)
    ensures var rows' := Next(rows, s, m);
      && rows'[w].dueAt == rows[w].dueAt
      && Ahead(rows', active, w) ==
         Ahead(rows, active, w) - (if m.Finish? && Holds(rows, m.event, m.token) then {m.event} else {})
  {
    hide Delay;
    if m.Finish? && Holds(rows, m.event, m.token) {
      DelayPositive(s, rows[m.event].failures);
    }
  }

  // A claim that passes over a waiting event takes only events ahead of it.
  lemma ClaimTakesOlder(rows: Schedule, active: set<Uuid>, now: Time, limit: nat, locked: set<Uuid>, batch: seq<Uuid>,
                        w: Uuid)
    requires IsClaim(rows, active, now, limit, locked, batch) && Candidate(rows, active, now, locked, w) && w !in batch
    ensures |batch| == limit && forall e :: e in batch ==> e in Ahead(rows, active, w)
  {
  }

  function Members(batch: seq<Uuid>): set<Uuid> { set e | e in batch }

  lemma {:induction false} DistinctCount(batch: seq<Uuid>)
    requires forall i, j :: 0 <= i < j < |batch| ==> batch[i] != batch[j]
    ensures |Members(batch)| == |batch|
  {
    if batch != [] {
      var front, last := batch[..|batch| - 1], batch[|batch| - 1];
      DistinctCount(front);
      assert last !in front;
      assert batch == front + [last];
      assert Members(batch) == Members(front) + {last};
    }
  }

  lemma SubsetCount(a: set<Uuid>, b: set<Uuid>)
    requires a <= b
    ensures |a| <= |b|
  {
    assert b == a + (b - a);
  }

  // Once fewer events than one batch are ahead, the next claim takes the waiting event.
  lemma FrontIsClaimed(rows: Schedule, active: set<Uuid>, now: Time, limit: nat, locked: set<Uuid>, batch: seq<Uuid>,
                       w: Uuid)
    requires IsClaim(rows, active, now, limit, locked, batch) && Candidate(rows, active, now, locked, w)
    requires |Ahead(rows, active, w)| < limit
    ensures w in batch
  {
    if w !in batch {
      ClaimTakesOlder(rows, active, now, limit, locked, batch, w);
      DistinctCount(batch);
      SubsetCount(Members(batch), Ahead(rows, active, w));
    }
  }

  ghost predicate Possible(rows: Schedule, active: set<Uuid>, s: Settings, now: Time, run: seq<Move>)
    decreases |run|
  {
    run == [] || (Can(rows, active, s, now, run[0]) && Possible(Next(rows, s, run[0]), active, s, run[0].at, run[1..]))
  }

  function After(rows: Schedule, s: Settings, run: seq<Move>): (r: Schedule)
    ensures r.Keys == rows.Keys
    decreases |run|
  {
    if run == [] then rows else After(Next(rows, s, run[0]), s, run[1..])
  }

  // `e` is not finished by any move of the run.
  ghost predicate Untouched(rows: Schedule, s: Settings, run: seq<Move>, e: Uuid)
    decreases |run|
  {
    run == [] || (!Finishes(rows, run[0], e) && Untouched(Next(rows, s, run[0]), s, run[1..], e))
  }

  // How many moves of the run finish an event that is ahead of `w` at that moment.
  ghost function Overtakes(rows: Schedule, active: set<Uuid>, s: Settings, run: seq<Move>, w: Uuid): nat
    requires w in rows
    decreases |run|
  {
    if run == [] then 0
    else
      var m := run[0];
      (if m.Finish? && Holds(rows, m.event, m.token) && m.event in Ahead(rows, active, w) then 1 else 0)
        + Overtakes(Next(rows, s, m), active, s, run[1..], w)
  }

  // While a due event waits, the number of events ahead of it falls by exactly one with every
  // completion or deferral of such an event and is changed by nothing else.
  lemma {:induction false} WaitShrinks(rows: Schedule, active: set<Uuid>, s: Settings, now: Time, run: seq<Move>,
                                       w: Uuid)
    requires SettingsOk(s) && w in rows && rows[w].dueAt <= now && Possible(rows, active, s, now, run) &&
      Untouched(rows, s, run, w)
    ensures var rows' := After(rows, s, run);
      rows'[w].dueAt == rows[w].dueAt &&
        |Ahead(rows', active, w)| + Overtakes(rows, active, s, run, w) == |Ahead(rows, active, w)|
    decreases |run|
  {
    hide SettingsOk, Next, Ahead;
    if run != [] {
      MoveAhead(rows, active, s, run[0], w);
      WaitShrinks(Next(rows, s, run[0]), active, s, run[0].at, run[1..], w);
    }
  }

  // An event keeps its place until it is finished.
  lemma {:induction false} DueKept(rows: Schedule, s: Settings, run: seq<Move>, e: Uuid)
    requires e in rows && Untouched(rows, s, run, e)
    ensures After(rows, s, run)[e].dueAt == rows[e].dueAt
    decreases |run|
  {
    if run != [] {
      DueKept(Next(rows, s, run[0]), s, run[1..], e);
    }
  }

  // No starvation: when a claim passes over a waiting due event, every event of that claim that is
  // finished later, after any interleaving, leaves strictly fewer events ahead than the claim found.
  lemma FinishedClaimLowersWait(rows: Schedule, active: set<Uuid>, s: Settings, claim: Move, run: seq<Move>, w: Uuid,
                                e: Uuid, finish: Move)
    requires SettingsOk(s) && claim.Claim? && Can(rows, active, s, claim.at, claim)
    requires Candidate(rows, active, claim.at, claim.locked, w) && w !in claim.batch && e in claim.batch
    requires var rows1 := Next(rows, s, claim);
      Possible(rows1, active, s, claim.at, run) && Untouched(rows1, s, run, w) && Untouched(rows1, s, run, e)
    requires finish.Finish? && finish.event == e && (forall i :: 0 <= i < |run| ==> run[i].at <= finish.at) &&
      claim.at <= finish.at
    requires Holds(After(Next(rows, s, claim), s, run), e, finish.token)
    ensures var rows2 := After(Next(rows, s, claim), s, run);
      |Ahead(Next(rows2, s, finish), active, w)| < |Ahead(rows, active, w)|
  {
    hide SettingsOk, Delay;
    var rows1 := Next(rows, s, claim);
    var rows2 := After(rows1, s, run);
    ClaimTakesOlder(rows, active, claim.at, s.batch, claim.locked, claim.batch, w);
    MoveAhead(rows, active, s, claim, w);
    WaitShrinks(rows1, active, s, claim.at, run, w);
    DueKept(rows1, s, run, e);
    assert e in Ahead(rows2, active, w);
    MoveAhead(rows2, active, s, finish, w);
    assert Ahead(Next(rows2, s, finish), active, w) == Ahead(rows2, active, w) - {e};
  }

  // ---------- one batch ----------

  // What happened to one event of a batch: the snapshot failed or not, and the bookkeeping
  // transaction that follows committed at `at` or raised.
  datatype Trial = Trial(clock: Time, snapshotOk: bool, booked: bool, at: Time)

  function Handled(s: Settings, r: Row, t: Trial): Row {
    if !t.booked then r else if t.snapshotOk then DoneRow(r, t.at, s.interval) else DeferredRow(r, t.at, s.backoff)
  }

  class ReconciliationTable {
    var rows: Schedule

    constructor (rows: Schedule)
      ensures this.rows == rows
    {
      this.rows := rows;
    }

    // claim_due_events: lease the selected events and report how many leases had been abandoned.
    method ClaimDue(active: set<Uuid>, s: Settings, now: Time, locked: set<Uuid>, batch: seq<Uuid>,
                    token: Uuid) returns (recovered: nat)
      requires IsClaim(rows, active, now, s.batch, locked, batch)
      modifies this`rows
      ensures rows == Claimed(old(rows), batch, token, now, s.lease)
      ensures recovered == |set i | 0 <= i < |batch| && old(rows)[batch[i]].until.Some?|
    {
      recovered := 0;
      ghost var counted: set<int> := {};
      var i := 0;
      while i < |batch|
        invariant 0 <= i <= |batch|
        invariant counted == set j | 0 <= j < i && rows[batch[j]].until.Some?
        invariant recovered == |counted|
        invariant rows == old(rows)
      {
        if rows[batch[i]].until.Some? {
          recovered := recovered + 1;
          assert i !in counted;
          counted := counted + {i};
        }
        i := i + 1;
      }
      rows := Claimed(rows, batch, token, now, s.lease);
    }

    // complete_reconciliation: true exactly when the token still holds the event.
    method CompleteReconciliation(s: Settings, e: Uuid, token: Uuid, now: Time) returns (acknowledged: bool)
      modifies this`rows
      ensures acknowledged == Holds(old(rows), e, token)
      ensures rows == Finished(old(rows), s, e, token, now, true)
    {
      acknowledged := e in rows && rows[e].token == Some(token);
      if acknowledged {
        rows := rows[e := DoneRow(rows[e], now, s.interval)];
      }
    }

    method DeferReconciliation(s: Settings, e: Uuid, token: Uuid, now: Time)
      modifies this`rows
      ensures rows == Finished(old(rows), s, e, token, now, false)
    {
      if e in rows && rows[e].token == Some(token) {
        rows := rows[e := DeferredRow(rows[e], now, s.backoff)];
      }
    }

    // The loop of reconcile_batch over a claimed batch. Events before the deadline are processed, one
    // failure never stops the others, and from the deadline on every remaining lease is handed back. An
    // event that another worker claimed meanwhile, or that left the schedule, is not touched.
    method ReconcileClaimed(s: Settings, batch: seq<Uuid>, token: Uuid, deadline: Option<Time>,
                            trials: seq<Trial>) returns (processed: nat)
      requires |trials| == |batch|
      requires forall i, j :: 0 <= i < j < |batch| ==> batch[i] != batch[j]
      modifies this`rows
      ensures processed <= |batch| && rows.Keys == old(rows.Keys)
      ensures deadline.None? ==> processed == |batch|
      ensures deadline.Some? ==> forall i :: 0 <= i < processed ==> trials[i].clock < deadline.value
      ensures processed < |batch| ==> deadline.Some? && trials[processed].clock >= deadline.value
      ensures forall i :: 0 <= i < processed && batch[i] in rows ==>
        rows[batch[i]] ==
        if Holds(old(rows), batch[i], token) then Handled(s, old(rows)[batch[i]], trials[i]) else old(rows)[batch[i]]
      ensures forall i :: processed <= i < |batch| && batch[i] in rows ==>
        rows[batch[i]] == if Holds(old(rows), batch[i], token) then Freed(old(rows)[batch[i]]) else old(rows)[batch[i]]
      ensures forall e :: e in rows && e !in batch ==> rows[e] == old(rows)[e]
    {
      hide Delay;
      processed := 0;
      while processed < |batch|
        invariant 0 <= processed <= |batch| && rows.Keys == old(rows.Keys)
        invariant deadline.Some? ==> forall i :: 0 <= i < processed ==> trials[i].clock < deadline.value
        invariant forall i :: 0 <= i < processed && batch[i] in rows ==>
          rows[batch[i]] ==
          if Holds(old(rows), batch[i], token) then Handled(s, old(rows)[batch[i]], trials[i]) else old(rows)[batch[i]]
        invariant forall i :: processed <= i < |batch| && batch[i] in rows ==> rows[batch[i]] == old(rows)[batch[i]]
        invariant forall e :: e in rows && e !in batch ==> rows[e] == old(rows)[e]
      {
        if deadline.Some? && trials[processed].clock >= deadline.value {
          var rest := batch[processed..];
          assert forall i :: processed <= i < |batch| ==> batch[i] in rest;
          assert forall i :: 0 <= i < processed ==> batch[i] !in rest;
          rows := Returned(rows, rest, token);
          return;
        }
        var e, t := batch[processed], trials[processed];
        if t.booked {
          if t.snapshotOk {
            var acknowledged := CompleteReconciliation(s, e, token, t.at);
          } else {
            DeferReconciliation(s, e, token, t.at);
          }
        }
        processed := processed + 1;
      }
    }
  }
}
