// Lease tokens on outbox, refresh, reconciliation and simulator rows: any number of workers claim,
// stall, lose their lease, are overtaken and acknowledge late. A claim may take any eligible rows, so
// the result does not depend on order, limits or skipped locks.
module Leases {
  import opened Domain

  // Outbox and simulator acknowledgements leave the token in place; the other two clear it.
  datatype Kind = Outbox | Simulator | Refresh | Reconciliation

  predicate Clears(kind: Kind) { kind.Refresh? || kind.Reconciliation? }

  // `done` counts completions (deliveries; 1 for a published event); refresh and reconciliation rows
  // have no target.
  datatype Row = Row(done: nat, target: Option<nat>, token: Option<Uuid>, until: Option<Time>)

  // A worker's rows still to be settled, and those it believes done outside.
  datatype Claim = Claim(open: set<Uuid>, confirmed: set<Uuid>)

  // Something really happened outside on behalf of a claim: the broker has the event, the webhook was
  // delivered, the snapshot was written.
  datatype Effect = Effect(token: Uuid, id: Uuid)

  // `history` lists the claims on each row, oldest first; `effective` those whose completion took effect.
  datatype Table = Table(
    kind: Kind, rows: map<Uuid, Row>, claims: map<Uuid, Claim>,
    history: map<Uuid, seq<Uuid>>, effective: map<Uuid, set<Uuid>>, outside: set<Effect>)

  // ---------- the loops of one publishing pass ----------

  // What one pass met: the clock before each send, whether the producer took the row, and whether the
  // row's future resolved without error.
  datatype Pass = Pass(ids: seq<Uuid>, clock: seq<Time>, deadline: Time, accepted: seq<bool>, delivered: seq<bool>)

  predicate PassOk(p: Pass) { |p.ids| == |p.clock| == |p.accepted| == |p.delivered| }

  // First loop: rows are sent until the deadline or the first error.
  function Pending(p: Pass, i: nat): (n: nat)
    requires PassOk(p) && i <= |p.ids|
    ensures i <= n <= |p.ids|
    decreases |p.ids| - i
  {
    if i == |p.ids| || p.clock[i] >= p.deadline || !p.accepted[i] then i else Pending(p, i + 1)
  }

  // Second loop: of the first `n` rows, those whose future resolved.
  function Collected(p: Pass, n: nat): seq<Uuid>
    requires PassOk(p) && n <= |p.ids|
  {
    if n == 0 then []
    else if p.delivered[n - 1] then Collected(p, n - 1) + [p.ids[n - 1]] else Collected(p, n - 1)
  }

  function Confirmed(p: Pass): seq<Uuid>
    requires PassOk(p)
  {
    Collected(p, Pending(p, 0))
  }

  // Row i was handed to the producer: nothing up to it hit the deadline or raised.
  predicate Sent(p: Pass, i: nat)
    requires PassOk(p) && i < |p.ids|
  {
    forall j :: 0 <= j <= i ==> p.clock[j] < p.deadline && p.accepted[j]
  }

  lemma {:induction false} PendingExactly(p: Pass, i: nat, k: nat)
    requires PassOk(p) && i <= |p.ids| && k < |p.ids|
    requires forall j :: 0 <= j < i ==> p.clock[j] < p.deadline && p.accepted[j]
    ensures k < Pending(p, i) <==> Sent(p, k)
    decreases |p.ids| - i
  {
    if i < |p.ids| && p.clock[i] < p.deadline && p.accepted[i] {
      PendingExactly(p, i + 1, k);
    }
  }

  lemma {:induction false} CollectedExactly(p: Pass, n: nat, x: Uuid)
    requires PassOk(p) && n <= |p.ids|
    ensures x in Collected(p, n) <==> exists i :: 0 <= i < n && p.ids[i] == x && p.delivered[i]
  {
    if n > 0 {
      CollectedExactly(p, n - 1, x);
    }
  }

  // The pass confirms exactly the rows that were sent and whose future resolved.
  lemma ConfirmedExactly(p: Pass, x: Uuid)
    requires PassOk(p)
    ensures x in Confirmed(p) <==> exists i :: 0 <= i < |p.ids| && p.ids[i] == x && p.delivered[i] && Sent(p, i)
  {
    CollectedExactly(p, Pending(p, 0), x);
    forall i | 0 <= i < |p.ids|
      ensures i < Pending(p, 0) <==> Sent(p, i)
    {
      PendingExactly(p, 0, i);
    }
  }

  // The two loops of publish_batch. The pass reports an error when anything it tried went wrong.
  method SendAll(p: Pass) returns (confirmed: seq<Uuid>, failed: bool)
    requires PassOk(p)
    ensures confirmed == Confirmed(p)
    ensures failed <==>
      || (exists i :: 0 <= i < |p.ids| && Sent(p, i) && !p.delivered[i])
      || (exists i :: 0 <= i < |p.ids| && (i > 0 ==> Sent(p, i - 1)) && p.clock[i] < p.deadline && !p.accepted[i])
  {
    var pending := 0;                  // rows 0 .. pending - 1 have futures
    failed := false;
    while pending < |p.ids|
      invariant 0 <= pending <= |p.ids| && !failed && Pending(p, 0) == Pending(p, pending)
      invariant forall j :: 0 <= j < pending ==> p.clock[j] < p.deadline && p.accepted[j]
    {
      if p.clock[pending] >= p.deadline {
        break;
      }
      if !p.accepted[pending] {
        failed := true;
        break;
      }
      pending := pending + 1;
    }
    ghost var raised := failed;
    assert forall i :: 0 <= i < |p.ids| ==> (Sent(p, i) <==> i < pending);
    assert raised ==> pending < |p.ids| && (pending > 0 ==> Sent(p, pending - 1)) && !p.accepted[pending];
    confirmed := [];
    var k := 0;
    while k < pending
      invariant 0 <= k <= pending && confirmed == Collected(p, k)
      invariant failed <==> raised || exists i :: 0 <= i < k && !p.delivered[i]
    {
      if p.delivered[k] {
        confirmed := confirmed + [p.ids[k]];
      } else {
        failed := true;
      }
      k := k + 1;
    }
  }

  // ---------- moves ----------

  datatype Move =
    | Insert(id: Uuid, target: Option<nat>)
    | Take(token: Uuid, ids: set<Uuid>, at: Time, lease: nat)
    | Happen(token: Uuid, id: Uuid)
    | Learn(token: Uuid, pass: Pass)       // a publisher leaves its loops
    | Confirm(token: Uuid, id: Uuid)       // a simulator, refresh or reconciliation call returned
    | Complete(token: Uuid, id: Uuid)
    | GiveBack(token: Uuid, id: Uuid)
    | Abandon(token: Uuid)

  predicate Unfinished(r: Row) { r.target.Some? ==> r.done < r.target.value }

  predicate Eligible(r: Row, now: Time) { Unfinished(r) && (r.until.None? || r.until.value < now) }

  predicate Working(t: Table, token: Uuid, id: Uuid) {
    token in t.claims && id in t.claims[token].open && id in t.rows
  }

  ghost predicate Can(t: Table, m: Move) {
    match m
    case Insert(id, target) =>
      && id !in t.rows && (t.kind.Outbox? ==> target == Some(1)) && (t.kind.Simulator? ==> target.Some?)
    case Take(token, ids, at, lease) =>
      && token !in t.claims && ids <= t.rows.Keys && forall id :: id in ids ==> Eligible(t.rows[id], at)
    case Happen(token, id) => Working(t, token, id)
    // A future resolves without error only for a row the broker has.
    case Learn(token, p) =>
      && t.kind.Outbox? && token in t.claims && PassOk(p)
      && forall i :: 0 <= i < |p.ids| && Sent(p, i) && p.delivered[i] ==> Effect(token, p.ids[i]) in t.outside
    case Confirm(token, id) => !t.kind.Outbox? && Working(t, token, id) && Effect(token, id) in t.outside
    // The worker acknowledges what its own loop collected.
    case Complete(token, id) => Working(t, token, id) && id in t.claims[token].confirmed
    case GiveBack(token, id) => Working(t, token, id) && t.kind.Reconciliation?
    case Abandon(token) => token in t.claims
  }

  function Settle(t: Table, token: Uuid, id: Uuid): Table
    requires Working(t, token, id)
  {
    t.(claims := t.claims[token := t.claims[token].(open := t.claims[token].open - {id})])
  }

  function Completed(kind: Kind, r: Row): Row {
    r.(done := if kind.Outbox? then 1 else r.done + 1, until := None, token := if Clears(kind) then None else r.token)
  }

  // The WHERE clause of every acknowledgement.
  predicate Holds(t: Table, token: Uuid, id: Uuid)
    requires id in t.rows
  {
    t.rows[id].token == Some(token)
  }

  function AfterTake(t: Table, token: Uuid, ids: set<Uuid>, at: Time, lease: nat): Table {
    t.(rows := map id | id in t.rows ::
         if id in ids then t.rows[id].(token := Some(token), until := Some(at + lease)) else t.rows[id],
       claims := t.claims[token := Claim(ids, {})],
       history := map id | id in t.history :: if id in ids then t.history[id] + [token] else t.history[id])
  }

  function AfterComplete(t: Table, token: Uuid, id: Uuid): Table
    requires Working(t, token, id)
  {
    var s := Settle(t, token, id);
    if !Holds(t, token, id) then s
    else s.(rows := t.rows[id := Completed(t.kind, t.rows[id])],
            effective := if id in t.effective then t.effective[id := t.effective[id] + {token}] else t.effective)
  }

  function AfterGiveBack(t: Table, token: Uuid, id: Uuid): Table
    requires Working(t, token, id)
  {
    var s := Settle(t, token, id);
    if Holds(t, token, id) then s.(rows := t.rows[id := t.rows[id].(token := None, until := None)]) else s
  }

  function AfterInsert(t: Table, id: Uuid, target: Option<nat>): Table {
    t.(rows := t.rows[id := Row(0, target, None, None)], history := t.history[id := []],
       effective := t.effective[id := {}])
  }

  function AfterConfirm(t: Table, token: Uuid, id: Uuid): Table
    requires token in t.claims
  {
    t.(claims := t.claims[token := t.claims[token].(confirmed := t.claims[token].confirmed + {id})])
  }

  function AfterLearn(t: Table, token: Uuid, p: Pass): Table
    requires token in t.claims && PassOk(p)
  {
    var c := t.claims[token];
    t.(claims := t.claims[token := c.(confirmed := c.confirmed + set x | x in Confirmed(p))])
  }

  function AfterAbandon(t: Table, token: Uuid): Table
    requires token in t.claims
  {
    t.(claims := t.claims[token := t.claims[token].(open := {})])
  }

  function Next(t: Table, m: Move): Table
    requires Can(t, m)
  {
    match m
    case Insert(id, target) => AfterInsert(t, id, target)
    case Take(token, ids, at, lease) => AfterTake(t, token, ids, at, lease)
    case Happen(token, id) => t.(outside := t.outside + {Effect(token, id)})
    case Learn(token, p) => AfterLearn(t, token, p)
    case Confirm(token, id) => AfterConfirm(t, token, id)
    case Complete(token, id) => AfterComplete(t, token, id)
    case GiveBack(token, id) => AfterGiveBack(t, token, id)
    case Abandon(token) => AfterAbandon(t, token)
  }

  // ---------- the invariant, row by row ----------

  predicate Latest(t: Table, token: Uuid, id: Uuid) {
    id in t.history && t.history[id] != [] && t.history[id][|t.history[id]| - 1] == token
  }

  ghost predicate TokensOk(t: Table, id: Uuid) {
    && id in t.rows && id in t.history && id in t.effective
    && (forall i :: 0 <= i < |t.history[id]| ==> t.history[id][i] in t.claims)
    && (forall i, j :: 0 <= i < j < |t.history[id]| ==> t.history[id][i] != t.history[id][j])
    && (t.rows[id].token.Some? ==> Latest(t, t.rows[id].token.value, id))
    && (forall k :: k in t.claims && id in t.claims[k].open ==> k in t.history[id])
  }

  ghost predicate CountsOk(t: Table, id: Uuid) {
    && id in t.rows && id in t.history && id in t.effective
    && t.rows[id].done == |t.effective[id]|
    && (t.rows[id].target.Some? ==> t.rows[id].done <= t.rows[id].target.value)
    && (t.kind.Outbox? ==> t.rows[id].target == Some(1))
    && (t.kind.Simulator? ==> t.rows[id].target.Some?)
    && (forall k :: k in t.effective[id] ==>
          k in t.history[id] && k in t.claims && id !in t.claims[k].open && id in t.claims[k].confirmed)
    && (t.rows[id].token.Some? ==>
          var k := t.rows[id].token.value; k in t.claims && (id in t.claims[k].open ==> Unfinished(t.rows[id])))
  }

  // What a worker believes done was done.
  ghost predicate Truthful(claims: map<Uuid, Claim>, outside: set<Effect>) {
    forall k, id :: k in claims && id in claims[k].confirmed ==> Effect(k, id) in outside
  }

  ghost predicate TableOk(t: Table) {
    && Truthful(t.claims, t.outside)
    && t.history.Keys == t.rows.Keys && t.effective.Keys == t.rows.Keys
    && (forall id :: id in t.rows ==> TokensOk(t, id) && CountsOk(t, id))
    && (forall k, id :: k in t.claims && id in t.claims[k].open ==> id in t.rows)
  }

  lemma TakeOk(t: Table, token: Uuid, ids: set<Uuid>, at: Time, lease: nat)
    requires TableOk(t) && Can(t, Take(token, ids, at, lease))
    ensures TableOk(AfterTake(t, token, ids, at, lease))
  {
    hide TokensOk, CountsOk, Eligible;
    var t' := AfterTake(t, token, ids, at, lease);
    forall id | id in t'.rows
      ensures TokensOk(t', id) && CountsOk(t', id)
    {
      assert TokensOk(t, id) && CountsOk(t, id);
      TakeRow(t, token, ids, at, lease, id);
    }
  }

  lemma TakeRow(t: Table, token: Uuid, ids: set<Uuid>, at: Time, lease: nat, id: Uuid)
    requires TokensOk(t, id) && CountsOk(t, id) && token !in t.claims && (id in ids ==> Eligible(t.rows[id], at))
    ensures TokensOk(AfterTake(t, token, ids, at, lease), id) && CountsOk(AfterTake(t, token, ids, at, lease), id)
  {
    var t' := AfterTake(t, token, ids, at, lease);
    if id in ids {
      assert t'.history[id][|t'.history[id]| - 1] == token;
    }
    forall k | k in t'.claims && id in t'.claims[k].open
      ensures k in t'.history[id]
    {
      assert k != token ==> k in t.history[id];
    }
  }

  // The acknowledged row and the other rows of the same claim.
  lemma CompleteTokens(t: Table, token: Uuid, id: Uuid, x: Uuid)
    requires Working(t, token, id) && TokensOk(t, x)
    ensures TokensOk(AfterComplete(t, token, id), x)
  {
  }

  lemma CompleteCounts(t: Table, token: Uuid, id: Uuid, x: Uuid)
    requires Working(t, token, id) && id in t.claims[token].confirmed && CountsOk(t, x) &&
      (x == id ==> token in t.history[x])
    ensures CountsOk(AfterComplete(t, token, id), x)
  {
    var t' := AfterComplete(t, token, id);
    if x == id && Holds(t, token, id) {
      assert token !in t.effective[id];
      assert t'.effective[id] == t.effective[id] + {token};
    }
  }

  lemma CompleteRow(t: Table, token: Uuid, id: Uuid, x: Uuid)
    requires Working(t, token, id) && id in t.claims[token].confirmed && TokensOk(t, x) && CountsOk(t, x)
    ensures TokensOk(AfterComplete(t, token, id), x) && CountsOk(AfterComplete(t, token, id), x)
  {
    assert x == id ==> token in t.history[x];
    hide TokensOk, CountsOk, AfterComplete;
    CompleteTokens(t, token, id, x);
    CompleteCounts(t, token, id, x);
  }

  lemma GiveBackRow(t: Table, token: Uuid, id: Uuid, x: Uuid)
    requires Working(t, token, id) && TokensOk(t, x) && CountsOk(t, x)
    ensures TokensOk(AfterGiveBack(t, token, id), x) && CountsOk(AfterGiveBack(t, token, id), x)
  {
  }

  lemma CompleteOk(t: Table, token: Uuid, id: Uuid)
    requires TableOk(t) && Working(t, token, id) && id in t.claims[token].confirmed
    ensures TableOk(AfterComplete(t, token, id))
  {
    hide TokensOk, CountsOk, Completed;
    var t' := AfterComplete(t, token, id);
    forall x | x in t'.rows
      ensures TokensOk(t', x) && CountsOk(t', x)
    {
      CompleteRow(t, token, id, x);
    }
  }

  lemma GiveBackOk(t: Table, token: Uuid, id: Uuid)
    requires TableOk(t) && Working(t, token, id)
    ensures TableOk(AfterGiveBack(t, token, id))
  {
    hide TokensOk, CountsOk;
    var t' := AfterGiveBack(t, token, id);
    forall x | x in t'.rows
      ensures TokensOk(t', x) && CountsOk(t', x)
    {
      GiveBackRow(t, token, id, x);
    }
  }

  lemma InsertRow(t: Table, id: Uuid, target: Option<nat>, x: Uuid)
    requires Can(t, Insert(id, target))
    requires x == id || (TokensOk(t, x) && CountsOk(t, x))
    requires forall k :: k in t.claims && id in t.claims[k].open ==> id in t.rows
    ensures TokensOk(AfterInsert(t, id, target), x) && CountsOk(AfterInsert(t, id, target), x)
  {
  }

  lemma InsertOk(t: Table, id: Uuid, target: Option<nat>)
    requires TableOk(t) && Can(t, Insert(id, target))
    ensures TableOk(AfterInsert(t, id, target))
  {
    hide TokensOk, CountsOk;
    var t' := AfterInsert(t, id, target);
    forall x | x in t'.rows
      ensures TokensOk(t', x) && CountsOk(t', x)
    {
      InsertRow(t, id, target, x);
    }
  }

  // A claim that gives up rows or believes more rows done.
  lemma BelieveRow(t: Table, token: Uuid, c: Claim, x: Uuid)
    requires token in t.claims && TokensOk(t, x) && CountsOk(t, x)
    requires c.open <= t.claims[token].open && t.claims[token].confirmed <= c.confirmed
    ensures var t' := t.(claims := t.claims[token := c]); TokensOk(t', x) && CountsOk(t', x)
  {
  }

  lemma BelieveOk(t: Table, token: Uuid, c: Claim)
    requires TableOk(t) && token in t.claims
    requires c.open <= t.claims[token].open && t.claims[token].confirmed <= c.confirmed
    requires forall id :: id in c.confirmed ==> Effect(token, id) in t.outside
    ensures TableOk(t.(claims := t.claims[token := c]))
  {
    hide TokensOk, CountsOk;
    var t' := t.(claims := t.claims[token := c]);
    forall x | x in t'.rows
      ensures TokensOk(t', x) && CountsOk(t', x)
    {
      BelieveRow(t, token, c, x);
    }
  }

  // What the loops of a publishing pass collected is what the broker has.
  lemma LearnOk(t: Table, token: Uuid, p: Pass)
    requires TableOk(t) && Can(t, Learn(token, p))
    ensures TableOk(AfterLearn(t, token, p))
  {
    hide TokensOk, CountsOk, Confirmed, Sent;
    forall x | x in Confirmed(p)
      ensures Effect(token, x) in t.outside
    {
      ConfirmedExactly(p, x);
    }
    BelieveOk(t, token, t.claims[token].(confirmed := t.claims[token].confirmed + set x | x in Confirmed(p)));
  }

  lemma HappenOk(t: Table, e: Effect)
    requires TableOk(t)
    ensures TableOk(t.(outside := t.outside + {e}))
  {
    var t' := t.(outside := t.outside + {e});
    forall x | x in t'.rows
      ensures TokensOk(t', x) && CountsOk(t', x)
    {
      assert TokensOk(t, x) && CountsOk(t, x);
    }
  }

  lemma Truth(t: Table)
    requires TableOk(t)
    ensures Truthful(t.claims, t.outside)
  {
  }

  lemma MoveOk(t: Table, m: Move)
    requires TableOk(t) && Can(t, m)
    ensures TableOk(Next(t, m))
  {
    hide TableOk, AfterTake, AfterComplete, AfterGiveBack, AfterInsert, AfterLearn, Confirmed, Sent;
    match m {
      case Insert(id, target) => InsertOk(t, id, target);
      case Take(token, ids, at, lease) => TakeOk(t, token, ids, at, lease);
      case Happen(token, id) => HappenOk(t, Effect(token, id));
      case Learn(token, p) => LearnOk(t, token, p);
      case Confirm(token, id) =>
        Truth(t);
        BelieveOk(t, token, t.claims[token].(confirmed := t.claims[token].confirmed + {id}));
      case Complete(token, id) => CompleteOk(t, token, id);
      case GiveBack(token, id) => GiveBackOk(t, token, id);
      case Abandon(token) =>
        Truth(t);
        BelieveOk(t, token, t.claims[token].(open := {}));
    }
  }

  // ---------- whole runs ----------

  ghost predicate Possible(t: Table, run: seq<Move>)
    decreases |run|
  {
    run == [] || (Can(t, run[0]) && Possible(Next(t, run[0]), run[1..]))
  }

  ghost function After(t: Table, run: seq<Move>): Table
    requires Possible(t, run)
    decreases |run|
  {
    if run == [] then t else After(Next(t, run[0]), run[1..])
  }

  lemma {:induction false} RunOk(t: Table, run: seq<Move>)
    requires TableOk(t) && Possible(t, run)
    ensures TableOk(After(t, run))
    decreases |run|
  {
    hide TableOk, Can, Next;
    if run != [] {
      MoveOk(t, run[0]);
      RunOk(Next(t, run[0]), run[1..]);
    }
  }

  function NoRows(kind: Kind): Table { Table(kind, map[], map[], map[], map[], {}) }

  // An acknowledgement takes effect only if its claim is the latest on the row, only once per claim,
  // and only while the row is unfinished; a stale one changes no row.
  lemma AckIsFenced(kind: Kind, run: seq<Move>, token: Uuid, id: Uuid)
    requires Possible(NoRows(kind), run) && Can(After(NoRows(kind), run), Complete(token, id))
    ensures var t := After(NoRows(kind), run); var t' := AfterComplete(t, token, id);
      && id in t.effective && id in t'.effective && id in t'.rows
      && (t'.rows != t.rows || t'.effective != t.effective ==>
            && Latest(t, token, id) && token !in t.effective[id] && Unfinished(t.rows[id])
            && t'.rows[id] == Row(t.rows[id].done + 1, t.rows[id].target, t'.rows[id].token, None)
            && t'.effective[id] == t.effective[id] + {token})
      && (Latest(t, token, id) && t.rows[id].token.Some? ==> t'.rows[id].done == t.rows[id].done + 1)
      && (!Latest(t, token, id) ==> t'.rows == t.rows && t'.effective == t.effective)
      && (forall other :: other in t.rows && other != id ==> other in t'.rows && t'.rows[other] == t.rows[other])
  {
    hide Possible, After, TokensOk, CountsOk, AfterComplete;
    RunOk(NoRows(kind), run);
    var t := After(NoRows(kind), run);
    CompletionIsFenced(t, token, id);
  }

  lemma CompletionIsFenced(t: Table, token: Uuid, id: Uuid)
    requires Working(t, token, id) && TokensOk(t, id) && CountsOk(t, id)
    ensures var t' := AfterComplete(t, token, id);
      && id in t.effective && id in t'.effective && id in t'.rows
      && (t'.rows != t.rows || t'.effective != t.effective ==>
            && Latest(t, token, id) && token !in t.effective[id] && Unfinished(t.rows[id])
            && t'.rows[id] == Row(t.rows[id].done + 1, t.rows[id].target, t'.rows[id].token, None)
            && t'.effective[id] == t.effective[id] + {token})
      && (Latest(t, token, id) && t.rows[id].token.Some? ==> t'.rows[id].done == t.rows[id].done + 1)
      && (!Latest(t, token, id) ==> t'.rows == t.rows && t'.effective == t.effective)
      && (forall other :: other in t.rows && other != id ==> other in t'.rows && t'.rows[other] == t.rows[other])
  {
  }

  // Completions never exceed the target, each comes from a different claim, and behind each the outside
  // effect really happened; so an event is published at most once and only if the broker has it.
  lemma CompletionsAreConfirmed(kind: Kind, run: seq<Move>, id: Uuid)
    requires Possible(NoRows(kind), run) && id in After(NoRows(kind), run).rows
    ensures var t := After(NoRows(kind), run); var r := t.rows[id];
      && id in t.effective && r.done == |t.effective[id]|
      && (r.target.Some? ==> r.done <= r.target.value)
      && (kind.Outbox? ==> r.done <= 1)
      && (forall k :: k in t.effective[id] ==> Effect(k, id) in t.outside && id in t.history && k in t.history[id])
  {
    hide Possible, After;
    RunOk(NoRows(kind), run);
    KindKept(NoRows(kind), run);
    var t := After(NoRows(kind), run);
    assert TokensOk(t, id) && CountsOk(t, id);
  }

  lemma {:induction false} KindKept(t: Table, run: seq<Move>)
    requires Possible(t, run)
    ensures After(t, run).kind == t.kind
    decreases |run|
  {
    if run != [] {
      KindKept(Next(t, run[0]), run[1..]);
    }
  }

  // ---------- a lease keeps others out ----------

  // The row is settled by the claim that holds it.
  predicate Settles(t: Table, m: Move, id: Uuid) {
    (m.Complete? || m.GiveBack?) && m.id == id && id in t.rows && t.rows[id].token == Some(m.token)
  }

  predicate Takes(m: Move, id: Uuid) { m.Take? && id in m.ids }

  // No move of the run settles the row, and none comes after `until`.
  ghost predicate StillHeld(t: Table, run: seq<Move>, id: Uuid, until: Time)
    decreases |run|
  {
    run == [] ||
    (Can(t, run[0]) && !Settles(t, run[0], id) && (run[0].Take? ==> run[0].at <= until) &&
     StillHeld(Next(t, run[0]), run[1..], id, until))
  }

  lemma TakeLeases(t: Table, token: Uuid, ids: set<Uuid>, at: Time, lease: nat, id: Uuid)
    requires id in t.rows
    ensures var t' := AfterTake(t, token, ids, at, lease);
      && id in t'.rows && t'.rows[id].done == t.rows[id].done && t'.rows[id].target == t.rows[id].target
      && (id !in ids ==> t'.rows[id] == t.rows[id])
      && (id in ids ==> t'.rows[id].token == Some(token) && t'.rows[id].until == Some(at + lease))
  {
  }

  lemma LeaseKept(t: Table, m: Move, id: Uuid, until: Time)
    requires Can(t, m) && id in t.rows && t.rows[id].until == Some(until) && !Settles(t, m, id) &&
      (m.Take? ==> m.at <= until)
    ensures !Takes(m, id) && id in Next(t, m).rows && Next(t, m).rows[id].until == Some(until)
  {
  }

  // From the claim of a row until its lease is over or the claim settles it, nobody else claims it.
  lemma {:induction false} LeaseExcludes(t: Table, run: seq<Move>, id: Uuid, until: Time)
    requires id in t.rows && t.rows[id].until == Some(until) && StillHeld(t, run, id, until)
    ensures forall i :: 0 <= i < |run| ==> !Takes(run[i], id)
    decreases |run|
  {
    hide Can, Next;
    if run != [] {
      LeaseKept(t, run[0], id, until);
      LeaseExcludes(Next(t, run[0]), run[1..], id, until);
      assert forall i :: 1 <= i < |run| ==> run[i] == run[1..][i - 1];
    }
  }
}
