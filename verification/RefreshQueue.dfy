// The refresh queue of one event with its history: which request asked for which seats, and when;
// which claim copied which part of the row, and when its worker read the database.
module RefreshQueue {
  import opened Domain
  import opened Transactions
  import opened Projection

  // A request and the moment it was recorded; request i raises the generation from i to i + 1.
  datatype Ask = Ask(seats: Option<set<SeatId>>, at: nat)
  // A worker's copy of the row, taken with the claim, and the moment of its last database read.
  datatype Copy = Copy(generation: nat, scope: Option<set<SeatId>>, claimedAt: nat, readAt: Option<nat>)

  // `tick` counts moves, so that moments can be compared.
  datatype Queue = Queue(rows: map<Uuid, RefreshRow>, asks: seq<Ask>, copies: map<Uuid, Copy>, tick: nat)

  datatype Move =
    | Request(seats: Option<set<SeatId>>, at: Time)
    | Claim(token: Uuid, at: Time)
    | Read(token: Uuid)
    | Acknowledge(token: Uuid, at: Time, cooldown: nat)

  predicate Can(e: Uuid, q: Queue, m: Move) {
    match m
    case Request(_, _) => true
    case Claim(token, at) => token !in q.copies && e in q.rows && Claimable(q.rows[e], at)
    case Read(token) => token in q.copies
    // Only a worker that finished its snapshot acknowledges.
    case Acknowledge(token, _, _) => token in q.copies && q.copies[token].readAt.Some?
  }

  predicate Matches(e: Uuid, q: Queue, token: Uuid) { e in q.rows && q.rows[e].leaseToken == Some(token) }

  function Next(e: Uuid, q: Queue, m: Move): Queue
    requires Can(e, q, m)
  {
    var q := q.(tick := q.tick + 1);
    match m
    case Request(seats, at) => q.(rows := RequestRefresh(q.rows, e, seats, at), asks := q.asks + [Ask(seats, q.tick)])
    case Claim(token, at) =>
      q.(rows := q.rows[e := LeaseRow(q.rows[e], token, at)],
         copies := q.copies[token := Copy(q.rows[e].generation, q.rows[e].seatIds, q.tick, None)])
    case Read(token) => q.(copies := q.copies[token := q.copies[token].(readAt := Some(q.tick))])
    case Acknowledge(token, at, cooldown) =>
      if Matches(e, q, token)
      then q.(rows := q.rows[e := AckRow(q.rows[e], q.copies[token].generation, at, cooldown)]) else q
  }

  // NULL asks for the whole event.
  predicate Includes(scope: Option<set<SeatId>>, seats: Option<set<SeatId>>) {
    scope.None? || (seats.Some? && seats.value <= scope.value)
  }

  // `scope` serves the requests that raised the generation from `from` to `upto`.
  ghost predicate Serves(asks: seq<Ask>, scope: Option<set<SeatId>>, from: nat, upto: nat) {
    forall i :: from <= i < upto && i < |asks| ==> Includes(scope, asks[i].seats)
  }

  ghost predicate CopyOk(asks: seq<Ask>, tick: nat, x: Copy) {
    && x.generation <= |asks| && x.claimedAt <= tick
    && (forall i :: 0 <= i < x.generation ==> asks[i].at < x.claimedAt)
    && (x.readAt.Some? ==> x.claimedAt < x.readAt.value)
  }

  ghost predicate QueueOk(e: Uuid, q: Queue) {
    && (e !in q.rows ==> q.asks == [] && q.copies == map[])
    && (forall i :: 0 <= i < |q.asks| ==> q.asks[i].at <= q.tick)
    && (forall k :: k in q.copies ==> CopyOk(q.asks, q.tick, q.copies[k]))
    && (e in q.rows ==>
          var r := q.rows[e];
          && r.generation == |q.asks| && r.completed <= r.generation
          && Serves(q.asks, r.seatIds, r.completed, r.generation)
          && (r.leaseToken.Some? ==>
                var k := r.leaseToken.value;
                && k in q.copies && r.completed <= q.copies[k].generation
                && Serves(q.asks, q.copies[k].scope, r.completed, q.copies[k].generation)))
  }

  lemma RequestOk(e: Uuid, q: Queue, seats: Option<set<SeatId>>, at: Time)
    requires QueueOk(e, q)
    ensures QueueOk(e, Next(e, q, Request(seats, at)))
  {
    var q' := Next(e, q, Request(seats, at));
    forall k | k in q'.copies
      ensures CopyOk(q'.asks, q'.tick, q'.copies[k])
    {
      assert CopyOk(q.asks, q.tick, q.copies[k]);
    }
    var r' := q'.rows[e];
    forall i | r'.completed <= i < r'.generation && i < |q'.asks|
      ensures Includes(r'.seatIds, q'.asks[i].seats)
    {
      assert e in q.rows && i < |q.asks| ==> Includes(q.rows[e].seatIds, q.asks[i].seats);
    }
  }

  lemma MoveOk(e: Uuid, q: Queue, m: Move)
    requires QueueOk(e, q) && Can(e, q, m)
    ensures QueueOk(e, Next(e, q, m))
  {
    if m.Request? {
      RequestOk(e, q, m.seats, m.at);
    } else {
      WorkerOk(e, q, m);
    }
  }

  lemma WorkerOk(e: Uuid, q: Queue, m: Move)
    requires QueueOk(e, q) && Can(e, q, m) && !m.Request?
    ensures QueueOk(e, Next(e, q, m))
  {
    var q' := Next(e, q, m);
    forall k | k in q'.copies
      ensures CopyOk(q'.asks, q'.tick, q'.copies[k])
    {
      assert k in q.copies ==> CopyOk(q.asks, q.tick, q.copies[k]);
    }
  }

  ghost predicate Possible(e: Uuid, q: Queue, run: seq<Move>)
    decreases |run|
  {
    run == [] || (Can(e, q, run[0]) && Possible(e, Next(e, q, run[0]), run[1..]))
  }

  ghost function After(e: Uuid, q: Queue, run: seq<Move>): Queue
    requires Possible(e, q, run)
    decreases |run|
  {
    if run == [] then q else After(e, Next(e, q, run[0]), run[1..])
  }

  lemma {:induction false} RunOk(e: Uuid, q: Queue, run: seq<Move>)
    requires QueueOk(e, q) && Possible(e, q, run)
    ensures QueueOk(e, After(e, q, run))
    decreases |run|
  {
    hide QueueOk, Next;
    if run != [] {
      MoveOk(e, q, run[0]);
      RunOk(e, Next(e, q, run[0]), run[1..]);
    }
  }

  const EMPTY := Queue(map[], [], map[], 0)

  // Over every run: the generation counts the requests, the completed generation never passes it, and
  // the stored seats cover every request that is not completed yet.
  lemma NothingIsLost(e: Uuid, run: seq<Move>)
    requires Possible(e, EMPTY, run)
    ensures var q := After(e, EMPTY, run);
      e in q.rows ==>
        && q.rows[e].generation == |q.asks| && q.rows[e].completed <= q.rows[e].generation
        && forall i :: q.rows[e].completed <= i < |q.asks| ==> Includes(q.rows[e].seatIds, q.asks[i].seats)
  {
    hide Possible, After;
    RunOk(e, EMPTY, run);
  }

  // An acknowledgement moves the completed generation only forward, and every request it completes was
  // covered by a copy taken, and a database read made, after the request was recorded.
  lemma CompletedAfterReading(e: Uuid, run: seq<Move>, token: Uuid, at: Time, cooldown: nat)
    requires Possible(e, EMPTY, run) && Can(e, After(e, EMPTY, run), Acknowledge(token, at, cooldown))
    ensures var q := After(e, EMPTY, run);
      var q', x := Next(e, q, Acknowledge(token, at, cooldown)), q.copies[token];
      && e in q.rows && e in q'.rows && q.rows[e].completed <= q'.rows[e].completed
      && q'.rows[e].completed <= |q.asks|
      && forall i :: q.rows[e].completed <= i < q'.rows[e].completed ==>
           Includes(x.scope, q.asks[i].seats) && q.asks[i].at < x.claimedAt < x.readAt.value
  {
    hide Possible, After;
    RunOk(e, EMPTY, run);
    var q := After(e, EMPTY, run);
    assert CopyOk(q.asks, q.tick, q.copies[token]);
  }

  // What a request does to the queue: a new event starts at generation 1; otherwise the generation grows by
  // one and the seats are replaced when nothing was open, and joined to the open ones when something was.
  lemma RequestExactly(rows: map<Uuid, RefreshRow>, e: Uuid, seats: Option<set<SeatId>>, at: Time)
    ensures var rows' := RequestRefresh(rows, e, seats, at);
      && e in rows' && (forall x :: x in rows' <==> x in rows || x == e)
      && (forall x :: x in rows && x != e ==> rows'[x] == rows[x])
      && (e !in rows ==> rows'[e] == RefreshRow(1, 0, seats, None, None, at))
      && (e in rows ==>
            && rows'[e] == rows[e].(generation := rows[e].generation + 1, seatIds := rows'[e].seatIds)
            && (rows[e].completed == rows[e].generation ==> rows'[e].seatIds == seats)
            && (rows[e].completed != rows[e].generation ==>
                  && (rows'[e].seatIds.None? <==> rows[e].seatIds.None? || seats.None?)
                  && (rows'[e].seatIds.Some? ==>
                        forall s :: s in rows'[e].seatIds.value <==> s in rows[e].seatIds.value || s in seats.value)))
  {
  }

  // A claimed row is nobody else's for 30 seconds, and an acknowledged one rests for the cool-down: it then
  // asks for exactly what was requested since the claim.
  lemma ClaimExactly(e: Uuid, q: Queue, token: Uuid, at: Time, cooldown: nat, later: Time)
    requires e in q.rows
    ensures Can(e, q, Claim(token, at)) ==>
      var row := Next(e, q, Claim(token, at)).rows[e];
      && row == q.rows[e].(leaseToken := Some(token), leaseUntil := row.leaseUntil)
      && (Claimable(row, later) <==> later > at + 30 && later >= row.nextAttemptAt)
    ensures Can(e, q, Acknowledge(token, at, cooldown)) && q.rows[e].leaseToken == Some(token) ==>
      var before, row := q.rows[e], Next(e, q, Acknowledge(token, at, cooldown)).rows[e];
      && row.generation == before.generation && row.completed == q.copies[token].generation
      && row.leaseToken.None? && row.leaseUntil.None?
      && (Claimable(row, later) <==> row.completed < row.generation && later >= at + cooldown)
      && (row.completed == row.generation ==> row.seatIds.None?)
      && (row.completed != row.generation ==> row.seatIds == before.seatIds)
  {
  }
}
