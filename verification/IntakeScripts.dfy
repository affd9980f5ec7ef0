// Redis-first intake of one event: the atomic scripts ENQUEUE, MARK_DURABLE and MARK_FAILED as
// functions of the event's hash slot, and what each of them means seat by seat.
module IntakeScripts {
  import opened Domain
  import opened Sums
  import opened SeatMaps
  import opened Transactions

  // `expiresEpoch` is taken from the Redis clock, `expiresAt` from the clock of the API process.
  datatype Reply = Reply(
    commandId: Uuid, holdId: Uuid, orderId: Uuid, seats: seq<SeatId>,
    total: nat, currency: string, expiresEpoch: Time, expiresAt: Time)
  datatype Progress = PENDING | DURABLE | FAILED
  datatype CommandHash = CommandHash(status: Progress, error: Option<Failure>, response: Reply, payload: Command)
  datatype ClientKey = ClientKey(actor: Actor, key: string)
  datatype ClientRecord = ClientRecord(requestHash: Request, response: Reply)
  datatype Message = Message(payload: Command, response: Reply)

  datatype Slot = Slot(
    seatMap: SeatMap, idem: map<ClientKey, ClientRecord>, commands: map<Uuid, CommandHash>,
    expiry: map<Uuid, Time>, stream: map<nat, Message>, nextId: nat)

  // One call of `enqueue`: the seats sorted and without repetition, and three new uuids.
  datatype Demand = Demand(
    actor: Actor, key: string, event: Uuid, seats: seq<SeatId>,
    commandId: Uuid, holdId: Uuid, orderId: Uuid, expiresAt: Time, holdSeconds: nat)

  datatype Refusal = SEATMAP_WARMING | SALE_CLOSED | KEY_MISMATCH | BACKLOG_FULL | SEAT_NOT_FOUND | SEAT_UNAVAILABLE
  datatype Outcome = Accepted(reply: Reply) | Replayed(reply: Reply) | Rejected(why: Refusal)

  function SeatSet(seats: seq<SeatId>): set<SeatId> { set s | s in seats }

  function CommandOf(d: Demand): Command {
    var wanted := SeatSet(d.seats);
    Command(d.commandId, d.actor, d.key, HoldRequest(d.event, wanted), d.event, wanted, d.holdId, d.orderId,
      d.expiresAt)
  }

  // ---------- ENQUEUE ----------

  function Epoch(x: SeatState): Time { if x.reservedUntil.Some? then x.reservedUntil.value else 0 }

  predicate Takeable(x: SeatState, now: Time) {
    !x.status.SOLD? && (x.status.HELD? ==> Epoch(x) <= now)
  }

  // The first seat that cannot be taken decides the refusal.
  function Scan(seats: map<SeatId, Cached>, wanted: seq<SeatId>, now: Time): Option<Refusal> {
    if wanted == [] then None
    else if wanted[0] !in seats then Some(SEAT_NOT_FOUND)
    else if !Takeable(seats[wanted[0]].state, now) then Some(SEAT_UNAVAILABLE)
    else Scan(seats, wanted[1..], now)
  }

  function Total(seats: map<SeatId, Cached>, wanted: seq<SeatId>): nat {
    if wanted == [] then 0
    else (if wanted[0] in seats then seats[wanted[0]].state.price else 0) + Total(seats, wanted[1..])
  }

  function Taken(x: SeatState, hold: Uuid, until: Time): SeatState {
    x.(status := HELD, holdId := Some(hold), reservedUntil := Some(until))
  }

  // Seats are written in order, each under the next version.
  function Occupied(seats: map<SeatId, Cached>, version: nat, wanted: seq<SeatId>, hold: Uuid,
                    until: Time): map<SeatId, Cached> {
    if wanted == [] then seats
    else
      var front, s := wanted[..|wanted| - 1], wanted[|wanted| - 1];
      var before := Occupied(seats, version, front, hold, until);
      if s in seats then before[s := Cached(Taken(seats[s].state, hold, until), version + |wanted|)] else before
  }

  predicate Closed(sale: Sale, now: Time) { now < sale.starts || now >= sale.ends }

  function Check(r: Slot, d: Demand, backlog: nat, now: Time): Option<Refusal> {
    var m := r.seatMap;
    var ck := ClientKey(d.actor, d.key);
    if m.version.None? || m.updating || m.sale.None? then Some(SEATMAP_WARMING)
    else if Closed(m.sale.value, now) then Some(SALE_CLOSED)
    else if ck in r.idem then
      if r.idem[ck].requestHash != CommandOf(d).requestHash then Some(KEY_MISMATCH) else None
    else if |r.stream| >= backlog then Some(BACKLOG_FULL)
    else Scan(m.seats, d.seats, now)
  }

  function ReplyTo(r: Slot, d: Demand, now: Time): Reply {
    Reply(d.commandId, d.holdId, d.orderId, d.seats, Total(r.seatMap.seats, d.seats),
          if r.seatMap.sale.Some? then r.seatMap.sale.value.currency else "", now + d.holdSeconds, d.expiresAt)
  }

  // The writes of an accepted command.
  function Admit(r: Slot, d: Demand, now: Time): Slot {
    var m := r.seatMap;
    var v := if m.version.Some? then m.version.value else 0;
    var reply := ReplyTo(r, d, now);
    var c := CommandOf(d);
    Slot(
      m.(seats := Occupied(m.seats, v, d.seats, d.holdId, now + d.holdSeconds), version := Some(v + |d.seats|)),
      r.idem[ClientKey(d.actor, d.key) := ClientRecord(c.requestHash, reply)],
      r.commands[d.commandId := CommandHash(PENDING, None, reply, c)],
      r.expiry[d.commandId := now + d.holdSeconds],
      r.stream[r.nextId := Message(c, reply)],
      r.nextId + 1)
  }

  function Enqueue(r: Slot, d: Demand, backlog: nat, now: Time): (Slot, Outcome) {
    var refusal := Check(r, d, backlog, now);
    var ck := ClientKey(d.actor, d.key);
    if refusal.Some? then (r, Rejected(refusal.value))
    else if ck in r.idem then (r, Replayed(r.idem[ck].response))
    else (Admit(r, d, now), Accepted(ReplyTo(r, d, now)))
  }

  lemma {:induction false} ScanExactly(seats: map<SeatId, Cached>, wanted: seq<SeatId>, now: Time)
    ensures Scan(seats, wanted, now).None? <==>
      (forall s :: s in wanted ==> s in seats && Takeable(seats[s].state, now))
  {
    if wanted != [] {
      ScanExactly(seats, wanted[1..], now);
      assert forall s :: s in wanted <==> s == wanted[0] || s in wanted[1..];
    }
  }

  // A command is accepted exactly when the map is whole, the sale is open, the key is unused, the
  // stream has room and every seat can be taken; any other answer writes nothing at all.
  lemma EnqueueExactly(r: Slot, d: Demand, backlog: nat, now: Time)
    ensures var (r', out) := Enqueue(r, d, backlog, now); var m := r.seatMap;
      && (out.Accepted? <==>
            && m.version.Some? && !m.updating && m.sale.Some? && m.sale.value.starts <= now < m.sale.value.ends
            && ClientKey(d.actor, d.key) !in r.idem && |r.stream| < backlog
            && forall s :: s in d.seats ==> s in m.seats && Takeable(m.seats[s].state, now))
      && (!out.Accepted? ==> r' == r)
  {
    ScanExactly(r.seatMap.seats, d.seats, now);
  }

  // Which answer a request gets when it is not accepted: the first condition that holds decides.
  lemma RefusalExactly(r: Slot, d: Demand, backlog: nat, now: Time)
    ensures var out := Enqueue(r, d, backlog, now).1; var m := r.seatMap; var ck := ClientKey(d.actor, d.key);
      var whole := m.version.Some? && !m.updating && m.sale.Some?;
      var open := whole && m.sale.value.starts <= now < m.sale.value.ends;
      var same := ck in r.idem && r.idem[ck].requestHash == HoldRequest(d.event, set s | s in d.seats);
      && (out == Rejected(SEATMAP_WARMING) <==> !whole)
      && (out == Rejected(SALE_CLOSED) <==> whole && !open)
      && (out == Rejected(KEY_MISMATCH) <==> open && ck in r.idem && !same)
      && (out.Replayed? <==> open && same)
      && (out.Replayed? ==> out.reply == r.idem[ck].response)
      && (out == Rejected(BACKLOG_FULL) <==> open && ck !in r.idem && |r.stream| >= backlog)
      && (out == Rejected(SEAT_NOT_FOUND) <==>
            && open && ck !in r.idem && |r.stream| < backlog
            && exists i :: FirstBad(m.seats, d.seats, now, i) && d.seats[i] !in m.seats)
      && (out == Rejected(SEAT_UNAVAILABLE) <==>
            && open && ck !in r.idem && |r.stream| < backlog
            && exists i :: FirstBad(m.seats, d.seats, now, i) && d.seats[i] in m.seats)
  {
    ScanFindsFirst(r.seatMap.seats, d.seats, now);
  }

  // The first wanted seat that is missing, sold, or held beyond now.
  predicate FirstBad(seats: map<SeatId, Cached>, wanted: seq<SeatId>, now: Time, i: int) {
    && 0 <= i < |wanted| && !(wanted[i] in seats && Takeable(seats[wanted[i]].state, now))
    && forall j :: 0 <= j < i ==> wanted[j] in seats && Takeable(seats[wanted[j]].state, now)
  }

  lemma {:induction false} ScanFindsFirst(seats: map<SeatId, Cached>, wanted: seq<SeatId>, now: Time)
    ensures Scan(seats, wanted, now) in {None, Some(SEAT_NOT_FOUND), Some(SEAT_UNAVAILABLE)}
    ensures Scan(seats, wanted, now) == Some(SEAT_NOT_FOUND) <==>
      exists i :: FirstBad(seats, wanted, now, i) && wanted[i] !in seats
    ensures Scan(seats, wanted, now) == Some(SEAT_UNAVAILABLE) <==>
      exists i :: FirstBad(seats, wanted, now, i) && wanted[i] in seats
  {
    if wanted != [] {
      if wanted[0] in seats && Takeable(seats[wanted[0]].state, now) {
        ScanFindsFirst(seats, wanted[1..], now);
        forall i
          ensures FirstBad(seats, wanted, now, i) <==> FirstBad(seats, wanted[1..], now, i - 1)
        {
          FirstBadShifts(seats, wanted, now, i);
        }
        if exists i :: FirstBad(seats, wanted[1..], now, i) {
          var i :| FirstBad(seats, wanted[1..], now, i);
          assert FirstBad(seats, wanted, now, i + 1) && wanted[i + 1] == wanted[1..][i];
        }
      } else {
        assert FirstBad(seats, wanted, now, 0);
        assert forall i :: FirstBad(seats, wanted, now, i) ==> i == 0;
      }
    }
  }

  lemma FirstBadShifts(seats: map<SeatId, Cached>, wanted: seq<SeatId>, now: Time, i: int)
    requires wanted != [] && wanted[0] in seats && Takeable(seats[wanted[0]].state, now)
    ensures FirstBad(seats, wanted, now, i) <==> FirstBad(seats, wanted[1..], now, i - 1)
  {
    assert forall j :: 0 <= j < |wanted| - 1 ==> wanted[1..][j] == wanted[j + 1];
    if FirstBad(seats, wanted[1..], now, i - 1) {
      assert forall j :: 0 < j < i ==> wanted[j] == wanted[1..][j - 1];
    }
  }

  function PriceMap(seats: map<SeatId, Cached>, wanted: seq<SeatId>): map<SeatId, nat> {
    map s | s in wanted && s in seats :: seats[s].state.price
  }

  lemma {:induction false} TotalIsSum(seats: map<SeatId, Cached>, wanted: seq<SeatId>)
    requires forall i, j :: 0 <= i < j < |wanted| ==> wanted[i] != wanted[j]
    requires forall s :: s in wanted ==> s in seats
    ensures Total(seats, wanted) == MapSum(PriceMap(seats, wanted))
  {
    hide MapSum;
    if wanted == [] {
      SumEmpty(PriceMap(seats, wanted));
    } else {
      var s, rest := wanted[0], wanted[1..];
      assert s !in rest && forall x :: x in wanted <==> x == s || x in rest;
      TotalIsSum(seats, rest);
      assert PriceMap(seats, wanted) == PriceMap(seats, rest)[s := seats[s].state.price];
      SumAdd(PriceMap(seats, rest), s, seats[s].state.price);
    }
  }

  // What an accepted command is, everywhere it is written: the answer, the command hash and the stream
  // message carry the demand's own ids, actor, key, seats and expiry; the currency is the sale's and the
  // total the sum of the seats' prices in the map.
  lemma AdmissionExactly(r: Slot, d: Demand, backlog: nat, now: Time)
    requires Enqueue(r, d, backlog, now).1.Accepted?
    requires forall i, j :: 0 <= i < j < |d.seats| ==> d.seats[i] != d.seats[j]
    ensures var (r', out) := Enqueue(r, d, backlog, now); var until := now + d.holdSeconds;
      var wanted := set s | s in d.seats; var request := HoldRequest(d.event, wanted);
      var payload := Command(d.commandId, d.actor, d.key, request, d.event, wanted, d.holdId, d.orderId, d.expiresAt);
      && r.seatMap.sale.Some? && r.seatMap.version.Some?
      && out.reply == Reply(d.commandId, d.holdId, d.orderId, d.seats, MapSum(PriceMap(r.seatMap.seats, d.seats)),
                            r.seatMap.sale.value.currency, until, d.expiresAt)
      && r'.commands == r.commands[d.commandId := CommandHash(PENDING, None, out.reply, payload)]
      && r'.stream == r.stream[r.nextId := Message(payload, out.reply)] && r'.nextId == r.nextId + 1
      && r'.expiry == r.expiry[d.commandId := until]
      && r'.idem == r.idem[ClientKey(d.actor, d.key) := ClientRecord(request, out.reply)]
      && r'.seatMap == r.seatMap.(seats := r'.seatMap.seats, version := Some(r.seatMap.version.value + |d.seats|))
  {
    hide Occupied, Scan, MapSum, Takeable;
    EnqueueExactly(r, d, backlog, now);
    TotalIsSum(r.seatMap.seats, d.seats);
  }

  // Marking: the answer codes, and that only the status, its error and a failed command's expiry entry
  // change beside the seats.
  lemma MarksExactly(r: Slot, id: Uuid, wanted: seq<SeatId>, code: Failure)
    ensures var (r', n) := MarkDurable(r, id); var shown := id in r.commands;
      && (n == 0 <==> !shown) && (n == -1 <==> shown && r.commands[id].status.FAILED?)
      && (n != 1 ==> r' == r)
      && (n == 1 ==> r' == r.(commands := r.commands[id := r.commands[id].(status := DURABLE)]))
    ensures var (r', n) := MarkFailed(r, id, wanted, code); var shown := id in r.commands;
      && (n == 0 <==> !shown) && (n == -1 <==> shown && r.commands[id].status.DURABLE?)
      && (n != 1 ==> r' == r)
      && (n == 1 ==>
            && r' == r.(seatMap := r'.seatMap, expiry := r.expiry - {r.commands[id].response.commandId},
                        commands := r.commands[id := r.commands[id].(status := FAILED, error := Some(code))])
            && r'.seatMap == r.seatMap.(seats := r'.seatMap.seats, version := r'.seatMap.version))
  {
    hide Vacated;
    if id in r.commands {
      VacatedFrame(r.seatMap, wanted, r.commands[id].response.holdId);
      assert r.commands[id].status.DURABLE? ==> r.commands[id := r.commands[id].(status := DURABLE)] == r.commands;
    }
  }

  lemma {:induction false} VacatedFrame(m: SeatMap, wanted: seq<SeatId>, hold: Uuid)
    ensures var after := Vacated(m, wanted, hold); after == m.(seats := after.seats, version := after.version)
  {
    if wanted != [] {
      VacatedFrame(m, wanted[..|wanted| - 1], hold);
    }
  }

  // Exactly the wanted seats change: they carry the new hold until its expiry, keep price and source
  // version, and their stamps lie above the old map version.
  lemma {:induction false} OccupiedAt(seats: map<SeatId, Cached>, version: nat, wanted: seq<SeatId>, hold: Uuid,
                                      until: Time, s: SeatId)
    requires s in seats
    ensures var after := Occupied(seats, version, wanted, hold, until);
      && after.Keys == seats.Keys
      && (s !in wanted ==> after[s] == seats[s])
      && (s in wanted ==>
            && after[s].state == SeatState(seats[s].state.price, HELD, Some(until), Some(hold),
                seats[s].state.sourceVersion)
            && version < after[s].stamp <= version + |wanted|)
  {
    if wanted != [] {
      var front := wanted[..|wanted| - 1];
      OccupiedAt(seats, version, front, hold, until, s);
      assert forall x :: x in wanted <==> x in front || x == wanted[|wanted| - 1];
    }
  }

  // ---------- MARK_DURABLE and MARK_FAILED ----------

  function MarkDurable(r: Slot, id: Uuid): (Slot, int) {
    if id !in r.commands then (r, 0)
    else if r.commands[id].status.FAILED? then (r, -1)
    else if r.commands[id].status.PENDING? then
      (r.(commands := r.commands[id := r.commands[id].(status := DURABLE)]), 1)
    else (r, 1)
  }

  function Given(x: SeatState): SeatState {
    x.(status := AVAILABLE, holdId := None, reservedUntil := None)
  }

  // Compensation frees, one by one, the seats that still carry the command's hold.
  function Vacated(m: SeatMap, wanted: seq<SeatId>, hold: Uuid): SeatMap {
    if wanted == [] then m
    else
      var before, s := Vacated(m, wanted[..|wanted| - 1], hold), wanted[|wanted| - 1];
      if s in before.seats && before.seats[s].state.holdId == Some(hold) then
        var v := (if before.version.Some? then before.version.value else 0) + 1;
        before.(version := Some(v), seats := before.seats[s := Cached(Given(before.seats[s].state), v)])
      else before
  }

  function MarkFailed(r: Slot, id: Uuid, wanted: seq<SeatId>, code: Failure): (Slot, int) {
    if id !in r.commands then (r, 0)
    else if r.commands[id].status.DURABLE? then (r, -1)
    else
      var c := r.commands[id];
      (r.(seatMap := Vacated(r.seatMap, wanted, c.response.holdId),
          expiry := r.expiry - {c.response.commandId},
          commands := r.commands[id := c.(status := FAILED, error := Some(code))]), 1)
  }

  predicate Carries(seats: map<SeatId, Cached>, s: SeatId, hold: Uuid) {
    s in seats && seats[s].state.holdId == Some(hold)
  }

  // A seat changes exactly when it was named and still carried this hold; it then carries none.
  lemma {:induction false} VacatedAt(m: SeatMap, wanted: seq<SeatId>, hold: Uuid, s: SeatId)
    requires s in m.seats
    ensures var after := Vacated(m, wanted, hold);
      && after.seats.Keys == m.seats.Keys
      && (s in wanted && Carries(m.seats, s, hold) ==>
            after.seats[s].state == SeatState(m.seats[s].state.price, AVAILABLE, None, None,
              m.seats[s].state.sourceVersion))
      && (!(s in wanted && Carries(m.seats, s, hold)) ==> after.seats[s] == m.seats[s])
  {
    if wanted != [] {
      var front := wanted[..|wanted| - 1];
      VacatedAt(m, front, hold, s);
      assert forall x :: x in wanted <==> x in front || x == wanted[|wanted| - 1];
    }
  }

  // Compensation gives back what admission took: every seat is AVAILABLE again, at its own price and
  // source version, unless somebody else took it in between.
  lemma FailureUndoesAdmission(r: Slot, d: Demand, backlog: nat, now: Time, code: Failure, s: SeatId)
    requires Enqueue(r, d, backlog, now).1.Accepted? && s in d.seats
    requires s in r.seatMap.seats
    ensures var undone := MarkFailed(Enqueue(r, d, backlog, now).0, d.commandId, d.seats, code).0;
      var was := r.seatMap.seats[s].state;
      && s in undone.seatMap.seats
      && undone.seatMap.seats[s].state == SeatState(was.price, AVAILABLE, None, None, was.sourceVersion)
      && undone.commands[d.commandId].status.FAILED?
      && undone.expiry == r.expiry - {d.commandId}
  {
    var m := r.seatMap;
    var v := m.version.value;
    var after := Admit(r, d, now);
    OccupiedAt(m.seats, v, d.seats, d.holdId, now + d.holdSeconds, s);
    VacatedAt(after.seatMap, d.seats, d.holdId, s);
  }
}
