// The intake scripts as they run, updating the event's hash slot in place.
module ReservationIntake {
  import opened Domain
  import opened SeatMaps
  import opened IntakeScripts

  class RedisReservationIntake {
    var slot: Slot
    const maxBacklog: nat
    const holdSeconds: nat

    constructor (maxBacklog: nat, holdSeconds: nat)
      ensures slot == Slot(NO_MAP, map[], map[], map[], map[], 0)
      ensures this.maxBacklog == maxBacklog && this.holdSeconds == holdSeconds
    {
      this.maxBacklog := maxBacklog;
      this.holdSeconds := holdSeconds;
      slot := Slot(NO_MAP, map[], map[], map[], map[], 0);
    }

    // First loop of ENQUEUE: check every seat and add up the prices, before anything is written.
    method SelectSeats(wanted: seq<SeatId>, now: Time) returns (refusal: Option<Refusal>, total: nat)
      ensures refusal == Scan(slot.seatMap.seats, wanted, now)
      ensures refusal.None? ==> total == Total(slot.seatMap.seats, wanted)
    {
      var seats := slot.seatMap.seats;
      total := 0;
      var i := 0;
      while i < |wanted|
        invariant 0 <= i <= |wanted|
        invariant Scan(seats, wanted, now) == Scan(seats, wanted[i..], now)
        invariant total + Total(seats, wanted[i..]) == Total(seats, wanted)
      {
        assert wanted[i..][1..] == wanted[i + 1..];
        if wanted[i] !in seats {
          return Some(SEAT_NOT_FOUND), total;
        }
        if !Takeable(seats[wanted[i]].state, now) {
          return Some(SEAT_UNAVAILABLE), total;
        }
        total := total + seats[wanted[i]].state.price;
        i := i + 1;
      }
      refusal := None;
    }

    // Second loop of ENQUEUE: occupy the selected seats.
    method OccupySeats(wanted: seq<SeatId>, hold: Uuid, until: Time) returns (version: nat)
      requires slot.seatMap.version.Some?
      requires forall s :: s in wanted ==> s in slot.seatMap.seats
      modifies this`slot
      ensures version == old(slot.seatMap.version.value) + |wanted|
      ensures slot == old(slot).(seatMap := old(slot.seatMap).(
        seats := Occupied(old(slot.seatMap.seats), old(slot.seatMap.version.value), wanted, hold, until)))
    {
      ghost var before := slot;
      var seats := slot.seatMap.seats;
      ghost var v := slot.seatMap.version.value;
      version := slot.seatMap.version.value;
      var i := 0;
      while i < |wanted|
        invariant 0 <= i <= |wanted| && version == v + i
        invariant slot == before.(seatMap := before.seatMap.(seats := Occupied(seats, v, wanted[..i], hold, until)))
      {
        assert wanted[..i + 1][..i] == wanted[..i];
        version := version + 1;
        var s := wanted[i];
        var m := slot.seatMap;
        slot := slot.(seatMap := m.(seats := m.seats[s := Cached(Taken(seats[s].state, hold, until), version)]));
        i := i + 1;
      }
      assert wanted[..i] == wanted;
    }

    method Enqueue(d: Demand, now: Time) returns (out: Outcome)
      requires d.holdSeconds == holdSeconds
      modifies this`slot
      ensures (slot, out) == IntakeScripts.Enqueue(old(slot), d, maxBacklog, now)
    {
      hide Occupied, Total, Scan, Takeable;
      var m := slot.seatMap;
      var ck := ClientKey(d.actor, d.key);
      var c := CommandOf(d);
      if m.version.None? || m.updating || m.sale.None? {
        return Rejected(SEATMAP_WARMING);
      }
      if now < m.sale.value.starts || now >= m.sale.value.ends {
        return Rejected(SALE_CLOSED);
      }
      if ck in slot.idem {
        if slot.idem[ck].requestHash != c.requestHash {
          return Rejected(KEY_MISMATCH);
        }
        return Replayed(slot.idem[ck].response);
      }
      if |slot.stream| >= maxBacklog {
        return Rejected(BACKLOG_FULL);
      }
      var refusal, total := SelectSeats(d.seats, now);
      if refusal.Some? {
        return Rejected(refusal.value);
      }
      ScanExactly(m.seats, d.seats, now);
      assert forall s :: s in d.seats ==> s in m.seats;
      var until := now + d.holdSeconds;
      var reply := Reply(d.commandId, d.holdId, d.orderId, d.seats, total, m.sale.value.currency, until, d.expiresAt);
      var version := OccupySeats(d.seats, d.holdId, until);
      slot := slot.(seatMap := slot.seatMap.(version := Some(version)));
      slot := slot.(idem := slot.idem[ck := ClientRecord(c.requestHash, reply)]);
      slot := slot.(commands := slot.commands[d.commandId := CommandHash(PENDING, None, reply, c)]);
      slot := slot.(expiry := slot.expiry[d.commandId := until]);
      slot := slot.(stream := slot.stream[slot.nextId := Message(c, reply)], nextId := slot.nextId + 1);
      return Accepted(reply);
    }

    method MarkDurable(id: Uuid) returns (code: int)
      modifies this`slot
      ensures (slot, code) == IntakeScripts.MarkDurable(old(slot), id)
    {
      if id !in slot.commands {
        return 0;
      }
      if slot.commands[id].status.FAILED? {
        return -1;
      }
      if slot.commands[id].status.PENDING? {
        slot := slot.(commands := slot.commands[id := slot.commands[id].(status := DURABLE)]);
      }
      return 1;
    }

    // The loop of MARK_FAILED.
    method VacateSeats(wanted: seq<SeatId>, hold: Uuid)
      modifies this`slot
      ensures slot == old(slot).(seatMap := Vacated(old(slot.seatMap), wanted, hold))
    {
      ghost var before := slot;
      var i := 0;
      while i < |wanted|
        invariant 0 <= i <= |wanted|
        invariant slot == before.(seatMap := Vacated(before.seatMap, wanted[..i], hold))
      {
        assert wanted[..i + 1][..i] == wanted[..i];
        var s, m := wanted[i], slot.seatMap;
        if s in m.seats {
          var x := m.seats[s].state;
          if x.holdId == Some(hold) {
            var version := (if m.version.Some? then m.version.value else 0) + 1;
            slot := slot.(seatMap := m.(version := Some(version), seats := m.seats[s := Cached(Given(x), version)]));
          }
        }
        i := i + 1;
      }
      assert wanted[..i] == wanted;
    }

    method MarkFailed(id: Uuid, wanted: seq<SeatId>, error: Failure) returns (code: int)
      modifies this`slot
      ensures (slot, code) == IntakeScripts.MarkFailed(old(slot), id, wanted, error)
    {
      if id !in slot.commands {
        return 0;
      }
      if slot.commands[id].status.DURABLE? {
        return -1;
      }
      var response := slot.commands[id].response;
      VacateSeats(wanted, response.holdId);
      slot := slot.(expiry := slot.expiry - {response.commandId});
      slot := slot.(commands := slot.commands[id := slot.commands[id].(status := FAILED, error := Some(error))]);
      return 1;
    }
  }
}
