// The PUT script as it runs: one pass that computes the new aggregate version and the changed seats,
// one pass that stores them between setting and clearing `updating`.
module SeatCache {
  import opened Domain
  import opened Sums
  import opened SeatMaps

  class SeatMapHash {
    var m: SeatMap

    constructor ()
      ensures m == NO_MAP
    {
      m := NO_MAP;
    }

    // First pass: the aggregate version the write will have.
    method ComputeVersion(w: Write) returns (version: nat)
      ensures version == NextVersion(m, w)
    {
      hide MapSum, Gain;
      version := Base(m, w);
      var rest := w.rows.Keys;
      SumEmpty(Gains(m, w, {}));
      assert w.rows.Keys - rest == {};
      while rest != {}
        invariant rest <= w.rows.Keys
        invariant version == Base(m, w) + MapSum(Gains(m, w, w.rows.Keys - rest))
        decreases rest
      {
        var s :| s in rest;
        ghost var done := w.rows.Keys - rest;
        rest := rest - {s};
        assert w.rows.Keys - rest == done + {s};
        assert Gains(m, w, done + {s}) == Gains(m, w, done)[s := Gain(m, w, s)];
        SumAdd(Gains(m, w, done), s, Gain(m, w, s));
        version := version + Gain(m, w, s);
      }
      assert w.rows.Keys - rest == w.rows.Keys;
    }

    // Second pass: store the changed seats, each stamped with the new version.
    method StoreChanged(w: Write, version: nat, changed: set<SeatId>, ghost before: SeatMap)
      requires changed <= w.rows.Keys && m == before.(updating := true)
      modifies this`m
      ensures m == before.(updating := true, seats := before.seats + Stamped(before, w, version, changed))
    {
      hide Selected;
      var rest := changed;
      assert before.seats + Stamped(before, w, version, changed - rest) == before.seats;
      while rest != {}
        invariant rest <= changed
        invariant m == before.(updating := true, seats := before.seats + Stamped(before, w, version, changed - rest))
        decreases rest
      {
        var s :| s in rest;
        ghost var done := changed - rest;
        rest := rest - {s};
        assert changed - rest == done + {s};
        assert s !in Stamped(before, w, version, done);
        SelectionIsStable(before, w, version, done, s);
        assert before.seats + Stamped(before, w, version, done + {s}) ==
               (before.seats + Stamped(before, w, version, done))[s := Cached(Selected(before, w, s), version)];
        m := m.(seats := m.seats[s := Cached(Selected(m, w, s), version)]);
      }
      assert changed - rest == changed;
    }

    // -1 when a patch meets a missing or half-written map, the new version otherwise.
    method EvalPut(w: Write) returns (result: int)
      modifies this`m
      ensures m == Put(old(m), w)
      ensures result == -1 <==> Refused(old(m), w)
      ensures result >= 0 ==> m.version == Some(result)
    {
      hide NextVersion, Stamped, Changed;
      if w.Patch? && (m.version.None? || m.updating) {
        return -1;
      }
      ghost var before := m;
      var version := ComputeVersion(w);
      var changed := Changed(m, w);
      ChangedRows(m, w);
      m := m.(updating := true);
      StoreChanged(w, version, changed, before);
      m := m.(version := Some(version));
      if w.Full? {
        m := m.(layout := Some(Prices(w.rows)));
        if m.incarnation.None? {
          m := m.(incarnation := Some(w.candidate));
        }
        if w.window.Some? {
          m := m.(sale := w.window);
        }
      }
      m := m.(updating := false);
      return version;
    }
  }

  // Storing other seats does not change what is selected for this one.
  lemma SelectionIsStable(before: SeatMap, w: Write, version: nat, done: set<SeatId>, s: SeatId)
    requires s in w.rows && s !in done
    ensures var partial := before.(updating := true, seats := before.seats + Stamped(before, w, version, done));
      Selected(partial, w, s) == Selected(before, w, s)
  {
  }
}
