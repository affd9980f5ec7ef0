// What the projected map says beside its seats: the layout is the inventory with its prices, and the
// sale window and currency are the event's, in every run with stale workers, cuts and key loss.
module ProjectionMeta {
  import opened Domain
  import opened Forward
  import opened Commerce
  import opened Runs
  import opened SeatMaps
  import opened SeatMapReads
  import opened Projection
  import opened ProjectionReads
  import ProjectionRuns

  // The layout lists exactly the event's seats, each at its price.
  ghost predicate LayoutShows(layout: Layout, seats: map<SeatKey, SeatRow>, e: Uuid) {
    && (forall s :: s in layout <==> SeatKey(e, s) in seats)
    && (forall s :: s in layout ==> layout[s] == seats[SeatKey(e, s)].price)
  }

  ghost predicate SaleShows(sale: Sale, events: map<Uuid, EventRow>, e: Uuid) {
    e in events && sale.starts == events[e].saleStarts && sale.ends == events[e].saleEnds &&
      sale.currency == events[e].currency
  }

  // A seat's price is the same in all its contents.
  ghost predicate PricesFixed(h: History, seats: map<SeatKey, SeatRow>, e: Uuid) {
    forall s, v :: s in h && SeatKey(e, s) in seats && 0 <= v < |h[s]| ==> h[s][v].price == seats[SeatKey(e, s)].price
  }

  ghost predicate TaskMeta(db: Store, e: Uuid, t: Task) {
    t.phase.HasRead? && t.phase.w.Full? ==>
      (e in db.events ==> t.phase.w.window.Some?) &&
        (t.phase.w.window.Some? ==> SaleShows(t.phase.w.window.value, db.events, e))
  }

  ghost predicate CacheMeta(cache: SeatMap, st: Store, e: Uuid) {
    && (cache.layout.Some? ==> LayoutShows(cache.layout.value, st.seats, e))
    && (cache.sale.Some? ==> SaleShows(cache.sale.value, st.events, e))
    && (Whole(cache) ==> cache.layout.Some? && (e in st.events ==> cache.sale.Some?))
  }

  ghost predicate MetaOk(e: Uuid, sys: Sys) {
    && PricesFixed(sys.history, sys.db.store.seats, e) && CacheMeta(sys.cache, sys.db.store, e)
    && forall id :: id in sys.tasks ==> TaskMeta(sys.db.store, e, sys.tasks[id])
  }

  // ---------- transactions ----------

  lemma RecallPrices(h: History, seats: map<SeatKey, SeatRow>, seats': map<SeatKey, SeatRow>, e: Uuid)
    requires PricesFixed(h, seats, e) && HistoryOk(h, seats, e) && seats'.Keys == seats.Keys
    requires forall k :: k in seats ==> seats'[k].price == seats[k].price
    ensures PricesFixed(Recall(h, seats', e), seats', e)
  {
    hide HistoryOk;
  }

  lemma SameInventory(cache: SeatMap, st: Store, st': Store, e: Uuid)
    requires CacheMeta(cache, st, e) && st'.events == st.events && st'.seats.Keys == st.seats.Keys
    requires forall k :: k in st.seats ==> st'.seats[k].price == st.seats[k].price
    ensures CacheMeta(cache, st', e)
  {
  }

  lemma CommitMeta(e: Uuid, w: World, at: Time, step: Runs.Step)
    requires WorldOk(e, w) && MetaOk(e, w.sys) && w.sys.now <= at && Enabled(w.sys.db, at, step)
    ensures MetaOk(e, AfterCommit(e, w.sys, at, Apply(w.sys.db, at, step)))
  {
    hide DbOk, MapOk, HistoryOk, Enabled, Apply, Recall, OrdersStep, MoneyStep, PricesFixed, CacheMeta, TasksHonest,
      Spent;
    var db' := Apply(w.sys.db, at, step);
    DbOkLater(w.sys.db, w.sys.now, at);
    StepOk(w.sys.db, at, step);
    RecallPrices(w.sys.history, w.sys.db.store.seats, db'.store.seats, e);
    SameInventory(w.sys.cache, w.sys.db.store, db'.store, e);
  }

  // ---------- writes ----------

  // The layout of a full write is the inventory.
  lemma FullLayout(h: History, seats: map<SeatKey, SeatRow>, e: Uuid, w: Write)
    requires WriteOk(h, w) && w.Full? && HistoryOk(h, seats, e) && PricesFixed(h, seats, e)
    ensures LayoutShows(SeatMaps.Prices(w.rows), seats, e)
  {
    forall s | s in w.rows
      ensures SeatKey(e, s) in seats && w.rows[s].price == seats[SeatKey(e, s)].price
    {
      assert FromHistory(h, s, w.rows[s]);
    }
  }

  lemma PutMeta(h: History, st: Store, e: Uuid, m: SeatMap, t: Task)
    requires t.phase.HasRead? && WriteOk(h, t.phase.w) && HistoryOk(h, st.seats, e) && PricesFixed(h, st.seats, e)
    requires CacheMeta(m, st, e) && TaskMeta(st, e, t)
    ensures CacheMeta(Put(m, t.phase.w), st, e)
    ensures forall at :: CanStop(m, t.phase.w, at) ==> CacheMeta(Cut(m, t.phase.w, at), st, e)
  {
    hide HistoryOk, PricesFixed, WriteOk, LayoutShows, SaleShows, NextVersion, Stamped, Changed;
    if t.phase.w.Full? {
      FullLayout(h, st.seats, e, t.phase.w);
    }
  }

  lemma WriteMeta(e: Uuid, w: World, id: nat, stop: Stop)
    requires WorldOk(e, w) && MetaOk(e, w.sys)
    ensures CanMove(e, w.sys, WriteMap(id)) ==> MetaOk(e, Next(e, w.sys, WriteMap(id)))
    ensures CanMove(e, w.sys, CutWrite(id, stop)) ==> MetaOk(e, Next(e, w.sys, CutWrite(id, stop)))
  {
    hide DbOk, MapOk, HistoryOk, PricesFixed, CacheMeta, WriteOk, Put, Cut, CanStop, Spent;
    if id in w.sys.tasks && w.sys.tasks[id].phase.HasRead? {
      assert TaskHonest(w.sys.history, w.drawn, w.sys.tasks[id]);
      PutMeta(w.sys.history, w.sys.db.store, e, w.sys.cache, w.sys.tasks[id]);
    }
  }

  lemma WorkerMeta(e: Uuid, w: World, mv: Move)
    requires WorldOk(e, w) && MetaOk(e, w.sys) && CanMove(e, w.sys, mv)
    requires mv.ClaimRefresh? || mv.StartSnapshot? || mv.ReadRows? || mv.Ack? || mv.Crash?
    ensures MetaOk(e, Next(e, w.sys, mv))
  {
    hide DbOk, MapOk, HistoryOk, PricesFixed, CacheMeta, TasksHonest, Spent, RowsOf, LeaseRow, AckRow, Live;
  }

  lemma EventMeta(e: Uuid, w: World, v: Event)
    requires WorldOk(e, w) && MetaOk(e, w.sys) && Can(e, w, v)
    ensures MetaOk(e, After1(e, w, v).sys)
  {
    hide WorldOk, MetaOk, AfterCommit, Enabled, Apply, CanStop, Put, Cut;
    if v.LoseKey? {
      LossMeta(e, w);
    } else {
      match v.mv {
        case Commit(at, step) => CommitMeta(e, w, at, step);
        case WriteMap(id) => WriteMeta(e, w, id, Stop({}, false, 0));
        case CutWrite(id, stop) => WriteMeta(e, w, id, stop);
        case _ => WorkerMeta(e, w, v.mv);
      }
    }
  }

  lemma LossMeta(e: Uuid, w: World)
    requires MetaOk(e, w.sys)
    ensures MetaOk(e, w.sys.(cache := NO_MAP))
  {
    hide PricesFixed;
  }

  lemma {:induction false} RunMeta(e: Uuid, w: World, run: seq<Event>)
    requires WorldOk(e, w) && MetaOk(e, w.sys) && Possible(e, w, run)
    ensures MetaOk(e, After(e, w, run).sys)
    decreases |run|
  {
    hide WorldOk, MetaOk, Can, After1;
    if run != [] {
      NoClient(w);
      EventKeeps(e, w, run[0], None);
      EventMeta(e, w, run[0]);
      RunMeta(e, After1(e, w, run[0]), run[1..]);
    }
  }

  lemma NoClient(w: World)
    ensures ClientOk(w, None)
  {
  }

  lemma StartMeta(e: Uuid, sys: Sys)
    requires ProjectionRuns.Initial(e, sys)
    ensures MetaOk(e, sys)
  {
    hide Fresh;
    assert Fresh(sys.db);
    FreshPrices(e, sys);
  }

  lemma FreshPrices(e: Uuid, sys: Sys)
    requires Fresh(sys.db) && HistoryOk(sys.history, sys.db.store.seats, e)
    ensures PricesFixed(sys.history, sys.db.store.seats, e)
  {
    forall s, v | s in sys.history && SeatKey(e, s) in sys.db.store.seats && 0 <= v < |sys.history[s]|
      ensures sys.history[s][v].price == sys.db.store.seats[SeatKey(e, s)].price
    {
      assert SeatHistoryOk(sys.history[s], sys.db.store.seats[SeatKey(e, s)]);
    }
  }

  // In every run a whole map carries the event's inventory at its prices and the event's own sale window
  // and currency.
  lemma MapDescribesEvent(e: Uuid, sys: Sys, run: seq<Event>)
    requires ProjectionRuns.Initial(e, sys) && Possible(e, World(sys, {}), run)
    ensures var w := After(e, World(sys, {}), run); var st := w.sys.db.store;
      Whole(w.sys.cache) ==>
        && w.sys.cache.layout.Some? && LayoutShows(w.sys.cache.layout.value, st.seats, e)
        && (e in st.events ==> w.sys.cache.sale.Some? && SaleShows(w.sys.cache.sale.value, st.events, e))
  {
    hide ProjectionRuns.Initial, Possible, After, WorldOk, PricesFixed;
    StartIsOk(e, sys);
    StartMeta(e, sys);
    RunMeta(e, World(sys, {}), run);
  }
}
