// Exposure over whole runs of the runtime, against an exchange that fills, reduces and cancels as it likes and reports
// truthfully. Position adds are off.
module ExposureRuns {
  import opened Common
  import opened Convergence
  import opened Entries
  import opened Exposure
  import opened Fills
  import Metrics
  import opened OrderBook
  import opened Reconciliation
  import Risk
  import Runtime
  import Stabilisation

  // The runtime's state, and what is true at the exchange: signed positions and live entry orders by link id.
  datatype Site = Site(state: Runtime.State, position: map<string, real>, live: map<string, LiveEntry>) {
    function AsWorld(): World { World(state.desk, position, live) }
  }

  // The runtime handles an event, some of the entries it submits reaching the exchange, or the market moves.
  datatype SiteEvent = Handled(event: Runtime.Event, reached: set<string>) | Moved(move: WorldEvent)

  // ---------------------------------------------------------------------------------------------
  // The candidates of one candle, one after the other.

  function AfterCandle(cfg: EntryConfig, w: World, around: Surroundings, cs: seq<Candidate>, reached: set<string>)
    : (w': World)
    requires w.desk.book.Iterable() && around.portfolio.positions.Listed()
    ensures w'.desk == DecideAll(cfg, w.desk, around, cs) && w'.position == w.position
  {
    if cs == [] then w
    else
      var c := cs[|cs| - 1];
      AfterDecision(cfg, AfterCandle(cfg, w, around, cs[..|cs| - 1], reached), Decided(around, c, c.linkId in reached))
  }

  // The portfolio is right about every candidate's symbol, and each link id is new when its candidate is decided on.
  ghost predicate FreshCandidates(cfg: EntryConfig, w: World, around: Surroundings, cs: seq<Candidate>)
    requires w.desk.book.Iterable() && around.portfolio.positions.Listed()
  {
    forall i | 0 <= i < |cs| :: FreshAfter(cfg, w, around, cs[..i], cs[i])
  }

  ghost predicate FreshAfter(cfg: EntryConfig, w: World, around: Surroundings, before: seq<Candidate>, c: Candidate)
    requires w.desk.book.Iterable() && around.portfolio.positions.Listed()
  {
    && around.portfolio.Signed(c.signal.symbol) == w.PositionOf(c.signal.symbol)
    && c.linkId !in DecideAll(cfg, w.desk, around, before).book.byLink.entries
  }

  lemma FreshPrefix(cfg: EntryConfig, w: World, around: Surroundings, cs: seq<Candidate>)
    requires w.desk.book.Iterable() && around.portfolio.positions.Listed()
    requires cs != [] && FreshCandidates(cfg, w, around, cs)
    ensures FreshCandidates(cfg, w, around, cs[..|cs| - 1])
  {
    var before := cs[..|cs| - 1];
    forall i | 0 <= i < |before| ensures FreshAfter(cfg, w, around, before[..i], before[i]) {
      assert before[..i] == cs[..i] && FreshAfter(cfg, w, around, cs[..i], cs[i]);
    }
  }

  lemma {:induction false} CandleKeepsLimits(
    cfg: EntryConfig, w: World, around: Surroundings, cs: seq<Candidate>, reached: set<string>)
    requires !cfg.allowAdds && WithinLimits(cfg, w) && around.portfolio.positions.Listed()
    requires FreshCandidates(cfg, w, around, cs)
    ensures WithinLimits(cfg, AfterCandle(cfg, w, around, cs, reached))
  {
    if cs != [] {
      var before, c := cs[..|cs| - 1], cs[|cs| - 1];
      FreshPrefix(cfg, w, around, cs);
      CandleKeepsLimits(cfg, w, around, before, reached);
      DecisionKeepsLimits(cfg, AfterCandle(cfg, w, around, before, reached), Decided(around, c, c.linkId in reached));
    }
  }

  // ---------------------------------------------------------------------------------------------
  // What an exchange that reports truthfully does not do.

  // The update speaks of the order with this link id.
  ghost predicate Names(pairs: Pairing, u: Update, link: string) {
    u.linkId == Some(link) || (link in pairs && u.orderId == Some(pairs[link]))
  }

  // No update reports a live order as done with.
  ghost predicate TruthfulUpdate(pairs: Pairing, live: map<string, LiveEntry>, u: Update) {
    u.status.Some? && !IsOpen(u.status.value) ==> forall k | k in live :: !Names(pairs, u, k)
  }

  ghost predicate ListsOpen(exchange: Dict<RemoteOrder>, link: string, symbol: string) {
    && link in exchange.entries && IsOpen(exchange.entries[link].status)
    && exchange.entries[link].symbol == symbol && !exchange.entries[link].reduceOnly
  }

  // Every snapshot lists the live orders, open and under their own symbols.
  ghost predicate TruthfulSnapshot(live: map<string, LiveEntry>, orders: seq<RemoteOrder>) {
    forall k | k in live :: ListsOpen(ExchangeDict(orders), k, live[k].symbol)
  }

  ghost predicate Truthful(cfg: EntryConfig, pairs: Pairing, s: Site, e: Runtime.Event)
    requires s.state.desk.book.Iterable() && Runtime.Enabled(e)
  {
    match e
    case CandleClosed(portfolio, tripped, cs) =>
      FreshCandidates(cfg, s.AsWorld(), AroundOf(s.state, portfolio, tripped), cs)
    case OrderStreamed(ev, _) => TruthfulUpdate(pairs, s.live, ev.update)
    case Reconciled(f, _) => TruthfulSnapshot(s.live, f.orders)
    case _ => true
  }

  function AroundOf(s: Runtime.State, portfolio: Risk.Portfolio, tripped: bool): Surroundings {
    Surroundings(s.startupBlocked, s.orphanBlocked, tripped, portfolio)
  }

  // ---------------------------------------------------------------------------------------------
  // Live orders stay tracked.

  lemma UpdateKeepsTracked(pairs: Pairing, b: Book, live: map<string, LiveEntry>, u: Update)
    requires Coherent(pairs, b) && b.Iterable() && LiveTracked(b, live) && TruthfulUpdate(pairs, live, u)
    ensures LiveTracked(ApplyUpdate(b, u), live)
  {
    forall k | k in live ensures Working(ApplyUpdate(b, u), live[k].symbol, false, k) {
      assert Working(b, live[k].symbol, false, k);
      if Target(b, u) == Some(b.byLink.entries[k]) { TargetIsNamed(pairs, b, u, k); }
    }
  }

  // An update that reaches a tracked order names it.
  lemma TargetIsNamed(pairs: Pairing, b: Book, u: Update, link: string)
    requires Coherent(pairs, b) && link in b.byLink.entries && Target(b, u) == Some(b.byLink.entries[link])
    ensures Names(pairs, u, link)
  {
    assert LinkKeyed(b, link);
    if u.orderId.Some? && u.orderId.value in b.byOrderId {
      assert OrderIdKeyed(b, u.orderId.value);
      assert CellIndexed(pairs, b, b.byOrderId[u.orderId.value]);
    } else {
      assert LinkKeyed(b, u.linkId.value);
    }
  }

  lemma OrderEventKeepsTracked(
    pairs: Pairing, d: Desk, live: map<string, LiveEntry>, ev: OrderEvent, env: Env, drillLink: string)
    requires d.book.Iterable() && Coherent(pairs, d.book) && LiveTracked(d.book, live)
    requires TruthfulUpdate(pairs, live, ev.update)
    ensures LiveTracked(OnOrderEvent(d, ev, env, drillLink).book, live)
  {
    UpdateKeepsTracked(pairs, d.book, live, ev.update);
    var link := ev.Link();
    if PrevStatus(d.book, link).Some? && ev.update.status == Some(Filled) {
      var d1 := d.(book := ApplyUpdate(d.book, ev.update),
                   counters := Metrics.Inc(d.counters, Metrics.OrderStateTransitions));
      TallyKeepsTracked(d1, live, link, Filled, ev, env);
    }
  }

  lemma TallyKeepsTracked(
    d: Desk, live: map<string, LiveEntry>, link: string, status: OrderStatus, ev: OrderEvent, env: Env)
    requires d.book.Iterable() && link in d.book.byLink.entries && LiveTracked(d.book, live)
    ensures LiveTracked(Tally(d, link, status, ev, env).book, live)
  {
    var plan := PlanExit(d.book.At(link), ev, env);
    if status == Filled && link !in d.outcomes.seenFilled && !d.book.At(link).reduceOnly && plan.Planned? {
      PlacingKeepsTracked(RecordFill(d, link, true), live, link, plan.intent, env);
    }
  }

  lemma PlacingKeepsTracked(d: Desk, live: map<string, LiveEntry>, link: string, intent: Intent, env: Env)
    requires d.book.Iterable() && LiveTracked(d.book, live)
    ensures LiveTracked(PlacePlanned(d, link, intent, env).book, live)
  {
    RegisteringKeepsTracked(d.book, live, intent);
    SubmittingKeepsTracked(NoteExitSubmitted(TrackPlan(d, intent)), live, intent, env.ack, env.now);
  }

  lemma DrillKeepsTracked(
    s: Runtime.State, live: map<string, LiveEntry>, drill: Intent, ack: Option<Runtime.DrillAck>, when: int)
    requires s.desk.book.Iterable() && LiveTracked(s.desk.book, live)
    ensures LiveTracked(Runtime.PlaceDrill(s, drill, ack, when).desk.book, live)
  {
    RegisteringKeepsTracked(s.desk.book, live, drill);
    var b := Register(s.desk.book, drill);
    var b' := Runtime.PlaceDrill(s, drill, ack, when).desk.book;
    forall k | k in live ensures Working(b', live[k].symbol, false, k) { assert Working(b, live[k].symbol, false, k); }
  }

  // The snapshot's version of a live order is as good as the one tracked before.
  lemma SyncedKeepsTracked(
    b: Book, b': Book, live: map<string, LiveEntry>, orders: seq<RemoteOrder>)
    requires b.Iterable() && b'.Iterable() && LiveTracked(b, live) && TruthfulSnapshot(live, orders)
    requires forall k | k in live ::
               k in Tracked(b') && Tracked(b')[k] == Merged(Tracked(b), ExchangeDict(orders).entries[k])
    ensures LiveTracked(b', live)
  {
    var exchange := ExchangeDict(orders);
    forall k | k in live ensures Working(b', live[k].symbol, false, k) {
      assert Working(b, live[k].symbol, false, k) && ListsOpen(exchange, k, live[k].symbol);
      assert b'.At(k) == Overwritten(b.At(k), exchange.entries[k]);
    }
  }

  lemma ReconcilingKeepsTracked(pairs: Pairing, b: Book, live: map<string, LiveEntry>, orders: seq<RemoteOrder>)
    requires b.Iterable() && Coherent(pairs, b) && LiveTracked(b, live)
    requires SnapshotConforms(pairs, ExchangeDict(orders)) && TruthfulSnapshot(live, orders)
    ensures LiveTracked(ReconcileOrders(b, orders).0, live)
  {
    forall k | k in live ensures k in ExchangeDict(orders).entries {
      assert ListsOpen(ExchangeDict(orders), k, live[k].symbol);
    }
    ReconcileIsDifference(pairs, b, orders);
    SyncedKeepsTracked(b, ReconcileOrders(b, orders).0, live, orders);
  }

  lemma SyncingKeepsTracked(
    pairs: Pairing, b: Book, live: map<string, LiveEntry>, orders: seq<RemoteOrder>, when: int)
    requires b.Iterable() && Coherent(pairs, b) && LiveTracked(b, live)
    requires SnapshotConforms(pairs, ExchangeDict(orders)) && TruthfulSnapshot(live, orders)
    ensures LiveTracked(SyncedBook(b, orders, when).0, live)
  {
    forall k | k in live ensures k in ExchangeDict(orders).entries {
      assert ListsOpen(ExchangeDict(orders), k, live[k].symbol);
    }
    SyncReachesSnapshot(pairs, b, orders, when);
    SyncedKeepsTracked(b, SyncedBook(b, orders, when).0, live, orders);
  }

  lemma CycleKeepsTracked(
    pairs: Pairing, s: Runtime.State, live: map<string, LiveEntry>, f: Runtime.Fetch, now: int)
    requires s.desk.book.Iterable() && Coherent(pairs, s.desk.book) && LiveTracked(s.desk.book, live)
    requires SnapshotConforms(pairs, ExchangeDict(f.orders)) && TruthfulSnapshot(live, f.orders)
    ensures LiveTracked(Runtime.RunCycle(s, f, now).desk.book, live)
  {
    match f
    case OrdersOnly(orders) => ReconcilingKeepsTracked(pairs, s.desk.book, live, orders);
    case Everything(orders, _, _) => SyncingKeepsTracked(pairs, s.desk.book, live, orders, now);
  }

  // ---------------------------------------------------------------------------------------------
  // Runs.

  function LiveAfter(cfg: EntryConfig, s: Site, e: Runtime.Event, reached: set<string>): map<string, LiveEntry>
    requires s.state.desk.book.Iterable() && Runtime.Enabled(e)
  {
    match e
    case CandleClosed(portfolio, tripped, cs) =>
      AfterCandle(cfg, s.AsWorld(), AroundOf(s.state, portfolio, tripped), cs, reached).live
    case _ => s.live
  }

  function AfterMove(cfg: EntryConfig, s: Site, e: WorldEvent): Site
    requires s.state.desk.book.Iterable() && !e.Decided? && Fair(cfg, s.AsWorld(), e)
  {
    var w := Step(cfg, s.AsWorld(), e);
    s.(position := w.position, live := w.live)
  }

  // What is assumed of an event: the exchange's ids pair up, its reports are true, quantities fill in whole steps, and
  // decisions see the position as it is.
  ghost predicate Allowed(cfg: EntryConfig, pairs: Pairing, s: Site, e: SiteEvent)
    requires s.state.desk.book.Iterable()
  {
    match e
    case Handled(event, _) =>
      Runtime.Enabled(event) && Stabilisation.Agrees(pairs, event) && Truthful(cfg, pairs, s, event)
    case Moved(move) => !move.Decided? && Fair(cfg, s.AsWorld(), move)
  }

  function SiteStep(cfg: EntryConfig, pairs: Pairing, s: Site, e: SiteEvent): (s': Site)
    requires s.state.desk.book.Iterable() && Allowed(cfg, pairs, s, e)
    ensures s'.state.desk.book.Iterable()
  {
    match e
    case Handled(event, reached) =>
      Site(Runtime.Step(cfg, s.state, event), s.position, LiveAfter(cfg, s, event, reached))
    case Moved(move) => AfterMove(cfg, s, move)
  }

  ghost predicate Safe(cfg: EntryConfig, pairs: Pairing, s: Site) {
    s.state.desk.book.Iterable() && Coherent(pairs, s.state.desk.book) && WithinLimits(cfg, s.AsWorld())
  }

  lemma CandleStepKeepsLimits(cfg: EntryConfig, pairs: Pairing, s: Site, e: Runtime.Event, reached: set<string>)
    requires !cfg.allowAdds && Safe(cfg, pairs, s) && Allowed(cfg, pairs, s, Handled(e, reached)) && e.CandleClosed?
    ensures WithinLimits(cfg, SiteStep(cfg, pairs, s, Handled(e, reached)).AsWorld())
  {
    var w, around := s.AsWorld(), AroundOf(s.state, e.portfolio, e.tripped);
    CandleKeepsLimits(cfg, w, around, e.candidates, reached);
    assert SiteStep(cfg, pairs, s, Handled(e, reached)).AsWorld() == AfterCandle(cfg, w, around, e.candidates, reached);
  }

  lemma OtherStepKeepsTracked(cfg: EntryConfig, pairs: Pairing, s: Site, e: Runtime.Event)
    requires Safe(cfg, pairs, s) && Allowed(cfg, pairs, s, Handled(e, {})) && !e.CandleClosed?
    ensures LiveTracked(Runtime.Step(cfg, s.state, e).desk.book, s.live)
  {
    match e
    case DrillPlaced(drill, ack, when) => DrillKeepsTracked(s.state, s.live, drill, ack, when);
    case OrderStreamed(ev, env) => OrderEventKeepsTracked(pairs, s.state.desk, s.live, ev, env, s.state.drillLink);
    case Reconciled(f, now) => CycleKeepsTracked(pairs, s.state, s.live, f, now);
    case _ =>
  }

  lemma HandlingKeepsLimits(cfg: EntryConfig, pairs: Pairing, s: Site, e: Runtime.Event, reached: set<string>)
    requires !cfg.allowAdds && Safe(cfg, pairs, s) && Allowed(cfg, pairs, s, Handled(e, reached))
    ensures WithinLimits(cfg, SiteStep(cfg, pairs, s, Handled(e, reached)).AsWorld())
  {
    if e.CandleClosed? {
      CandleStepKeepsLimits(cfg, pairs, s, e, reached);
    } else {
      OtherStepKeepsTracked(cfg, pairs, s, e);
      SamePositionsKeepLimits(cfg, s.AsWorld(), SiteStep(cfg, pairs, s, Handled(e, reached)).AsWorld());
    }
  }

  lemma StepIsSafe(cfg: EntryConfig, pairs: Pairing, s: Site, e: SiteEvent)
    requires !cfg.allowAdds && Safe(cfg, pairs, s) && Allowed(cfg, pairs, s, e)
    ensures Safe(cfg, pairs, SiteStep(cfg, pairs, s, e))
  {
    match e
    case Handled(event, reached) =>
      HandlingKeepsLimits(cfg, pairs, s, event, reached);
      Stabilisation.StepKeepsCoherence(pairs, cfg, s.state, event);
    case Moved(move) => MarketKeepsLimits(cfg, s.AsWorld(), move);
  }

  ghost predicate AllowedRun(cfg: EntryConfig, pairs: Pairing, s: Site, events: seq<SiteEvent>)
    requires s.state.desk.book.Iterable()
    decreases |events|
  {
    events != [] ==>
      Allowed(cfg, pairs, s, events[0]) && AllowedRun(cfg, pairs, SiteStep(cfg, pairs, s, events[0]), events[1..])
  }

  function SiteRun(cfg: EntryConfig, pairs: Pairing, s: Site, events: seq<SiteEvent>): Site
    requires s.state.desk.book.Iterable() && AllowedRun(cfg, pairs, s, events)
    decreases |events|
  {
    if events == [] then s else SiteRun(cfg, pairs, SiteStep(cfg, pairs, s, events[0]), events[1..])
  }

  lemma {:induction false} RunIsSafe(cfg: EntryConfig, pairs: Pairing, s: Site, events: seq<SiteEvent>)
    requires !cfg.allowAdds && Safe(cfg, pairs, s) && AllowedRun(cfg, pairs, s, events)
    ensures Safe(cfg, pairs, SiteRun(cfg, pairs, s, events))
    decreases |events|
  {
    if events != [] {
      StepIsSafe(cfg, pairs, s, events[0]);
      RunIsSafe(cfg, pairs, SiteStep(cfg, pairs, s, events[0]), events[1..]);
    }
  }

  // A runtime that has just started, with whatever is held at the exchange and no entries of its own there.
  function Opening(position: map<string, real>): Site { Site(Runtime.Start, position, map[]) }

  // The positions held are in whole steps and within the limits.
  ghost predicate Acceptable(cfg: EntryConfig, position: map<string, real>) {
    && AllWholeSteps(cfg, World(FreshDesk, position, map[]))
    && forall s | s in cfg.limits.perSymbol && s in position ::
         Risk.Abs(position[s]) <= cfg.limits.perSymbol[s].maxPositionAbs
  }

  lemma OpeningIsSafe(cfg: EntryConfig, pairs: Pairing, position: map<string, real>)
    requires Injective(pairs) && Acceptable(cfg, position)
    requires forall s | s in cfg.limits.perSymbol :: cfg.limits.perSymbol[s].maxPositionAbs >= 0.0
    ensures Safe(cfg, pairs, Opening(position))
  {
    Runtime.StartParts();
    var w := Opening(position).AsWorld();
    forall s | s in cfg.specs ensures InWholeSteps(cfg, s, w.PositionOf(s)) {
      assert InWholeSteps(cfg, s, World(FreshDesk, position, map[]).PositionOf(s));
    }
  }

  // In every run from a start with acceptable positions: a symbol never has two live entries, and its position together
  // with the unfilled part of its live entry stays within the position limit.
  lemma ExposureStaysWithinLimits(
    cfg: EntryConfig, pairs: Pairing, position: map<string, real>, events: seq<SiteEvent>, symbol: string)
    requires !cfg.allowAdds && Injective(pairs) && Acceptable(cfg, position)
    requires forall s | s in cfg.limits.perSymbol :: cfg.limits.perSymbol[s].maxPositionAbs >= 0.0
    requires AllowedRun(cfg, pairs, Opening(position), events)
    ensures var w := SiteRun(cfg, pairs, Opening(position), events).AsWorld();
            && (forall k, l | k in w.live && l in w.live && w.live[k].symbol == w.live[l].symbol == symbol :: k == l)
            && Contained(cfg, w, symbol)
  {
    OpeningIsSafe(cfg, pairs, position);
    RunIsSafe(cfg, pairs, Opening(position), events);
  }
}
