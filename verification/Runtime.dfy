// The runtime as a state machine: candles, order events, drills, startup inspections, reconcile cycles and failures
// in any order. Invariants of every run, and stabilisation under a fixed exchange snapshot.
module Runtime {
  import opened Common
  import opened BlockGate
  import opened Entries
  import opened Fills
  import opened Metrics
  import opened OrderBook
  import opened Reconciliation
  import Risk

  // The desk owns the counters; the gate is the rest of what reconcile cycles drive.
  datatype State = State(
    desk: Desk, startupBlocked: bool, startupReason: Option<BlockReason>, startupDetails: seq<Detail>,
    orphanBlocked: bool, orphanDetails: seq<Issue>, mismatches: nat, aborts: seq<Abort>, drillLink: string) {

    function AsGate(): Gate {
      Gate(startupBlocked, startupReason, startupDetails, orphanBlocked, orphanDetails, mismatches, aborts,
           desk.counters)
    }

    function WithGate(g: Gate): (s: State)
      ensures s.AsGate() == g && s.desk == desk.(counters := g.counters) && s.drillLink == drillLink
    {
      State(desk.(counters := g.counters), g.startupBlocked, g.startupReason, g.startupDetails, g.orphanBlocked,
            g.orphanDetails, g.mismatches, g.aborts, drillLink)
    }
  }

  const Start := State(FreshDesk, false, None, [], false, [], 0, [], "")

  // What a reconcile cycle gets from the exchange: everything, or a failure after the orders were already synced.
  // Both snapshots of the orders are fetched separately.
  datatype Fetch =
    | OrdersOnly(orders: seq<RemoteOrder>)
    | Everything(orders: seq<RemoteOrder>, positions: seq<Position>, ordersAgain: seq<RemoteOrder>)

  // What the exchange acknowledges a drill order with; the link id it reports need not be the one submitted.
  datatype DrillAck = DrillAck(orderId: string, linkId: string)

  datatype Event =
    | CandleClosed(portfolio: Risk.Portfolio, tripped: bool, candidates: seq<Candidate>)
    | DrillPlaced(drill: Intent, drillAck: Option<DrillAck>, when: int)
    | DrillRefused(generated: string)  // no position to reduce, or no intent to build, once the link id is generated
    | OrderStreamed(ev: OrderEvent, env: Env)
    | Reconciled(fetch: Fetch, now: int)
    | StartupInspected(symbols: seq<string>, held: seq<Position>, resting: seq<RemoteOrder>)
    | Disturbed(failure: GateEvent)

  // ---------------------------------------------------------------------------------------------
  // The steps.

  function FirstHeld(positions: seq<Position>, symbol: string): Option<Position> {
    if positions == [] then None
    else
      var before := FirstHeld(positions[..|positions| - 1], symbol);
      var p := positions[|positions| - 1];
      if before.Some? then before else if p.symbol == symbol && p.size > 0.0 then Some(p) else None
  }

  function OrdersOf(orders: seq<RemoteOrder>, symbol: string, reduceOnlyToo: bool): nat {
    if orders == [] then 0
    else
      var o := orders[|orders| - 1];
      OrdersOf(orders[..|orders| - 1], symbol, reduceOnlyToo) +
      if o.symbol == symbol && (o.reduceOnly || reduceOnlyToo) then 1 else 0
  }

  // The configured symbols found dirty: holding a position, or with resting orders that are not reduce-only.
  function DirtySymbols(symbols: seq<string>, held: seq<Position>, resting: seq<RemoteOrder>): seq<Detail> {
    if symbols == [] then []
    else
      var symbol := symbols[|symbols| - 1];
      var position := FirstHeld(held, symbol);
      var all, reduceOnly := OrdersOf(resting, symbol, true), OrdersOf(resting, symbol, false);
      DirtySymbols(symbols[..|symbols| - 1], held, resting) +
      if position.Some? || all > reduceOnly then
        [DirtySymbol(symbol, if position.Some? then position.value.size else 0.0,
                     if position.Some? then position.value.side else "", all, reduceOnly)]
      else []
  }

  // What a completed fetch makes of the book: the reports, the book after all closes, and how many took effect.
  function CycleReports(b: Book, f: Fetch, now: int): (r: (seq<Issue>, seq<Issue>, Book, nat))
    requires b.Iterable() && f.Everything?
    ensures r.2.Iterable()
  {
    var (b1, issues) := ReconcileOrders(b, f.orders);
    var unprotected := PositionIssues(b1, f.positions, f.ordersAgain, |f.positions|);
    var (b2, resolved) := CloseMissing(b1, GoneLinks(issues), now, |GoneLinks(issues)|);
    (issues, unprotected, b2, resolved)
  }

  function RunCycle(s: State, f: Fetch, now: int): (s': State)
    requires s.desk.book.Iterable()
    ensures s'.desk.book.Iterable()
  {
    match f
    case OrdersOnly(orders) => s.(desk := s.desk.(book := ReconcileOrders(s.desk.book, orders).0))
    case Everything(_, _, _) =>
      var (issues, unprotected, b, resolved) := CycleReports(s.desk.book, f, now);
      s.(desk := s.desk.(book := b)).WithGate(AfterCycle(s.AsGate(), issues, resolved, unprotected))
  }

  function TrackDrill(d: Desk, drill: Intent): (d': Desk)
    requires d.book.Iterable()
    ensures d'.book.Iterable()
  {
    d.(book := Register(d.book, drill), counters := Inc(d.counters, OrderSubmissions))
  }

  // An acknowledgement that names another link id is counted as a strategy order's.
  function TakeDrillAck(d: Desk, link: string, ack: Option<DrillAck>, when: int): (d': Desk)
    requires d.book.Iterable()
    ensures d'.book.Iterable()
  {
    if ack.None? then d
    else
      d.(book := Ack(d.book, link, ack.value.orderId, when), counters := Inc(d.counters, OrderAcks),
         outcomes := if ack.value.linkId == link then d.outcomes else d.outcomes.(acks := d.outcomes.acks + 1))
  }

  function PlaceDrill(s: State, drill: Intent, ack: Option<DrillAck>, when: int): (s': State)
    requires s.desk.book.Iterable()
    ensures s'.desk.book.Iterable()
  {
    s.(desk := TakeDrillAck(TrackDrill(s.desk, drill), drill.linkId, ack, when), drillLink := drill.linkId)
  }

  predicate Possible(e: Event) {
    (e.Disturbed? ==> e.failure.FeedWentStale? || e.failure.StartupRaised? || e.failure.TaskDied?)
  }

  ghost predicate Enabled(e: Event) { Possible(e) && (e.CandleClosed? ==> e.portfolio.positions.Listed()) }

  function Step(cfg: EntryConfig, s: State, e: Event): (s': State)
    requires s.desk.book.Iterable() && Enabled(e)
    ensures s'.desk.book.Iterable()
  {
    match e
    case CandleClosed(portfolio, tripped, cs) =>
      s.(desk := DecideAll(cfg, s.desk, Surroundings(s.startupBlocked, s.orphanBlocked, tripped, portfolio), cs))
    case DrillPlaced(drill, ack, when) => PlaceDrill(s, drill, ack, when)
    case DrillRefused(generated) => s.(drillLink := generated)
    case OrderStreamed(ev, env) => s.(desk := OnOrderEvent(s.desk, ev, env, s.drillLink))
    case Reconciled(f, now) => RunCycle(s, f, now)
    case StartupInspected(symbols, held, resting) =>
      s.WithGate(StepGate(s.AsGate(), Inspected(DirtySymbols(symbols, held, resting))))
    case Disturbed(failure) => s.WithGate(StepGate(s.AsGate(), failure))
  }

  ghost predicate AllEnabled(events: seq<Event>) { forall e | e in events :: Enabled(e) }

  function Run(cfg: EntryConfig, events: seq<Event>): (s: State)
    requires AllEnabled(events)
    ensures s.desk.book.Iterable()
  {
    if events == [] then Start
    else Step(cfg, Run(cfg, events[..|events| - 1]), events[|events| - 1])
  }

  lemma RunOneMore(cfg: EntryConfig, events: seq<Event>, e: Event)
    requires AllEnabled(events) && Enabled(e)
    ensures AllEnabled(events + [e]) && Run(cfg, events + [e]) == Step(cfg, Run(cfg, events), e)
  {
    assert (events + [e])[..|events|] == events;
  }

  lemma StepOfCycle(cfg: EntryConfig, s: State, e: Event)
    requires s.desk.book.Iterable() && e.Reconciled?
    ensures Step(cfg, s, e) == RunCycle(s, e.fetch, e.now)
  {
  }

  lemma StepOfFill(cfg: EntryConfig, s: State, ev: OrderEvent, env: Env)
    requires s.desk.book.Iterable()
    ensures Step(cfg, s, OrderStreamed(ev, env)).desk == OnOrderEvent(s.desk, ev, env, s.drillLink)
  {
  }

  // ---------------------------------------------------------------------------------------------
  // The startup inspection, in terms of what the exchange reports.

  // The orders of the symbol, all of them or the reduce-only ones.
  ghost function RestingOf(orders: seq<RemoteOrder>, symbol: string, all: bool): set<nat> {
    set i: nat | i < |orders| && orders[i].symbol == symbol && (all || orders[i].reduceOnly)
  }

  lemma RestingOneMore(orders: seq<RemoteOrder>, symbol: string, all: bool)
    requires orders != []
    ensures var n := |orders| - 1;
            var before := RestingOf(orders[..n], symbol, all);
            && n !in before
            && RestingOf(orders, symbol, all)
               == if orders[n].symbol == symbol && (all || orders[n].reduceOnly) then before + {n} else before
  {
  }

  lemma {:induction false} OrdersOfIsSize(orders: seq<RemoteOrder>, symbol: string, all: bool)
    ensures OrdersOf(orders, symbol, all) == |RestingOf(orders, symbol, all)|
  {
    if orders == [] {
      assert RestingOf(orders, symbol, all) == {};
    } else {
      OrdersOfIsSize(orders[..|orders| - 1], symbol, all);
      RestingOneMore(orders, symbol, all);
    }
  }

  ghost predicate HeldAt(positions: seq<Position>, symbol: string, n: int) {
    0 <= n < |positions| && positions[n].symbol == symbol && positions[n].size > 0.0
  }

  ghost predicate FirstAt(positions: seq<Position>, symbol: string, n: int) {
    HeldAt(positions, symbol, n) && forall m | 0 <= m < n :: !HeldAt(positions, symbol, m)
  }

  lemma {:induction false} FirstHeldIsFirst(positions: seq<Position>, symbol: string)
    ensures match FirstHeld(positions, symbol)
            case None => forall n :: !HeldAt(positions, symbol, n)
            case Some(p) => exists n :: FirstAt(positions, symbol, n) && positions[n] == p
  {
    if positions != [] {
      var n := |positions| - 1;
      FirstHeldIsFirst(positions[..n], symbol);
      HeldBefore(positions, symbol);
      if FirstHeld(positions[..n], symbol).Some? {
        var m :| FirstAt(positions[..n], symbol, m) && positions[..n][m] == FirstHeld(positions, symbol).value;
        assert FirstAt(positions, symbol, m) && positions[m] == FirstHeld(positions, symbol).value;
      } else if FirstHeld(positions, symbol).Some? {
        assert FirstAt(positions, symbol, n);
      }
    }
  }

  lemma HeldBefore(positions: seq<Position>, symbol: string)
    requires positions != []
    ensures var n := |positions| - 1;
            && (forall m | m < n :: HeldAt(positions, symbol, m) == HeldAt(positions[..n], symbol, m))
            && (forall m | FirstAt(positions[..n], symbol, m) :: FirstAt(positions, symbol, m))
  {
  }

  // A detail names a configured symbol that holds a position, or rests an order that is not reduce-only, and says how
  // much of each: the first position held, and the orders of the symbol.
  ghost predicate DetailIsDue(d: Detail, symbols: seq<string>, held: seq<Position>, resting: seq<RemoteOrder>) {
    && d.DirtySymbol? && d.symbol in symbols
    && ((exists n :: HeldAt(held, d.symbol, n))
        || exists i :: 0 <= i < |resting| && resting[i].symbol == d.symbol && !resting[i].reduceOnly)
    && d.orders == |RestingOf(resting, d.symbol, true)| && d.reduceOnlyOrders == |RestingOf(resting, d.symbol, false)|
    && (forall n | FirstAt(held, d.symbol, n) :: d.positionSize == held[n].size && d.positionSide == held[n].side)
    && ((forall n :: !HeldAt(held, d.symbol, n)) ==> d.positionSize == 0.0 && d.positionSide == "")
  }

  lemma MoreThanReduceOnly(resting: seq<RemoteOrder>, symbol: string)
    ensures |RestingOf(resting, symbol, true)| > |RestingOf(resting, symbol, false)|
       <==> exists i :: 0 <= i < |resting| && resting[i].symbol == symbol && !resting[i].reduceOnly
  {
    var all, reduceOnly := RestingOf(resting, symbol, true), RestingOf(resting, symbol, false);
    assert reduceOnly <= all && all == reduceOnly + (all - reduceOnly);
    assert |all| == |reduceOnly| + |all - reduceOnly|;
    if i :| 0 <= i < |resting| && resting[i].symbol == symbol && !resting[i].reduceOnly {
      assert i in all - reduceOnly;
    } else {
      assert all - reduceOnly == {};
    }
  }

  // What one symbol contributes.
  lemma SymbolIsInspected(symbol: string, held: seq<Position>, resting: seq<RemoteOrder>)
    ensures [symbol][..0] == []
    ensures forall d :: d in DirtySymbols([symbol], held, resting) <==> DetailIsDue(d, [symbol], held, resting)
  {
    var position := FirstHeld(held, symbol);
    FirstHeldIsFirst(held, symbol);
    OrdersOfIsSize(resting, symbol, true);
    OrdersOfIsSize(resting, symbol, false);
    MoreThanReduceOnly(resting, symbol);
    if position.Some? {
      var n :| FirstAt(held, symbol, n) && held[n] == position.value;
      assert HeldAt(held, symbol, n);
    }
  }

  lemma InspectedOneMore(symbols: seq<string>, held: seq<Position>, resting: seq<RemoteOrder>)
    requires symbols != []
    ensures DirtySymbols(symbols, held, resting)
         == DirtySymbols(symbols[..|symbols| - 1], held, resting)
            + DirtySymbols([symbols[|symbols| - 1]], held, resting)
  {
    var symbol := symbols[|symbols| - 1];
    assert [symbol][..0] == [];
    assert DirtySymbols([], held, resting) == [];
  }

  // The inspection reports exactly the details due.
  lemma {:induction false} InspectionIsExact(symbols: seq<string>, held: seq<Position>, resting: seq<RemoteOrder>)
    ensures forall d :: d in DirtySymbols(symbols, held, resting) <==> DetailIsDue(d, symbols, held, resting)
  {
    if symbols != [] {
      var before, symbol := symbols[..|symbols| - 1], symbols[|symbols| - 1];
      InspectionIsExact(before, held, resting);
      assert symbols == before + [symbol];
      InspectedOneMore(symbols, held, resting);
      SymbolIsInspected(symbol, held, resting);
      forall d ensures DetailIsDue(d, symbols, held, resting)
                  <==> DetailIsDue(d, before, held, resting) || DetailIsDue(d, [symbol], held, resting)
      {
      }
    }
  }

  // The inspection raises the startup flag exactly when some detail is due, and then says so.
  lemma InspectionRaisesFlag(
    cfg: EntryConfig, s: State, symbols: seq<string>, held: seq<Position>, resting: seq<RemoteOrder>)
    requires s.desk.book.Iterable()
    ensures var s' := Step(cfg, s, StartupInspected(symbols, held, resting));
            var dirty := exists d :: DetailIsDue(d, symbols, held, resting);
            && (s'.startupBlocked <==> s.startupBlocked || dirty)
            && (dirty ==> s'.startupReason == Some(DirtyAtStartup)
                          && forall d :: d in s'.startupDetails <==> DetailIsDue(d, symbols, held, resting))
            && (!dirty ==> s'.startupReason == s.startupReason && s'.startupDetails == s.startupDetails)
            && s'.orphanBlocked == s.orphanBlocked && s'.desk.book == s.desk.book
  {
    var details := DirtySymbols(symbols, held, resting);
    InspectionIsExact(symbols, held, resting);
    if details != [] { assert details[0] in details; }
  }

  // While a flag is up, the breaker is tripped or safe mode is on, a candle changes nothing.
  lemma HaltedCandle(cfg: EntryConfig, s: State, e: Event)
    requires s.desk.book.Iterable() && Enabled(e) && e.CandleClosed?
    requires s.startupBlocked || s.orphanBlocked || e.tripped || e.portfolio.safeMode
    ensures Step(cfg, s, e) == s
  {
    HaltedCandleChangesNothing(cfg, s.desk, Surroundings(s.startupBlocked, s.orphanBlocked, e.tripped, e.portfolio),
                               e.candidates);
  }

  // ---------------------------------------------------------------------------------------------
  // What every run keeps: the flags, the entry fills and their exits, and the counters are accounted for.

  ghost predicate Sound(s: State) {
    Accounted(s.AsGate()) && ExitsBalance(s.desk) && NoZeros(s.desk.counters)
  }

  const FlagMetrics: set<Metric> := {
    StartupStateBlocked, StartupStateBlockCleared, OrphanPositionBlocked, OrphanPositionBlockCleared}

  const ExitMetrics: set<Metric> := {
    EntryFillReceived, ExitPlanCreated, ExitTrackingRegistered, ExitOrderSubmitted, ExitOrderAckReceived,
    ExitPlacementFailed, ExitPlacementSkipped}

  // Cycles, entries and fills move counters of their own.
  lemma MetricsApart()
    ensures EntryMetrics !! FlagMetrics && EntryMetrics !! ExitMetrics && GateMetrics !! ExitMetrics
    ensures FillMetrics !! FlagMetrics && EntryFillReceived in ExitMetrics
  {
  }

  lemma StartIsSound()
    ensures Sound(Start)
  {
    FreshDeskBalances();
    StartParts();
    UnmovedGateAccounted(Start.AsGate());
  }

  lemma StartParts()
    ensures Start.AsGate() == FreshGate && Start.desk == FreshDesk && Start.desk.counters == map[]
  {
  }

  // A desk that moved no flag counter and balances its own exits.
  lemma DeskChangeIsSound(s: State, d: Desk, drillLink: string, keys: set<Metric>)
    requires Sound(s) && Moves(s.desk.counters, d.counters, keys) && keys !! FlagMetrics && ExitsBalance(d)
    ensures Sound(s.(desk := d, drillLink := drillLink))
  {
  }

  ghost predicate SameFills(d: Desk, d': Desk) {
    && d'.skips == d.skips && d'.exitsAcked == d.exitsAcked
    && d'.outcomes.filled == d.outcomes.filled && d'.outcomes.seenFilled == d.outcomes.seenFilled
  }

  lemma SameFillsKeepExits(d: Desk, d': Desk, keys: set<Metric>)
    requires ExitsBalance(d) && SameFills(d, d') && Moves(d.counters, d'.counters, keys) && keys !! ExitMetrics
    ensures ExitsBalance(d')
  {
    assert ExitCountsOf(d'.counters) == ExitCountsOf(d.counters);
  }

  lemma GateChangeIsSound(s: State, g: Gate)
    requires Sound(s) && Accounted(g) && Moves(s.desk.counters, g.counters, GateMetrics)
    ensures Sound(s.WithGate(g))
  {
    MetricsApart();
    SameFillsKeepExits(s.desk, s.desk.(counters := g.counters), GateMetrics);
  }

  lemma GateStepIsSound(s: State, e: GateEvent)
    requires Sound(s)
    ensures Sound(s.WithGate(StepGate(s.AsGate(), e)))
  {
    StepKeepsAccounts(s.AsGate(), e);
    StepMoves(s.AsGate(), e);
    GateChangeIsSound(s, StepGate(s.AsGate(), e));
  }

  lemma FillStepIsSound(s: State, ev: OrderEvent, env: Env)
    requires s.desk.book.Iterable() && Sound(s)
    ensures Sound(s.(desk := OnOrderEvent(s.desk, ev, env, s.drillLink)))
  {
    EventKeepsAccounts(s.desk, ev, env, s.drillLink);
    EventMoves(s.desk, ev, env, s.drillLink);
    FilledDeskIsSound(s, OnOrderEvent(s.desk, ev, env, s.drillLink));
  }

  lemma FilledDeskIsSound(s: State, d: Desk)
    requires Sound(s) && Moves(s.desk.counters, d.counters, FillMetrics) && ExitsBalance(d)
    ensures Sound(s.(desk := d))
  {
    DeskChangeIsSound(s, d, s.drillLink, FillMetrics);
  }

  lemma EnactingKeepsFills(cfg: EntryConfig, d: Desk, w: Surroundings, c: Candidate, ruling: Ruling)
    requires d.book.Iterable()
    ensures SameFills(d, Enact(cfg, d, w, c, ruling))
  {
    if ruling.Accepted? { EnteringKeepsFills(cfg, d, ruling.intent, c.ack, c.now); }
  }

  lemma EnteringKeepsFills(cfg: EntryConfig, d: Desk, intent: Intent, ack: Option<string>, now: int)
    requires d.book.Iterable()
    ensures SameFills(d, Enter(cfg, d, intent, ack, now))
  {
  }

  lemma {:induction false} DecisionsKeepFills(cfg: EntryConfig, d: Desk, w: Surroundings, cs: seq<Candidate>)
    requires d.book.Iterable() && w.portfolio.positions.Listed()
    ensures SameFills(d, DecideAll(cfg, d, w, cs))
  {
    if cs != [] {
      DecisionsKeepFills(cfg, d, w, cs[..|cs| - 1]);
      var d1, c := DecideAll(cfg, d, w, cs[..|cs| - 1]), cs[|cs| - 1];
      EnactingKeepsFills(cfg, d1, w, c, Judge(cfg, d1.book, w, c));
    }
  }

  lemma CandleStepIsSound(cfg: EntryConfig, s: State, w: Surroundings, cs: seq<Candidate>)
    requires s.desk.book.Iterable() && w.portfolio.positions.Listed() && Sound(s)
    ensures Sound(s.(desk := DecideAll(cfg, s.desk, w, cs)))
  {
    DecisionsMove(cfg, s.desk, w, cs);
    DecisionsKeepFills(cfg, s.desk, w, cs);
    UnrelatedChangeIsSound(s, DecideAll(cfg, s.desk, w, cs), s.drillLink);
  }

  lemma UnrelatedChangeIsSound(s: State, d: Desk, drillLink: string)
    requires Sound(s) && SameFills(s.desk, d) && Moves(s.desk.counters, d.counters, EntryMetrics)
    ensures Sound(s.(desk := d, drillLink := drillLink))
  {
    MetricsApart();
    SameFillsKeepExits(s.desk, d, EntryMetrics);
    DeskChangeIsSound(s, d, drillLink, EntryMetrics);
  }

  lemma DrillStepIsSound(s: State, drill: Intent, ack: Option<DrillAck>, when: int)
    requires s.desk.book.Iterable() && Sound(s)
    ensures Sound(PlaceDrill(s, drill, ack, when))
  {
    var m := s.desk.counters;
    MovesOn(m, m, OrderSubmissions, 1, EntryMetrics);
    MovesOn(m, Inc(m, OrderSubmissions), OrderAcks, 1, EntryMetrics);
    UnrelatedChangeIsSound(s, PlaceDrill(s, drill, ack, when).desk, drill.linkId);
  }

  lemma CycleIsSound(s: State, f: Fetch, now: int)
    requires s.desk.book.Iterable() && Sound(s)
    ensures Sound(RunCycle(s, f, now))
  {
    if f.Everything? {
      var (issues, unprotected, b, resolved) := CycleReports(s.desk.book, f, now);
      UnrelatedChangeIsSound(s, s.desk.(book := b), s.drillLink);
      GateStepIsSound(s.(desk := s.desk.(book := b)), Cycle(issues, resolved, unprotected));
    } else {
      UnrelatedChangeIsSound(s, s.desk.(book := ReconcileOrders(s.desk.book, f.orders).0), s.drillLink);
    }
  }

  lemma StepIsSound(cfg: EntryConfig, s: State, e: Event)
    requires s.desk.book.Iterable() && Enabled(e) && Sound(s)
    ensures Sound(Step(cfg, s, e))
  {
    match e
    case CandleClosed(portfolio, tripped, cs) =>
      CandleStepIsSound(cfg, s, Surroundings(s.startupBlocked, s.orphanBlocked, tripped, portfolio), cs);
    case DrillPlaced(drill, ack, when) => DrillStepIsSound(s, drill, ack, when);
    case DrillRefused(generated) => UnrelatedChangeIsSound(s, s.desk, generated);
    case OrderStreamed(ev, env) => FillStepIsSound(s, ev, env);
    case Reconciled(f, now) => CycleIsSound(s, f, now);
    case StartupInspected(symbols, held, resting) =>
      GateStepIsSound(s, Inspected(DirtySymbols(symbols, held, resting)));
    case Disturbed(failure) => GateStepIsSound(s, failure);
  }

  lemma {:induction false} RunIsSound(cfg: EntryConfig, events: seq<Event>)
    requires AllEnabled(events)
    ensures Sound(Run(cfg, events))
  {
    if events == [] {
      StartIsSound();
    } else {
      RunIsSound(cfg, events[..|events| - 1]);
      StepIsSound(cfg, Run(cfg, events[..|events| - 1]), events[|events| - 1]);
    }
  }

  // ---------------------------------------------------------------------------------------------
  // The mismatch counter and the abort latch, read off the history.

  // What an event adds to the history: whether the cycle it completes, if any, is a mismatch.
  function TraceOf(s: State, e: Event): seq<bool>
    requires s.desk.book.Iterable()
  {
    if e.Reconciled? && e.fetch.Everything? then
      var (issues, unprotected, _, resolved) := CycleReports(s.desk.book, e.fetch, e.now);
      [Mismatch(issues, resolved, unprotected)]
    else []
  }

  // Whether each completed cycle of the history was a mismatch.
  function MismatchTrace(cfg: EntryConfig, events: seq<Event>): seq<bool>
    requires AllEnabled(events)
  {
    if events == [] then []
    else
      var before, e := events[..|events| - 1], events[|events| - 1];
      MismatchTrace(cfg, before) + TraceOf(Run(cfg, before), e)
  }

  lemma CycleIsExplained(s: State, f: Fetch, now: int, trace: seq<bool>)
    requires s.desk.book.Iterable() && f.Everything? && Explains(trace, s.mismatches, s.aborts)
    ensures var s' := RunCycle(s, f, now); Explains(trace + TraceOf(s, Reconciled(f, now)), s'.mismatches, s'.aborts)
  {
    var (issues, unprotected, b, resolved) := CycleReports(s.desk.book, f, now);
    StepKeepsExplanation(trace, s.AsGate(), Cycle(issues, resolved, unprotected));
  }

  lemma StepIsExplained(cfg: EntryConfig, s: State, e: Event, trace: seq<bool>)
    requires s.desk.book.Iterable() && Enabled(e) && Explains(trace, s.mismatches, s.aborts)
    ensures var s' := Step(cfg, s, e); Explains(trace + TraceOf(s, e), s'.mismatches, s'.aborts)
  {
    assert trace + [] == trace;
    match e
    case Reconciled(f, now) => if f.Everything? { CycleIsExplained(s, f, now, trace); }
    case StartupInspected(symbols, held, resting) =>
      StepKeepsExplanation(trace, s.AsGate(), Inspected(DirtySymbols(symbols, held, resting)));
    case Disturbed(failure) => StepKeepsExplanation(trace, s.AsGate(), failure);
    case _ =>
  }

  // In every run the counter is the length of the trailing run of mismatch cycles, and the abort reason is listed once
  // if some AbortAfter consecutive completed cycles were mismatches and not at all otherwise.
  lemma {:induction false} RunExplainsCounter(cfg: EntryConfig, events: seq<Event>)
    requires AllEnabled(events)
    ensures var s := Run(cfg, events); Explains(MismatchTrace(cfg, events), s.mismatches, s.aborts)
  {
    if events != [] {
      var before, e := events[..|events| - 1], events[|events| - 1];
      RunExplainsCounter(cfg, before);
      StepIsExplained(cfg, Run(cfg, before), e, MismatchTrace(cfg, before));
    }
  }

  // ---------------------------------------------------------------------------------------------
  // Placement attempts.

  // The entry link ids a protective exit was attempted for, in order.
  function Attempts(cfg: EntryConfig, events: seq<Event>): seq<string>
    requires AllEnabled(events)
  {
    if events == [] then []
    else
      var before, e := events[..|events| - 1], events[|events| - 1];
      var s := Run(cfg, before);
      Attempts(cfg, before) +
      if e.OrderStreamed? && AttemptsExit(s.desk, e.ev, s.drillLink) then [e.ev.Link()] else []
  }

  // In every run each entry link id triggers at most one attempt, and attempts are exactly the counted entry fills.
  lemma {:induction false} AttemptsAreDistinct(cfg: EntryConfig, events: seq<Event>)
    requires AllEnabled(events)
    ensures var d := Run(cfg, events).desk;
            && Distinct(Attempts(cfg, events)) && Elements(Attempts(cfg, events)) <= d.outcomes.seenFilled
            && |Attempts(cfg, events)| == Count(d.counters, EntryFillReceived)
  {
    if events == [] {
      StartParts();
    } else {
      var before, e := events[..|events| - 1], events[|events| - 1];
      AttemptsAreDistinct(cfg, before);
      RunIsSound(cfg, before);
      AttemptsGrow(cfg, Run(cfg, before), e, Attempts(cfg, before));
    }
  }

  lemma AttemptsGrow(cfg: EntryConfig, s: State, e: Event, log: seq<string>)
    requires s.desk.book.Iterable() && Enabled(e) && ExitsBalance(s.desk)
    requires Distinct(log) && Elements(log) <= s.desk.outcomes.seenFilled
    requires |log| == Count(s.desk.counters, EntryFillReceived)
    ensures var d := Step(cfg, s, e).desk;
            var log' := log + if e.OrderStreamed? && AttemptsExit(s.desk, e.ev, s.drillLink) then [e.ev.Link()] else [];
            && Distinct(log') && Elements(log') <= d.outcomes.seenFilled
            && |log'| == Count(d.counters, EntryFillReceived)
  {
    if e.OrderStreamed? {
      EventKeepsAccounts(s.desk, e.ev, e.env, s.drillLink);
    } else {
      OtherStepsKeepFills(cfg, s, e);
      assert log + [] == log;
    }
  }

  // No entry fill is counted or recorded.
  ghost predicate FillsUntouched(d: Desk, d': Desk) {
    && d'.outcomes.seenFilled == d.outcomes.seenFilled
    && Count(d'.counters, EntryFillReceived) == Count(d.counters, EntryFillReceived)
  }

  lemma GateStepKeepsFills(s: State, e: GateEvent)
    ensures FillsUntouched(s.desk, s.WithGate(StepGate(s.AsGate(), e)).desk)
  {
    StepMoves(s.AsGate(), e);
    GateMoveKeepsFills(s, StepGate(s.AsGate(), e));
  }

  lemma GateMoveKeepsFills(s: State, g: Gate)
    requires Moves(s.desk.counters, g.counters, GateMetrics)
    ensures FillsUntouched(s.desk, s.WithGate(g).desk)
  {
    MetricsApart();
  }

  lemma CandleKeepsFills(cfg: EntryConfig, d: Desk, w: Surroundings, cs: seq<Candidate>)
    requires d.book.Iterable() && w.portfolio.positions.Listed()
    ensures FillsUntouched(d, DecideAll(cfg, d, w, cs))
  {
    DecisionsMove(cfg, d, w, cs);
    DecisionsKeepFills(cfg, d, w, cs);
    SameFillsUntouched(d, DecideAll(cfg, d, w, cs));
  }

  lemma SameFillsUntouched(d: Desk, d': Desk)
    requires SameFills(d, d') && Moves(d.counters, d'.counters, EntryMetrics)
    ensures FillsUntouched(d, d')
  {
  }

  lemma CycleKeepsFills(s: State, f: Fetch, now: int)
    requires s.desk.book.Iterable()
    ensures FillsUntouched(s.desk, RunCycle(s, f, now).desk)
  {
    if f.Everything? {
      var (issues, unprotected, b, resolved) := CycleReports(s.desk.book, f, now);
      GateStepKeepsFills(s.(desk := s.desk.(book := b)), Cycle(issues, resolved, unprotected));
    }
  }

  lemma OtherStepsKeepFills(cfg: EntryConfig, s: State, e: Event)
    requires s.desk.book.Iterable() && Enabled(e) && !e.OrderStreamed?
    ensures FillsUntouched(s.desk, Step(cfg, s, e).desk)
  {
    match e
    case CandleClosed(portfolio, tripped, cs) =>
      CandleKeepsFills(cfg, s.desk, Surroundings(s.startupBlocked, s.orphanBlocked, tripped, portfolio), cs);
    case Reconciled(f, now) => CycleKeepsFills(s, f, now);
    case StartupInspected(symbols, held, resting) =>
      GateStepKeepsFills(s, Inspected(DirtySymbols(symbols, held, resting)));
    case Disturbed(failure) => GateStepKeepsFills(s, failure);
    case DrillPlaced(drill, ack, when) =>
    case DrillRefused(_) =>
  }

  // A drill's acknowledgement is meant for the drill alone. It counts as a strategy order's exactly when there is one
  // and it names another link id.
  lemma DrillAckMiscounted(s: State, drill: Intent, ack: Option<DrillAck>, when: int)
    requires s.desk.book.Iterable()
    ensures var acks := PlaceDrill(s, drill, ack, when).desk.outcomes.acks;
            && (acks == s.desk.outcomes.acks + 1 <==> ack.Some? && ack.value.linkId != drill.linkId)
            && (acks == s.desk.outcomes.acks <==> ack.None? || ack.value.linkId == drill.linkId)
  {
  }
}
