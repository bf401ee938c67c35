// The counters of a run: orders, guard blocks and incidents, and drills kept apart from strategy orders.
module RunCounts {
  import opened Common
  import opened BlockGate
  import opened Entries
  import opened Fills
  import opened Metrics
  import opened OrderBook
  import opened Runtime
  import opened SoakReport
  import opened StrategyOrders

  // The drills of a run: placed, acknowledged, and acknowledged under a link id that is not theirs.
  datatype Drills = Drills(placed: nat, acked: nat, stray: nat)

  function DrillsOf(e: Event): Drills {
    if !e.DrillPlaced? then Drills(0, 0, 0)
    else if e.drillAck.None? then Drills(1, 0, 0)
    else Drills(1, 1, if e.drillAck.value.linkId == e.drill.linkId then 0 else 1)
  }

  function AddDrills(a: Drills, b: Drills): Drills { Drills(a.placed + b.placed, a.acked + b.acked, a.stray + b.stray) }

  function DrillsIn(events: seq<Event>): Drills {
    if events == [] then Drills(0, 0, 0)
    else AddDrills(DrillsIn(events[..|events| - 1]), DrillsOf(events[|events| - 1]))
  }

  // Strategy orders and drills make up the orders counted, stray acknowledgements are counted as strategy ones, and
  // apart from them nothing is acknowledged that was not submitted.
  ghost predicate OrdersTally(m: Counters, o: Outcomes, n: Drills) {
    && Count(m, OrderIntents) == o.intents
    && Count(m, OrderSubmissions) == o.submissions + n.placed
    && Count(m, OrderAcks) + n.stray == o.acks + n.acked
    && o.acks <= o.submissions + n.stray
  }

  // Each reason of the guard's list is counted as often as it is listed, under both of its names.
  ghost predicate GuardsTally(m: Counters, blocks: seq<GuardReason>) {
    && multiset(blocks)[ExistingPosition] == Count(m, GuardNonFlat) == Count(m, PositionAddBlocked)
    && multiset(blocks)[ExistingWorkingEntry] == Count(m, GuardWorkingEntry) == Count(m, WorkingEntryBlocked)
    && multiset(blocks)[MaxConcurrentEntries] == Count(m, GuardMaxConcurrent)
  }

  ghost predicate Tallied(d: Desk, n: Drills) {
    OrdersTally(d.counters, d.outcomes, n) && GuardsTally(d.counters, d.guardBlocks)
  }

  // The counters the tallies speak of.
  const TallyMetrics: set<Metric> := {
    OrderIntents, OrderSubmissions, OrderAcks, GuardNonFlat, PositionAddBlocked, GuardWorkingEntry, WorkingEntryBlocked,
    GuardMaxConcurrent}

  lemma OtherMovesKeepTally(m: Counters, m': Counters, keys: set<Metric>, o: Outcomes, blocks: seq<GuardReason>,
                            n: Drills)
    requires Moves(m, m', keys) && keys !! TallyMetrics && OrdersTally(m, o, n) && GuardsTally(m, blocks)
    ensures OrdersTally(m', o, n) && GuardsTally(m', blocks)
  {
  }

  lemma SubmittingTallies(d: Desk, intent: Intent, ack: Option<string>, now: int, n: Drills)
    requires d.book.WellFormed() && Tallied(d, n)
    ensures Tallied(SubmitIntent(d, intent, ack, now), n)
  {
  }

  lemma EnteringTallies(cfg: EntryConfig, d: Desk, intent: Intent, ack: Option<string>, now: int, n: Drills)
    requires d.book.Iterable() && Tallied(d, n)
    ensures Tallied(Enter(cfg, d, intent, ack, now), n)
  {
    assert Tallied(TrackEntry(d, intent), n);
    if cfg.placementEnabled { SubmittingTallies(TrackEntry(d, intent), intent, ack, now, n); }
  }

  lemma HoldingTallies(d: Desk, reason: GuardReason, n: Drills)
    requires Tallied(d, n)
    ensures Tallied(HoldBack(d, reason), n)
  {
  }

  lemma ReentryTallies(cfg: EntryConfig, d: Desk, symbol: string, qty: real, n: Drills)
    requires d.book.Iterable() && Tallied(d, n)
    ensures Tallied(NoteReentry(cfg, d, symbol, qty), n)
  {
  }

  lemma EnactingTallies(cfg: EntryConfig, d: Desk, w: Surroundings, c: Candidate, ruling: Ruling, n: Drills)
    requires d.book.Iterable() && Tallied(d, n)
    ensures Tallied(Enact(cfg, d, w, c, ruling), n)
  {
    var held := HeldQty(w.portfolio, c.signal.symbol);
    var d1 := if ReachesGuard(ruling) then NoteReentry(cfg, d, c.signal.symbol, held) else d;
    ReentryTallies(cfg, d, c.signal.symbol, held, n);
    match ruling
    case GuardHeld(reason) => HoldingTallies(d1, reason, n);
    case Accepted(intent) => EnteringTallies(cfg, d1, intent, c.ack, c.now, n);
    case _ =>
  }

  lemma {:induction false} DecisionsTally(cfg: EntryConfig, d: Desk, w: Surroundings, cs: seq<Candidate>, n: Drills)
    requires d.book.Iterable() && w.portfolio.positions.Listed() && Tallied(d, n)
    ensures Tallied(DecideAll(cfg, d, w, cs), n)
  {
    if cs != [] {
      DecisionsTally(cfg, d, w, cs[..|cs| - 1], n);
      var d1, c := DecideAll(cfg, d, w, cs[..|cs| - 1]), cs[|cs| - 1];
      EnactingTallies(cfg, d1, w, c, Judge(cfg, d1.book, w, c), n);
    }
  }

  lemma TrackingTallies(d: Desk, intent: Intent, n: Drills)
    requires d.book.WellFormed() && Tallied(d, n)
    ensures Tallied(TrackPlan(d, intent), n) && Tallied(NoteExitSubmitted(TrackPlan(d, intent)), n)
  {
  }

  lemma FinishingTallies(d: Desk, link: string, exitLink: string, n: Drills)
    requires d.book.WellFormed() && exitLink in d.book.byLink.entries && Tallied(d, n)
    ensures Tallied(FinishExit(d, link, exitLink), n)
  {
  }

  lemma PlanningTallies(d: Desk, link: string, intent: Intent, env: Env, n: Drills)
    requires d.book.WellFormed() && Tallied(d, n)
    ensures Tallied(PlacePlanned(d, link, intent, env), n)
  {
    var d1 := TrackPlan(d, intent);
    TrackingTallies(d, intent, n);
    if env.placementEnabled {
      SubmittingTallies(NoteExitSubmitted(d1), intent, env.ack, env.now, n);
      FinishingTallies(SubmitIntent(NoteExitSubmitted(d1), intent, env.ack, env.now), link, intent.linkId, n);
    }
  }

  lemma PlacingTallies(d: Desk, link: string, ev: OrderEvent, env: Env, n: Drills)
    requires d.book.WellFormed() && link in d.book.byLink.entries && Tallied(d, n)
    ensures Tallied(PlaceExit(d, link, ev, env), n)
  {
    match PlanExit(d.book.At(link), ev, env)
    case Planned(intent) => PlanningTallies(d, link, intent, env, n);
    case _ =>
  }

  lemma StatusTallies(d: Desk, link: string, status: OrderStatus, ev: OrderEvent, env: Env, n: Drills)
    requires d.book.WellFormed() && link in d.book.byLink.entries && Tallied(d, n)
    ensures Tallied(Tally(d, link, status, ev, env), n)
  {
    if status == Filled && link !in d.outcomes.seenFilled && !d.book.At(link).reduceOnly {
      assert Tallied(RecordFill(d, link, true), n);
      PlacingTallies(RecordFill(d, link, true), link, ev, env, n);
    }
  }

  lemma EventTallies(d: Desk, ev: OrderEvent, env: Env, drillLink: string, n: Drills)
    requires d.book.WellFormed() && Tallied(d, n)
    ensures Tallied(OnOrderEvent(d, ev, env, drillLink), n)
  {
    var d1 := d.(book := ApplyUpdate(d.book, ev.update));
    var prev := PrevStatus(d.book, ev.Link());
    assert Tallied(d1, n);
    if prev.Some? && prev != ev.update.status {
      var d2 := d1.(counters := Inc(d1.counters, OrderStateTransitions));
      assert Tallied(d2, n);
      if ev.update.status.Some? { StatusTallies(d2, ev.Link(), ev.update.status.value, ev, env, n); }
    }
  }

  lemma DrillTallies(s: State, drill: Intent, ack: Option<DrillAck>, when: int, n: Drills)
    requires s.desk.book.Iterable() && Tallied(s.desk, n)
    ensures Tallied(PlaceDrill(s, drill, ack, when).desk, AddDrills(n, DrillsOf(DrillPlaced(drill, ack, when))))
  {
  }

  lemma MovedGateTallies(s: State, g: Gate, n: Drills)
    requires Tallied(s.desk, n) && Moves(s.desk.counters, g.counters, GateMetrics)
    ensures Tallied(s.WithGate(g).desk, n)
  {
    assert GateMetrics !! TallyMetrics;
    OtherMovesKeepTally(s.desk.counters, g.counters, GateMetrics, s.desk.outcomes, s.desk.guardBlocks, n);
  }

  lemma GateTallies(s: State, e: GateEvent, n: Drills)
    requires Tallied(s.desk, n)
    ensures Tallied(s.WithGate(StepGate(s.AsGate(), e)).desk, n)
  {
    StepMoves(s.AsGate(), e);
    MovedGateTallies(s, StepGate(s.AsGate(), e), n);
  }

  lemma CycleTallies(s: State, f: Fetch, now: int, n: Drills)
    requires s.desk.book.Iterable() && Tallied(s.desk, n)
    ensures Tallied(RunCycle(s, f, now).desk, n)
  {
    if f.Everything? {
      var (issues, unprotected, b, resolved) := CycleReports(s.desk.book, f, now);
      GateTallies(s.(desk := s.desk.(book := b)), Cycle(issues, resolved, unprotected), n);
    }
  }

  lemma StepTallies(cfg: EntryConfig, s: State, e: Event, n: Drills)
    requires s.desk.book.Iterable() && Enabled(e) && Tallied(s.desk, n)
    ensures Tallied(Step(cfg, s, e).desk, AddDrills(n, DrillsOf(e)))
  {
    match e
    case CandleClosed(portfolio, tripped, cs) =>
      DecisionsTally(cfg, s.desk, Surroundings(s.startupBlocked, s.orphanBlocked, tripped, portfolio), cs, n);
    case DrillPlaced(drill, ack, when) => DrillTallies(s, drill, ack, when, n);
    case DrillRefused(_) =>
    case OrderStreamed(ev, env) => EventTallies(s.desk, ev, env, s.drillLink, n);
    case Reconciled(f, now) => CycleTallies(s, f, now, n);
    case StartupInspected(symbols, held, resting) =>
      GateTallies(s, Inspected(DirtySymbols(symbols, held, resting)), n);
    case Disturbed(failure) => GateTallies(s, failure, n);
  }

  lemma FreshTallies()
    ensures Tallied(Start.desk, Drills(0, 0, 0))
  {
    StartParts();
    assert FreshDesk.outcomes.intents == 0 && FreshDesk.outcomes.submissions == 0 && FreshDesk.outcomes.acks == 0;
  }

  // In every run the order counters agree with the outcome tracker and the drills placed, and the guard's counters with
  // the list of its blocks.
  lemma {:induction false} RunTallies(cfg: EntryConfig, events: seq<Event>)
    requires AllEnabled(events)
    ensures Tallied(Run(cfg, events).desk, DrillsIn(events))
  {
    if events == [] {
      FreshTallies();
    } else {
      RunTallies(cfg, events[..|events| - 1]);
      StepTallies(cfg, Run(cfg, events[..|events| - 1]), events[|events| - 1], DrillsIn(events[..|events| - 1]));
    }
  }

  // So on the report of a run more acknowledgements than submissions can only come from stray drill acknowledgements,
  // and at most one from each.
  lemma ReportedAcksAreBounded(cfg: EntryConfig, events: seq<Event>, session: Session)
    requires AllEnabled(events)
    ensures var e := BuildSoakReport(Run(cfg, events), session).execution;
            e.acked <= e.submitted + DrillsIn(events).stray
  {
    RunTallies(cfg, events);
  }

  // ---------------------------------------------------------------------------------------------
  // Drills apart from strategy orders.

  // A drill is tracked under its own link id, and bound to the order id it is acknowledged with.
  lemma DrillIsTracked(s: State, drill: Intent, ack: Option<DrillAck>, when: int)
    requires s.desk.book.Iterable() && drill.linkId !in s.desk.book.byLink.entries
    ensures var s' := PlaceDrill(s, drill, ack, when);
            && s'.drillLink == drill.linkId && drill.linkId in s'.desk.book.byLink.entries
            && var o := s'.desk.book.At(drill.linkId);
               && o.symbol == drill.symbol && o.qty == drill.qty && o.reduceOnly == drill.reduceOnly && o.status == New
               && o.orderId == if ack.Some? then Some(ack.value.orderId) else None
  {
  }

  // The link id a drill was last given.
  ghost predicate GivesDrillLink(e: Event, link: string) {
    (e.DrillPlaced? && e.drill.linkId == link) || (e.DrillRefused? && e.generated == link)
  }

  ghost predicate LeavesDrillLink(e: Event) { !e.DrillPlaced? && !e.DrillRefused? }

  lemma StepOfDrillLink(cfg: EntryConfig, s: State, e: Event)
    requires s.desk.book.Iterable() && Enabled(e)
    ensures LeavesDrillLink(e) ==> Step(cfg, s, e).drillLink == s.drillLink
    ensures !LeavesDrillLink(e) ==> GivesDrillLink(e, Step(cfg, s, e).drillLink)
  {
  }

  // In every run the drill's link id is the one generated last, whether that drill was then placed or refused.
  lemma {:induction false} DrillLinkIsLatest(cfg: EntryConfig, events: seq<Event>, n: nat)
    requires AllEnabled(events) && n < |events| && !LeavesDrillLink(events[n])
    requires forall m | n < m < |events| :: LeavesDrillLink(events[m])
    ensures GivesDrillLink(events[n], Run(cfg, events).drillLink)
  {
    var before, e := events[..|events| - 1], events[|events| - 1];
    assert events == before + [e];
    RunOneMore(cfg, before, e);
    StepOfDrillLink(cfg, Run(cfg, before), e);
    if n < |before| { DrillLinkIsLatest(cfg, before, n); }
  }

  // An event of the drill's link reaches the store and the transition count, and nothing that is the strategy's.
  lemma DrillEventsStayApart(d: Desk, ev: OrderEvent, env: Env)
    requires d.book.WellFormed()
    ensures var d' := OnOrderEvent(d, ev, env, ev.Link());
            && d'.book == ApplyUpdate(d.book, ev.update) && d'.outcomes == d.outcomes && d'.skips == d.skips
            && d'.exitsAcked == d.exitsAcked
            && forall k | k != OrderStateTransitions :: Count(d'.counters, k) == Count(d.counters, k)
  {
  }

  // A transition is counted exactly when the event names a tracked order by its link id and its status, if it has one,
  // is not the order's already.
  lemma TransitionCounted(d: Desk, ev: OrderEvent, env: Env, drillLink: string)
    requires d.book.WellFormed()
    ensures var tracked := ev.update.linkId.Some? && ev.update.linkId.value != ""
                           && ev.update.linkId.value in d.book.byLink.entries;
            Count(OnOrderEvent(d, ev, env, drillLink).counters, OrderStateTransitions)
            == Count(d.counters, OrderStateTransitions)
               + Flag(tracked && ev.update.status != Some(d.book.At(ev.update.linkId.value).status))
  {
    var d1 := d.(book := ApplyUpdate(d.book, ev.update), counters := Inc(d.counters, OrderStateTransitions));
    var link := ev.Link();
    if PrevStatus(d.book, link).Some? && ev.update.status.Some? {
      StatusMovesNoTransition(d1, link, ev.update.status.value, ev, env);
    }
  }

  lemma PlanMovesNoTransition(d: Desk, link: string, exit: Intent, env: Env)
    requires d.book.WellFormed()
    ensures Count(PlacePlanned(d, link, exit, env).counters, OrderStateTransitions)
         == Count(d.counters, OrderStateTransitions)
  {
    var d1 := TrackPlan(d, exit);
    assert Count(d1.counters, OrderStateTransitions) == Count(d.counters, OrderStateTransitions);
    if env.placementEnabled {
      var d2 := SubmitIntent(NoteExitSubmitted(d1), exit, env.ack, env.now);
      assert Count(d2.counters, OrderStateTransitions) == Count(d1.counters, OrderStateTransitions);
    }
  }

  lemma StatusMovesNoTransition(d: Desk, link: string, status: OrderStatus, ev: OrderEvent, env: Env)
    requires d.book.WellFormed() && link in d.book.byLink.entries
    ensures Count(Tally(d, link, status, ev, env).counters, OrderStateTransitions)
         == Count(d.counters, OrderStateTransitions)
  {
    if status == Filled && link !in d.outcomes.seenFilled && !d.book.At(link).reduceOnly {
      var d1 := RecordFill(d, link, true);
      assert Count(d1.counters, OrderStateTransitions) == Count(d.counters, OrderStateTransitions);
      match PlanExit(d1.book.At(link), ev, env)
      case Planned(exit) => PlanMovesNoTransition(d1, link, exit, env);
      case _ =>
    }
  }

  // ---------------------------------------------------------------------------------------------
  // Incidents.

  // How often a failure happened.
  function Times(events: seq<Event>, failure: GateEvent): nat {
    if events == [] then 0
    else Times(events[..|events| - 1], failure) + Flag(events[|events| - 1] == Disturbed(failure))
  }

  // Each stale feed and each failed decision task is counted; a stale feed is listed among the abort reasons once, the
  // other failures each time.
  ghost predicate IncidentsTally(m: Counters, aborts: seq<Abort>, times: GateEvent -> nat) {
    && Count(m, StalenessIncidents) == times(FeedWentStale)
    && Count(m, RuntimeDecisionFailures) == times(TaskDied("runtime-decision"))
    && Occurrences(aborts, StaleFeed) == Flag(times(FeedWentStale) > 0)
    && Occurrences(aborts, StartupFailed) == times(StartupRaised)
    && forall name :: Occurrences(aborts, TaskFailed(name)) == times(TaskDied(name))
  }

  ghost function TimesIn(events: seq<Event>): GateEvent -> nat { failure => Times(events, failure) }

  // The step left every incident as it was.
  ghost predicate NoIncident(s: State, s': State) {
    && Count(s'.desk.counters, StalenessIncidents) == Count(s.desk.counters, StalenessIncidents)
    && Count(s'.desk.counters, RuntimeDecisionFailures) == Count(s.desk.counters, RuntimeDecisionFailures)
    && forall a | a != RepeatedReconcileMismatch :: Occurrences(s'.aborts, a) == Occurrences(s.aborts, a)
  }

  lemma CycleIsNoIncident(s: State, f: Fetch, now: int)
    requires s.desk.book.Iterable()
    ensures NoIncident(s, RunCycle(s, f, now))
  {
    if f.Everything? {
      var (issues, unprotected, b, resolved) := CycleReports(s.desk.book, f, now);
      CycleKeepsIncidents(s.AsGate(), issues, resolved, unprotected);
      AbortsAfterCycle(s.AsGate(), issues, resolved, unprotected);
    }
  }

  lemma DeskMoveIsNoIncident(s: State, s': State, keys: set<Metric>)
    requires s'.aborts == s.aborts && Moves(s.desk.counters, s'.desk.counters, keys)
    requires keys !! {StalenessIncidents, RuntimeDecisionFailures}
    ensures NoIncident(s, s')
  {
  }

  lemma CandleIsNoIncident(cfg: EntryConfig, s: State, w: Surroundings, cs: seq<Candidate>)
    requires s.desk.book.Iterable() && w.portfolio.positions.Listed()
    ensures NoIncident(s, s.(desk := DecideAll(cfg, s.desk, w, cs)))
  {
    DecisionsMove(cfg, s.desk, w, cs);
    DeskMoveIsNoIncident(s, s.(desk := DecideAll(cfg, s.desk, w, cs)), EntryMetrics);
  }

  lemma EventIsNoIncident(s: State, ev: OrderEvent, env: Env)
    requires s.desk.book.Iterable()
    ensures NoIncident(s, s.(desk := OnOrderEvent(s.desk, ev, env, s.drillLink)))
  {
    EventMoves(s.desk, ev, env, s.drillLink);
    DeskMoveIsNoIncident(s, s.(desk := OnOrderEvent(s.desk, ev, env, s.drillLink)), FillMetrics);
  }

  lemma InspectionIsNoIncident(s: State, details: seq<Detail>)
    ensures NoIncident(s, s.WithGate(StepGate(s.AsGate(), Inspected(details))))
  {
  }

  lemma DrillIsNoIncident(s: State, drill: Intent, ack: Option<DrillAck>, when: int)
    requires s.desk.book.Iterable()
    ensures NoIncident(s, PlaceDrill(s, drill, ack, when))
  {
  }

  lemma OtherStepsAreNoIncident(cfg: EntryConfig, s: State, e: Event)
    requires s.desk.book.Iterable() && Enabled(e) && !e.Disturbed?
    ensures NoIncident(s, Step(cfg, s, e))
  {
    match e
    case CandleClosed(portfolio, tripped, cs) =>
      CandleIsNoIncident(cfg, s, Surroundings(s.startupBlocked, s.orphanBlocked, tripped, portfolio), cs);
    case OrderStreamed(ev, env) => EventIsNoIncident(s, ev, env);
    case Reconciled(f, now) => CycleIsNoIncident(s, f, now);
    case DrillPlaced(drill, ack, when) => DrillIsNoIncident(s, drill, ack, when);
    case StartupInspected(symbols, held, resting) => InspectionIsNoIncident(s, DirtySymbols(symbols, held, resting));
    case DrillRefused(_) =>
  }

  lemma FailureIsTallied(g: Gate, events: seq<Event>, failure: GateEvent)
    requires failure.FeedWentStale? || failure.StartupRaised? || failure.TaskDied?
    requires IncidentsTally(g.counters, g.aborts, TimesIn(events))
    ensures var g' := StepGate(g, failure);
            IncidentsTally(g'.counters, g'.aborts, TimesIn(events + [Disturbed(failure)]))
  {
    TimesOneMore(events, Disturbed(failure));
  }

  lemma TimesOneMore(events: seq<Event>, e: Event)
    ensures forall f :: Times(events + [e], f) == Times(events, f) + Flag(e == Disturbed(f))
  {
    assert (events + [e])[..|events|] == events;
  }

  lemma QuietStepIsTallied(s: State, s': State, events: seq<Event>, e: Event)
    requires NoIncident(s, s') && !e.Disturbed? && IncidentsTally(s.desk.counters, s.aborts, TimesIn(events))
    ensures IncidentsTally(s'.desk.counters, s'.aborts, TimesIn(events + [e]))
  {
    TimesOneMore(events, e);
  }

  lemma StepOfFailure(cfg: EntryConfig, s: State, e: Event)
    requires s.desk.book.Iterable() && Enabled(e) && e.Disturbed?
    ensures Step(cfg, s, e).AsGate() == StepGate(s.AsGate(), e.failure)
  {
  }

  // In every run the incidents are counted and listed as often as they happened.
  lemma {:induction false} IncidentsAreTallied(cfg: EntryConfig, events: seq<Event>)
    requires AllEnabled(events)
    ensures IncidentsTally(Run(cfg, events).desk.counters, Run(cfg, events).aborts, TimesIn(events))
  {
    if events == [] {
      StartParts();
    } else {
      var before, e := events[..|events| - 1], events[|events| - 1];
      assert events == before + [e];
      RunOneMore(cfg, before, e);
      IncidentsAreTallied(cfg, before);
      OneMoreIsTallied(cfg, Run(cfg, before), before, e);
    }
  }

  lemma OneMoreIsTallied(cfg: EntryConfig, s: State, events: seq<Event>, e: Event)
    requires s.desk.book.Iterable() && Enabled(e) && IncidentsTally(s.desk.counters, s.aborts, TimesIn(events))
    ensures var s' := Step(cfg, s, e); IncidentsTally(s'.desk.counters, s'.aborts, TimesIn(events + [e]))
  {
    if e.Disturbed? {
      StepOfFailure(cfg, s, e);
      FailureIsTallied(s.AsGate(), events, e.failure);
    } else {
      OtherStepsAreNoIncident(cfg, s, e);
      QuietStepIsTallied(s, Step(cfg, s, e), events, e);
    }
  }
}
