// The orchestrator's handlers over the live order manager, statement by statement, proved against module Runtime.
module Orchestrator {
  import opened Common
  import opened BlockGate
  import opened Entries
  import opened Execution
  import opened Fills
  import Metrics
  import opened OrderBook
  import opened OrderManager
  import opened Reconciler
  import opened Reconciliation
  import Risk
  import opened Runtime
  import opened Sizing
  import opened StrategyOrders

  class Orchestrator {
    const cfg: EntryConfig
    const manager: Manager
    const reconciler: Reconciler
    const outcomes: StrategyOrderOutcomes
    const sizer: VolatilityAwareSizer
    var counters: Metrics.Counters
    var exitSkipReasons: map<SkipReason, nat>
    var exitDone: set<string>
    var guardBlocks: seq<GuardReason>
    var startupBlocked: bool
    var startupReason: Option<BlockReason>
    var startupDetails: seq<Detail>
    var orphanBlocked: bool
    var orphanDetails: seq<Issue>
    var mismatches: nat
    var aborts: seq<Abort>
    var drillLink: string

    ghost predicate Valid()
      reads manager, manager.repr
    {
      manager.Valid() && reconciler.manager == manager && sizer.cfg == cfg.sizing
    }

    ghost function AsDesk(): Desk
      reads this, manager, outcomes
    {
      Desk(manager.book, counters, outcomes.Snapshot(), exitSkipReasons, exitDone, guardBlocks)
    }

    ghost function AsState(): State
      reads this, manager, outcomes
    {
      State(AsDesk(), startupBlocked, startupReason, startupDetails, orphanBlocked, orphanDetails, mismatches, aborts,
            drillLink)
    }

    // The part reconcile cycles drive.
    function GateView(): Gate
      reads this
    {
      Gate(startupBlocked, startupReason, startupDetails, orphanBlocked, orphanDetails, mismatches, aborts, counters)
    }

    constructor (cfg: EntryConfig)
      ensures Valid() && AsState() == Start && this.cfg == cfg
      ensures fresh(manager) && fresh(outcomes) && fresh(sizer) && manager.repr == {}
    {
      this.cfg := cfg;
      var m := new Manager();
      manager := m;
      reconciler := new Reconciler(m);
      outcomes := new StrategyOrderOutcomes();
      sizer := new VolatilityAwareSizer(cfg.sizing);
      counters, exitSkipReasons, exitDone, guardBlocks := map[], map[], {}, [];
      startupBlocked, startupReason, startupDetails := false, None, [];
      orphanBlocked, orphanDetails, mismatches, aborts, drillLink := false, [], 0, [], "";
    }

    // The handlers run one after the other; whatever the events, the object ends up where the state machine does, so
    // that every statement about runs is one about it.
    method Drive(events: seq<Event>)
      requires Valid() && AsState() == Start && AllEnabled(events)
      modifies this, sizer, outcomes, manager, manager.repr
      ensures Valid() && AsState() == Run(cfg, events)
      ensures Sound(AsState()) && Explains(MismatchTrace(cfg, events), mismatches, aborts)
      ensures forall o | o in manager.repr :: o in old(manager.repr) || fresh(o)
    {
      for i := 0 to |events|
        invariant Valid() && AsState() == Run(cfg, events[..i])
        invariant forall o | o in manager.repr :: o in old(manager.repr) || fresh(o)
      {
        assert events[..i + 1][..i] == events[..i];
        Handle(events[i]);
      }
      assert events[..|events|] == events;
      RunIsSound(cfg, events);
      RunExplainsCounter(cfg, events);
    }

    // One event goes to the handler it belongs to.
    method Handle(e: Event)
      requires Valid() && Enabled(e)
      modifies this, sizer, outcomes, manager, manager.repr
      ensures Valid() && AsState() == Step(cfg, old(AsState()), e)
      ensures forall o | o in manager.repr :: o in old(manager.repr) || fresh(o)
    {
      match e
      case CandleClosed(_, _, _) => HandleEntries(e);
      case DrillPlaced(_, _, _) => HandleEntries(e);
      case DrillRefused(generated) => RefuseDrill(generated);
      case OrderStreamed(ev, env) => HandleStreamed(ev, env);
      case Reconciled(f, now) => HandleCycle(f, now);
      case StartupInspected(_, _, _) => HandleFlags(e);
      case Disturbed(_) => HandleFlags(e);
    }

    method HandleEntries(e: Event)
      requires Valid() && Enabled(e) && (e.CandleClosed? || e.DrillPlaced?)
      modifies `counters, `guardBlocks, `drillLink, sizer, outcomes, manager, manager.repr
      ensures Valid() && AsState() == Step(cfg, old(AsState()), e)
      ensures forall o | o in manager.repr :: o in old(manager.repr) || fresh(o)
    {
      match e
      case CandleClosed(portfolio, tripped, candidates) => OnCandle(portfolio, tripped, candidates);
      case DrillPlaced(drill, ack, when) => PlaceDrill(drill, ack, when);
    }

    method HandleStreamed(ev: OrderEvent, env: Env)
      requires Valid()
      modifies `counters, `exitSkipReasons, `exitDone, outcomes, manager, manager.repr
      ensures Valid() && AsState() == Step(cfg, old(AsState()), OrderStreamed(ev, env))
      ensures forall o | o in manager.repr :: o in old(manager.repr) || fresh(o)
    {
      OnOrderEvent(ev, env);
    }

    method HandleCycle(f: Fetch, now: int)
      requires Valid()
      modifies `counters, `startupBlocked, `startupReason, `startupDetails, `orphanBlocked, `orphanDetails, `mismatches
      modifies `aborts, manager, manager.repr
      ensures Valid() && AsState() == RunCycle(old(AsState()), f, now)
      ensures forall o | o in manager.repr :: o in old(manager.repr) || fresh(o)
    {
      ghost var before := AsState();
      ReconcileCycle(f, now);
      CycleLeavesDesk(before, AsState(), f, now);
    }

    method HandleFlags(e: Event)
      requires Valid() && Enabled(e) && (e.StartupInspected? || e.Disturbed?)
      modifies `counters, `startupBlocked, `startupReason, `startupDetails, `aborts
      ensures Valid() && AsState() == Step(cfg, old(AsState()), e)
    {
      match e
      case StartupInspected(symbols, held, resting) => InspectStartup(symbols, held, resting);
      case Disturbed(failure) => OnDisturbance(failure);
    }

    // The abort reasons other parts of the runtime append.
    method OnDisturbance(failure: GateEvent)
      requires failure.FeedWentStale? || failure.StartupRaised? || failure.TaskDied?
      modifies `counters, `aborts
      ensures GateView() == StepGate(old(GateView()), failure)
    {
      match failure
      case FeedWentStale => OnStaleFeed();
      case StartupRaised => aborts := aborts + [StartupFailed];
      case TaskDied(name) => OnTaskDied(name);
    }

    method OnStaleFeed()
      modifies `counters, `aborts
      ensures GateView() == StepGate(old(GateView()), FeedWentStale)
    {
      Inc(Metrics.StalenessIncidents);
      if StaleFeed !in aborts { aborts := aborts + [StaleFeed]; }
    }

    method OnTaskDied(name: string)
      modifies `counters, `aborts
      ensures GateView() == StepGate(old(GateView()), TaskDied(name))
    {
      aborts := aborts + [TaskFailed(name)];
      if name == DecisionTask { Inc(Metrics.RuntimeDecisionFailures); }
    }

    method Inc(key: Metrics.Metric)
      modifies `counters
      ensures counters == Metrics.Inc(old(counters), key)
    {
      counters := Metrics.Inc(counters, key);
    }

    // -----------------------------------------------------------------------------------------
    // Reconcile cycles.

    method ReconcileCycle(f: Fetch, now: int)
      requires Valid()
      modifies `counters, `startupBlocked, `startupReason, `startupDetails, `orphanBlocked, `orphanDetails, `mismatches
      modifies `aborts, manager, manager.repr
      ensures Valid() && manager.book == RunCycle(old(AsState()), f, now).desk.book
      ensures GateView() == RunCycle(old(AsState()), f, now).AsGate()
      ensures forall o | o in manager.repr :: o in old(manager.repr) || fresh(o)
    {
      CycleParts(AsState(), f, now);
      match f
      case OrdersOnly(orders) => var _ := reconciler.ReconcileOrders(orders);
      case Everything(_, _, _) => CompleteCycle(f, now);
    }

    method CompleteCycle(f: Fetch, now: int)
      requires Valid() && f.Everything?
      modifies `counters, `startupBlocked, `startupReason, `startupDetails, `orphanBlocked, `orphanDetails, `mismatches
      modifies `aborts, manager, manager.repr
      ensures Valid()
      ensures var (issues, unprotected, b, resolved) := CycleReports(old(manager.book), f, now);
              manager.book == b && GateView() == AfterCycle(old(GateView()), issues, resolved, unprotected)
      ensures forall o | o in manager.repr :: o in old(manager.repr) || fresh(o)
    {
      var issues := reconciler.ReconcileOrders(f.orders);
      var unprotected := reconciler.ReconcilePositions(f.positions, f.ordersAgain);
      var detected, resolved := CloseMissingOrders(issues, now);
      SettleCycle(issues, unprotected, detected, resolved);
    }

    // Close every order reported gone from the exchange.
    method CloseMissingOrders(issues: seq<Issue>, now: int) returns (detected: nat, resolved: nat)
      requires Valid()
      modifies `counters, manager, manager.repr
      ensures Valid() && manager.repr == old(manager.repr) && detected == |GoneLinks(issues)|
      ensures (manager.book, resolved) == CloseMissing(old(manager.book), GoneLinks(issues), now, detected)
      ensures counters == CountClosing(old(counters), detected, resolved)
    {
      ghost var start, base := manager.book, counters;
      detected, resolved := 0, 0;
      for i := 0 to |issues|
        invariant Valid() && manager.repr == old(manager.repr)
        invariant ClosedUpTo(issues, i, now, start, base, detected, resolved)
      {
        detected, resolved := CloseNext(issues, i, now, start, base, detected, resolved);
      }
      assert issues[..|issues|] == issues;
    }

    // The first i issues have been dealt with.
    ghost predicate ClosedUpTo(
      issues: seq<Issue>, i: nat, now: int, start: Book, base: Metrics.Counters, detected: nat, resolved: nat)
      requires i <= |issues|
      reads this, manager
    {
      && start.WellFormed() && detected == |GoneLinks(issues[..i])|
      && (manager.book, resolved) == CloseMissing(start, GoneLinks(issues[..i]), now, detected)
      && counters == CountClosing(base, detected, resolved)
    }

    method CloseNext(
      issues: seq<Issue>, i: nat, now: int, ghost start: Book, ghost base: Metrics.Counters, detected: nat,
      resolved: nat)
      returns (detected': nat, resolved': nat)
      requires Valid() && i < |issues| && ClosedUpTo(issues, i, now, start, base, detected, resolved)
      modifies `counters, manager, manager.repr
      ensures Valid() && manager.repr == old(manager.repr)
      ensures ClosedUpTo(issues, i + 1, now, start, base, detected', resolved')
    {
      detected', resolved' := detected, resolved;
      GoneLinksStep(issues, i);
      if issues[i].kind == MissingOnExchange {
        var link := if issues[i].linkId.Some? then issues[i].linkId.value else "";
        ClosedOneMore(issues, i, link, now, start, manager.book, detected, resolved);
        CountOneMore(base, detected, resolved, manager.book.OpenAt(link));
        var closed := CloseReported(link, now);
        detected', resolved' := detected + 1, if closed then resolved + 1 else resolved;
      }
    }

    method CloseReported(link: string, now: int) returns (closed: bool)
      requires Valid()
      modifies `counters, manager, manager.repr
      ensures Valid() && manager.repr == old(manager.repr)
      ensures manager.book == Close(old(manager.book), link, now) && closed == old(manager.book).OpenAt(link)
      ensures counters == CountReported(old(counters), closed)
    {
      Inc(Metrics.MissingOnExchangeDetected);
      closed := manager.MarkClosedMissingOnExchange(link, now);
      if closed { Inc(Metrics.MissingOnExchangeResolved); }
    }

    // The guarded outcomes of a cycle. The last branch, for two clean reports, is never taken: the first covers it.
    method SettleCycle(issues: seq<Issue>, unprotected: seq<Issue>, detected: nat, resolved: nat)
      requires Valid() && detected == |GoneLinks(issues)|
      modifies `counters, `startupBlocked, `startupReason, `startupDetails, `orphanBlocked, `orphanDetails, `mismatches
      modifies `aborts
      ensures Valid() && GateView() == Settle(old(GateView()), issues, resolved, unprotected)
    {
      var positionsOk := unprotected == [];
      var onlyGone := AllOfKind(issues, {MissingOnExchange});
      var allResolved := detected == 0 || resolved == detected;
      var onlySyncable := issues != [] && AllOfKind(issues, {MissingLocally, QtyMismatch});
      if onlyGone && allResolved && positionsOk {
        ResetMismatchCount();
        ClearOrphanBlock();
        ClearStartupBlock();
      } else if onlySyncable && positionsOk {
        ResetMismatchCount();
        ClearOrphanBlock();
        if AllMissingLocallyReduceOnly(issues) { ClearStartupBlock(); }
      } else if issues != [] || unprotected != [] {
        BlockOnMismatch(issues, unprotected);
      } else {
        assert false;
      }
    }

    method BlockOnMismatch(issues: seq<Issue>, unprotected: seq<Issue>)
      requires Valid()
      modifies `counters, `startupBlocked, `startupReason, `startupDetails, `orphanBlocked, `orphanDetails, `mismatches
      modifies `aborts
      ensures Valid() && GateView() == MismatchCycle(old(GateView()), issues, unprotected)
    {
      CountAndBlock(issues, unprotected);
    }

    method ResetMismatchCount()
      requires Valid()
      modifies `mismatches
      ensures Valid() && GateView() == ResetMismatches(old(GateView()))
    {
      mismatches := 0;
    }

    method ClearOrphanBlock()
      requires Valid()
      modifies `counters, `orphanBlocked, `orphanDetails
      ensures Valid() && GateView() == ClearOrphan(old(GateView()))
    {
      if orphanBlocked {
        orphanBlocked, orphanDetails := false, [];
        Inc(Metrics.OrphanPositionBlockCleared);
      }
    }

    method ClearStartupBlock()
      requires Valid()
      modifies `counters, `startupBlocked, `startupDetails
      ensures Valid() && GateView() == ClearStartup(old(GateView()))
    {
      if startupBlocked {
        startupBlocked, startupDetails := false, [];
        Inc(Metrics.StartupStateBlockCleared);
      }
    }

    method CountAndBlock(issues: seq<Issue>, unprotected: seq<Issue>)
      modifies `counters, `startupBlocked, `startupReason, `startupDetails, `orphanBlocked, `orphanDetails, `mismatches
      modifies `aborts
      ensures GateView() == MismatchCycle(old(GateView()), issues, unprotected)
    {
      Inc(Metrics.ReconcileMismatchCycles);
      mismatches := mismatches + 1;
      BlockStartupFlag();
      Describe(issues, unprotected);
      if mismatches >= AbortAfter && RepeatedReconcileMismatch !in aborts {
        aborts := aborts + [RepeatedReconcileMismatch];
      }
      counters := Metrics.Add(counters, Metrics.ReconcileIssues, |issues| + |unprotected|);
    }

    method Describe(issues: seq<Issue>, unprotected: seq<Issue>)
      modifies `counters, `startupReason, `startupDetails, `orphanBlocked, `orphanDetails
      ensures GateView() == DescribeMismatch(old(GateView()), issues, unprotected)
    {
      if unprotected != [] {
        startupReason, startupDetails := Some(MissingReduceOnlyExitFound), OrphanDetails(unprotected);
      } else if issues != [] {
        startupReason, startupDetails := Some(OrderMismatchFound), [OrderMismatch(issues)];
      }
      if unprotected != [] { BlockOrphanFlag(unprotected); }
    }

    method BlockStartupFlag()
      modifies `counters, `startupBlocked
      ensures GateView() == BlockStartup(old(GateView()))
    {
      if !startupBlocked { Inc(Metrics.StartupStateBlocked); }
      startupBlocked := true;
    }

    method BlockOrphanFlag(unprotected: seq<Issue>)
      modifies `counters, `orphanBlocked, `orphanDetails
      ensures GateView() == BlockOrphan(old(GateView()), unprotected)
    {
      if !orphanBlocked { Inc(Metrics.OrphanPositionBlocked); }
      orphanBlocked, orphanDetails := true, unprotected;
    }

    method InspectStartup(symbols: seq<string>, held: seq<Position>, resting: seq<RemoteOrder>)
      modifies `counters, `startupBlocked, `startupReason, `startupDetails
      ensures GateView() == AfterInspection(old(GateView()), DirtySymbols(symbols, held, resting))
    {
      var details: seq<Detail> := [];
      for i := 0 to |symbols|
        invariant details == DirtySymbols(symbols[..i], held, resting) && GateView() == old(GateView())
      {
        assert symbols[..i + 1][..i] == symbols[..i];
        var position := FindHeld(held, symbols[i]);
        var all, reduceOnly := CountOrders(resting, symbols[i]);
        if position.Some? || all > reduceOnly {
          details := details + [DirtySymbol(symbols[i], if position.Some? then position.value.size else 0.0,
                                            if position.Some? then position.value.side else "", all, reduceOnly)];
        }
      }
      assert symbols[..|symbols|] == symbols;
      if details != [] {
        BlockStartupFlag();
        startupDetails, startupReason := details, Some(DirtyAtStartup);
      }
    }

    method FindHeld(held: seq<Position>, symbol: string) returns (p: Option<Position>)
      ensures p == FirstHeld(held, symbol)
    {
      p := None;
      for i := 0 to |held|
        invariant p == FirstHeld(held[..i], symbol)
      {
        assert held[..i + 1][..i] == held[..i];
        if p.None? && held[i].symbol == symbol && held[i].size > 0.0 { p := Some(held[i]); }
      }
      assert held[..|held|] == held;
    }

    method CountOrders(resting: seq<RemoteOrder>, symbol: string) returns (all: nat, reduceOnly: nat)
      ensures all == OrdersOf(resting, symbol, true) && reduceOnly == OrdersOf(resting, symbol, false)
    {
      all, reduceOnly := 0, 0;
      for i := 0 to |resting|
        invariant all == OrdersOf(resting[..i], symbol, true) && reduceOnly == OrdersOf(resting[..i], symbol, false)
      {
        assert resting[..i + 1][..i] == resting[..i];
        if resting[i].symbol == symbol {
          all := all + 1;
          if resting[i].reduceOnly { reduceOnly := reduceOnly + 1; }
        }
      }
      assert resting[..|resting|] == resting;
    }

    // -----------------------------------------------------------------------------------------
    // Order events and protective exits.

    // Whether this is the tracked object under the link id.
    ghost predicate Tracks(link: string, order: ManagedOrder)
      requires manager.Valid()
      reads manager, manager.repr
    {
      && link in manager.book.byLink.entries && order == manager.objects[manager.book.byLink.entries[link]]
      && order.Snapshot() == manager.book.At(link)
    }

    method OnOrderEvent(ev: OrderEvent, env: Env)
      requires Valid()
      modifies `counters, `exitSkipReasons, `exitDone, outcomes, manager, manager.repr
      ensures Valid() && AsDesk() == Fills.OnOrderEvent(old(AsDesk()), ev, env, drillLink)
      ensures forall o | o in manager.repr :: o in old(manager.repr) || fresh(o)
    {
      var prev, prevStatus := ApplyAndRecall(ev);
      if prevStatus.Some? && prevStatus != ev.update.status { OnTransition(prev, ev, env); }
    }

    method OnTransition(prev: ManagedOrder, ev: OrderEvent, env: Env)
      requires Valid() && Tracks(ev.Link(), prev)
      modifies `counters, `exitSkipReasons, `exitDone, outcomes, manager, manager.repr
      ensures Valid() && AsDesk() == Transit(old(AsDesk()), ev.Link(), ev, env, drillLink)
      ensures forall o | o in manager.repr :: o in old(manager.repr) || fresh(o)
    {
      var link := ev.Link();
      Inc(Metrics.OrderStateTransitions);
      if link != drillLink && !("drill" in prev.metadata && prev.metadata["drill"] != "") && ev.update.status.Some? {
        CountTransition(link, prev, ev.update.status.value, ev, env);
      }
    }

    // The order tracked under the event's link id, and the status it had before the event was applied.
    method ApplyAndRecall(ev: OrderEvent) returns (prev: ManagedOrder?, prevStatus: Option<OrderStatus>)
      requires Valid()
      modifies manager, manager.repr
      ensures Valid() && manager.book == ApplyUpdate(old(manager.book), ev.update) && manager.repr == old(manager.repr)
      ensures prevStatus == PrevStatus(old(manager.book), ev.Link())
      ensures prevStatus.Some? ==> prev != null && Tracks(ev.Link(), prev)
    {
      prev := null;
      if ev.Link() != "" { prev := manager.GetByLinkId(ev.Link()); }
      prevStatus := if prev != null then Some(prev.status) else None;
      manager.ApplyOrderUpdate(ev.update);
    }

    method CountTransition(link: string, prev: ManagedOrder, status: OrderStatus, ev: OrderEvent, env: Env)
      requires Valid() && Tracks(link, prev)
      modifies `counters, `exitSkipReasons, `exitDone, outcomes, manager, manager.repr
      ensures Valid() && AsDesk() == Tally(old(AsDesk()), link, status, ev, env)
      ensures forall o | o in manager.repr :: o in old(manager.repr) || fresh(o)
    {
      if status == Filled && link !in outcomes.seenFilled {
        CountFill(link, prev, ev, env);
      } else {
        CountStatus(link, status);
      }
    }

    method CountStatus(link: string, status: OrderStatus)
      modifies outcomes
      ensures AsDesk() == NoteStatus(old(AsDesk()), link, status)
    {
      if status == New && link !in outcomes.seenNew {
        outcomes.seenNew := outcomes.seenNew + {link};
      } else if status == PartiallyFilled && link !in outcomes.seenPartiallyFilled {
        outcomes.seenPartiallyFilled := outcomes.seenPartiallyFilled + {link};
        outcomes.partiallyFilled := outcomes.partiallyFilled + 1;
      } else if status == Cancelled && link !in outcomes.seenCancelled {
        outcomes.seenCancelled := outcomes.seenCancelled + {link};
        outcomes.cancelled := outcomes.cancelled + 1;
      } else if status == Rejected && link !in outcomes.seenRejected {
        outcomes.seenRejected := outcomes.seenRejected + {link};
        outcomes.rejected := outcomes.rejected + 1;
      }
    }

    method CountFill(link: string, prev: ManagedOrder, ev: OrderEvent, env: Env)
      requires Valid() && Tracks(link, prev) && link !in outcomes.seenFilled
      modifies `counters, `exitSkipReasons, `exitDone, outcomes, manager, manager.repr
      ensures Valid() && AsDesk() == FirstFill(old(AsDesk()), link, ev, env)
      ensures forall o | o in manager.repr :: o in old(manager.repr) || fresh(o)
    {
      NoteFill(link, !prev.reduceOnly);
      if !prev.reduceOnly { PlaceProtectiveExit(link, ev, env, prev); }
    }

    method NoteFill(link: string, entry: bool)
      modifies `counters, outcomes`seenFilled, outcomes`filled
      ensures AsDesk() == RecordFill(old(AsDesk()), link, entry)
    {
      outcomes.seenFilled := outcomes.seenFilled + {link};
      outcomes.filled := outcomes.filled + 1;
      if entry { Inc(Metrics.EntryFillReceived); }
    }

    method PlaceProtectiveExit(link: string, ev: OrderEvent, env: Env, prev: ManagedOrder)
      requires Valid() && Tracks(link, prev)
      modifies `counters, `exitSkipReasons, `exitDone, outcomes, manager, manager.repr
      ensures Valid() && AsDesk() == PlaceExit(old(AsDesk()), link, ev, env)
      ensures forall o | o in manager.repr :: o in old(manager.repr) || fresh(o)
    {
      var plan := PlanProtectiveExit(ev, env, prev);
      match plan
      case Skip(reason) => SkipExit(reason);
      case NotBuildable => Inc(Metrics.ExitPlacementFailed);
      case Planned(intent) => SubmitExit(link, intent, env);
    }

    // The checks in order; the first that fails decides.
    method PlanProtectiveExit(ev: OrderEvent, env: Env, prev: ManagedOrder) returns (plan: Plan)
      ensures plan == PlanExit(prev.Snapshot(), ev, env)
    {
      if prev.reduceOnly { return Skip(ReduceOnlyFill); }
      var side := Flat;
      if "signal_action" in prev.metadata && prev.metadata["signal_action"] == "enter_long" {
        side := Long;
      } else if "signal_action" in prev.metadata && prev.metadata["signal_action"] == "enter_short" {
        side := Short;
      } else {
        return Skip(UnknownSignalAction);
      }
      var symbol := if prev.symbol != "" then prev.symbol else if ev.symbol.Some? then ev.symbol.value else "";
      if symbol == "" { return Skip(MissingSymbol); }
      var filledQty := if prev.filledQty > 0.0 then Some(prev.filledQty) else ev.update.filledQty;
      if filledQty.None? || filledQty.value <= 0.0 { return Skip(ZeroFilledQty); }
      var price := if prev.avgPrice.Some? && prev.avgPrice.value != 0.0 then prev.avgPrice else ev.update.avgPrice;
      if price.None? || price.value <= 0.0 { return Skip(MissingAvgPrice); }
      if symbol !in env.specs { return Skip(MissingSymbolSpec); }
      var spec := env.specs[symbol];
      var intent := BuildProtectiveExit(symbol, side, filledQty.value, price.value, spec.priceTick, spec.qtyStep,
                                        env.takeProfitPct, env.exitLinkId, env.now);
      return if intent.None? then NotBuildable else Planned(intent.value);
    }

    method SkipExit(reason: SkipReason)
      modifies `counters, `exitSkipReasons
      ensures AsDesk() == CountSkip(old(AsDesk()), reason)
    {
      Inc(Metrics.ExitPlacementSkipped);
      var n := if reason in exitSkipReasons then exitSkipReasons[reason] else 0;
      exitSkipReasons := exitSkipReasons[reason := n + 1];
    }

    method SubmitExit(link: string, intent: Intent, env: Env)
      requires Valid()
      modifies `counters, `exitDone, outcomes, manager, manager.repr
      ensures Valid() && AsDesk() == PlacePlanned(old(AsDesk()), link, intent, env)
      ensures forall o | o in manager.repr :: o in old(manager.repr) || fresh(o)
    {
      TrackExit(intent);
      if !env.placementEnabled {
        Inc(Metrics.ExitPlacementFailed);
        return;
      }
      SubmitTrackedExit(link, intent, env);
    }

    method TrackExit(intent: Intent)
      requires Valid()
      modifies `counters, manager
      ensures Valid() && AsDesk() == TrackPlan(old(AsDesk()), intent)
      ensures forall o | o in manager.repr :: o in old(manager.repr) || fresh(o)
    {
      CountPlan();
      TrackOrder(intent);
      CountTracking();
    }

    method CountPlan()
      requires Valid()
      modifies `counters
      ensures Valid() && AsDesk() == NoteExitPlanned(old(AsDesk()))
    {
      Inc(Metrics.ExitPlanCreated);
    }

    method CountTracking()
      requires Valid()
      modifies `counters
      ensures Valid() && AsDesk() == NoteExitTracked(old(AsDesk()))
    {
      Inc(Metrics.ExitTrackingRegistered);
    }

    method TrackOrder(intent: Intent)
      requires Valid()
      modifies manager
      ensures Valid() && AsDesk() == Tracking(old(AsDesk()), intent)
      ensures forall o | o in manager.repr :: o in old(manager.repr) || fresh(o)
    {
      var _ := manager.RegisterIntent(intent);
    }

    method SubmitTrackedExit(link: string, intent: Intent, env: Env)
      requires Valid() && intent.linkId in manager.book.byLink.entries
      modifies `counters, `exitDone, outcomes, manager, manager.repr
      ensures Valid() && AsDesk() == SubmitTracked(old(AsDesk()), link, intent, env)
      ensures manager.repr == old(manager.repr)
    {
      CountExitSubmitted();
      SubmitIntent(intent, env.ack, env.now);
      CheckExitAck(link, intent.linkId);
    }

    method CountExitSubmitted()
      requires Valid()
      modifies `counters
      ensures Valid() && AsDesk() == NoteExitSubmitted(old(AsDesk()))
    {
      Inc(Metrics.ExitOrderSubmitted);
    }

    method CheckExitAck(link: string, exitLink: string)
      requires Valid() && exitLink in manager.book.byLink.entries
      modifies `counters, `exitDone
      ensures Valid() && AsDesk() == FinishExit(old(AsDesk()), link, exitLink)
    {
      var acked := HasExchangeId(exitLink);
      if acked { MarkExitAcked(link); }
    }

    method MarkExitAcked(link: string)
      modifies `counters, `exitDone
      ensures AsDesk() == NoteExitAck(old(AsDesk()), link)
    {
      Inc(Metrics.ExitOrderAckReceived);
      exitDone := exitDone + {link};
    }

    method HasExchangeId(link: string) returns (has: bool)
      requires manager.Valid()
      ensures has <==> link in manager.book.byLink.entries && HasOrderId(manager.book.At(link))
    {
      var order := manager.GetByLinkId(link);
      return order != null && order.orderId.Some? && order.orderId.value != "";
    }

    method SubmitIntent(intent: Intent, ack: Option<string>, now: int)
      requires Valid()
      modifies `counters, outcomes`submissions, outcomes`acks, manager, manager.repr
      ensures Valid() && AsDesk() == Fills.SubmitIntent(old(AsDesk()), intent, ack, now)
      ensures manager.repr == old(manager.repr)
    {
      CountSubmission();
      if ack.Some? { TakeAck(intent.linkId, ack.value, now); }
    }

    method CountSubmission()
      requires Valid()
      modifies `counters, outcomes`submissions
      ensures Valid() && AsDesk() == NoteSubmission(old(AsDesk()))
    {
      Inc(Metrics.OrderSubmissions);
      outcomes.submissions := outcomes.submissions + 1;
    }

    method TakeAck(link: string, orderId: string, now: int)
      requires Valid()
      modifies `counters, outcomes`acks, manager, manager.repr
      ensures Valid() && AsDesk() == Fills.TakeAck(old(AsDesk()), link, orderId, now)
      ensures manager.repr == old(manager.repr)
    {
      manager.AckExchangeOrder(link, orderId, now);
      outcomes.acks := outcomes.acks + 1;
      Inc(Metrics.OrderAcks);
    }

    // -----------------------------------------------------------------------------------------
    // Entry decisions.

    method OnCandle(portfolio: Risk.Portfolio, tripped: bool, candidates: seq<Candidate>)
      requires Valid() && portfolio.positions.Listed()
      modifies `counters, `guardBlocks, sizer, outcomes, manager, manager.repr
      ensures Valid()
      ensures AsDesk() == DecideAll(cfg, old(AsDesk()), Surroundings(startupBlocked, orphanBlocked, tripped, portfolio),
                                    candidates)
      ensures forall o | o in manager.repr :: o in old(manager.repr) || fresh(o)
    {
      ghost var start := AsDesk();
      var w := Surroundings(startupBlocked, orphanBlocked, tripped, portfolio);
      for i := 0 to |candidates|
        invariant Valid() && AsDesk() == DecideAll(cfg, start, w, candidates[..i])
        invariant forall o | o in manager.repr :: o in old(manager.repr) || fresh(o)
      {
        OnNextCandidate(w, candidates, i, start);
      }
      assert candidates[..|candidates|] == candidates;
    }

    method OnNextCandidate(w: Surroundings, candidates: seq<Candidate>, i: nat, ghost start: Desk)
      requires Valid() && w.portfolio.positions.Listed() && i < |candidates| && start.book.Iterable()
      requires w.startupBlocked == startupBlocked && w.orphanBlocked == orphanBlocked
      requires AsDesk() == DecideAll(cfg, start, w, candidates[..i])
      modifies `counters, `guardBlocks, sizer, outcomes, manager, manager.repr
      ensures Valid() && AsDesk() == DecideAll(cfg, start, w, candidates[..i + 1])
      ensures forall o | o in manager.repr :: o in old(manager.repr) || fresh(o)
    {
      DecideOneMore(cfg, start, w, candidates, i);
      OnCandidate(w, candidates[i]);
    }

    method OnCandidate(w: Surroundings, c: Candidate)
      requires Valid() && w.portfolio.positions.Listed()
      requires w.startupBlocked == startupBlocked && w.orphanBlocked == orphanBlocked
      modifies `counters, `guardBlocks, sizer, outcomes, manager, manager.repr
      ensures Valid() && AsDesk() == Decide(cfg, old(AsDesk()), w, c)
      ensures forall o | o in manager.repr :: o in old(manager.repr) || fresh(o)
    {
      var passed, qty := PassesScreen(w, c);
      if passed { AdmitEntry(w, c, qty); }
    }

    // Regime, sizing, risk, model and the two block flags, in this order.
    method PassesScreen(w: Surroundings, c: Candidate) returns (passed: bool, qty: real)
      requires Valid() && w.portfolio.positions.Listed()
      requires w.startupBlocked == startupBlocked && w.orphanBlocked == orphanBlocked
      modifies sizer
      ensures passed <==> Screen(cfg, w, c).None?
      ensures passed ==> qty == SizeOf(cfg, w, c, cfg.specs[c.signal.symbol])
    {
      qty := 0.0;
      if !c.regimeAllows || c.signal.side.None? || c.signal.symbol !in cfg.specs { return false, qty; }
      var equity := if w.portfolio.equity >= 1.0 then w.portfolio.equity else 1.0;
      qty := sizer.SizeQty(
        Inputs(equity, c.signal.confidence, c.volatilityBps, c.signal.referencePrice, cfg.maxLeverage),
        cfg.specs[c.signal.symbol]);
      assert qty == SizeOf(cfg, w, c, cfg.specs[c.signal.symbol]);
      if qty <= 0.0 { return false, qty; }
      var risk := Risk.Evaluate(cfg.limits, w.tripped, c.signal, w.portfolio, NotionalOf(c.signal, qty));
      if risk != Risk.Approved { return false, qty; }
      return c.modelPasses && !startupBlocked && !orphanBlocked, qty;
    }

    // The guard, and the entry order it lets through.
    method AdmitEntry(w: Surroundings, c: Candidate, qty: real)
      requires Valid()
      modifies `counters, `guardBlocks, outcomes, manager, manager.repr
      ensures Valid()
      ensures AsDesk() == Enact(cfg, old(AsDesk()), w, c, AtGuard(cfg, old(manager.book), w, c, qty))
      ensures forall o | o in manager.repr :: o in old(manager.repr) || fresh(o)
    {
      var reason := ShouldBlockNewEntry(c.signal.symbol, HeldQty(w.portfolio, c.signal.symbol));
      if reason.Some? {
        NoteGuardBlock(reason.value);
        return;
      }
      var intent := BuildEntryIntent(c.signal, qty, cfg.offsetBps, c.linkId, c.now, cfg.forceMarketable);
      if intent.Some? {
        EnactAccepted(cfg, old(AsDesk()), w, c, intent.value);
        EnterOrder(intent.value, c.ack, c.now);
      }
    }

    method ShouldBlockNewEntry(symbol: string, qty: real) returns (reason: Option<GuardReason>)
      requires Valid()
      modifies `counters
      ensures Valid() && reason == Guard(cfg, manager.book, symbol, qty)
      ensures AsDesk() == NoteReentry(cfg, old(AsDesk()), symbol, qty)
    {
      var open, links := manager.GetOpenOrders(None);
      var entries := CountWorking(open, links, symbol, false);
      var exits := CountWorking(open, links, symbol, true);
      if cfg.allowAdds { return if entries >= cfg.maxEntries then Some(MaxConcurrentEntries) else None; }
      if !EffectivelyFlat(cfg, symbol, qty) { return Some(ExistingPosition); }
      if exits > 0 { Inc(Metrics.ReentryAllowedFlatStaleExit); }
      return if entries > 0 then Some(ExistingWorkingEntry) else None;
    }

    method CountWorking(open: seq<ManagedOrder>, ghost links: seq<string>, symbol: string, reduceOnly: bool)
      returns (n: nat)
      requires manager.Valid() && links == OpenLinks(manager.book, None, |manager.book.byLink.keys|)
      requires manager.Lists(open, links)
      ensures n == WorkingCount(manager.book, symbol, reduceOnly)
    {
      n := 0;
      WorkingAmongOpen(manager.book, symbol, reduceOnly, |manager.book.byLink.keys|);
      for i := 0 to |open|
        invariant n == WorkingIn(manager.book, symbol, reduceOnly, links[..i])
      {
        n := CountNext(open, links, symbol, reduceOnly, i, n);
      }
      assert links[..|links|] == links;
    }

    method CountNext(
      open: seq<ManagedOrder>, ghost links: seq<string>, symbol: string, reduceOnly: bool, i: nat, before: nat)
      returns (n: nat)
      requires manager.Valid() && links == OpenLinks(manager.book, None, |manager.book.byLink.keys|)
      requires manager.Lists(open, links) && i < |links|
      requires before == WorkingIn(manager.book, symbol, reduceOnly, links[..i])
      ensures n == WorkingIn(manager.book, symbol, reduceOnly, links[..i + 1])
    {
      AllOpenLinks(manager.book, links);
      WorkingInOneMore(manager.book, symbol, reduceOnly, links, i);
      var working := IsWorking(open[i], links[i], symbol, reduceOnly);
      n := if working then before + 1 else before;
    }

    method IsWorking(order: ManagedOrder, ghost link: string, symbol: string, reduceOnly: bool) returns (working: bool)
      requires manager.Valid() && link in manager.byLinkId && order == manager.byLinkId[link]
      requires manager.book.OpenAt(link)
      ensures working == Working(manager.book, symbol, reduceOnly, link)
    {
      assert order.Snapshot() == manager.book.At(link);
      return order.symbol == symbol && !("drill" in order.metadata && order.metadata["drill"] != "")
             && order.reduceOnly == reduceOnly;
    }

    method NoteGuardBlock(reason: GuardReason)
      requires Valid()
      modifies `counters, `guardBlocks
      ensures Valid() && AsDesk() == HoldBack(old(AsDesk()), reason)
    {
      guardBlocks := guardBlocks + [reason];
      match reason
      case ExistingPosition =>
        Inc(Metrics.PositionAddBlocked);
        Inc(Metrics.GuardNonFlat);
      case ExistingWorkingEntry =>
        Inc(Metrics.WorkingEntryBlocked);
        Inc(Metrics.GuardWorkingEntry);
      case MaxConcurrentEntries => Inc(Metrics.GuardMaxConcurrent);
    }

    method EnterOrder(intent: Intent, ack: Option<string>, now: int)
      requires Valid()
      modifies `counters, outcomes, manager, manager.repr
      ensures Valid() && AsDesk() == Enter(cfg, old(AsDesk()), intent, ack, now)
      ensures forall o | o in manager.repr :: o in old(manager.repr) || fresh(o)
    {
      RegisterEntry(intent);
      if cfg.placementEnabled { SubmitIntent(intent, ack, now); }
    }

    method RegisterEntry(intent: Intent)
      requires Valid()
      modifies `counters, outcomes`intents, manager
      ensures Valid() && AsDesk() == TrackEntry(old(AsDesk()), intent)
      ensures forall o | o in manager.repr :: o in old(manager.repr) || fresh(o)
    {
      TrackOrder(intent);
      CountIntent();
    }

    method CountIntent()
      requires Valid()
      modifies `counters, outcomes`intents
      ensures Valid() && AsDesk() == NoteIntent(old(AsDesk()))
    {
      Inc(Metrics.OrderIntents);
      outcomes.intents := outcomes.intents + 1;
    }

    method PlaceDrill(drill: Intent, ack: Option<DrillAck>, when: int)
      requires Valid()
      modifies `counters, `drillLink, outcomes, manager, manager.repr
      ensures Valid() && drillLink == drill.linkId
      ensures AsDesk() == TakeDrillAck(TrackDrill(old(AsDesk()), drill), drill.linkId, ack, when)
      ensures forall o | o in manager.repr :: o in old(manager.repr) || fresh(o)
    {
      drillLink := drill.linkId;
      RegisterDrill(drill);
      if ack.Some? { AckDrill(drill.linkId, ack.value, when); }
    }

    // Refused between generating the link id and registering an order: only the link id is remembered.
    method RefuseDrill(generated: string)
      requires Valid()
      modifies `drillLink
      ensures Valid() && AsState() == old(AsState()).(drillLink := generated)
    {
      drillLink := generated;
    }

    method RegisterDrill(drill: Intent)
      requires Valid()
      modifies `counters, manager
      ensures Valid() && AsDesk() == TrackDrill(old(AsDesk()), drill)
      ensures forall o | o in manager.repr :: o in old(manager.repr) || fresh(o)
    {
      var _ := manager.RegisterIntent(drill);
      Inc(Metrics.OrderSubmissions);
    }

    method AckDrill(link: string, ack: DrillAck, when: int)
      requires Valid()
      modifies `counters, outcomes`acks, manager, manager.repr
      ensures Valid() && AsDesk() == TakeDrillAck(old(AsDesk()), link, Some(ack), when)
      ensures manager.repr == old(manager.repr)
    {
      manager.AckExchangeOrder(link, ack.orderId, when);
      if link != ack.linkId { outcomes.acks := outcomes.acks + 1; }
      Inc(Metrics.OrderAcks);
    }
  }

  // A session from start to end.
  method RunSession(cfg: EntryConfig, events: seq<Event>) returns (o: Orchestrator)
    requires AllEnabled(events)
    ensures fresh(o) && o.Valid() && o.cfg == cfg && o.AsState() == Run(cfg, events) && Sound(o.AsState())
  {
    o := new Orchestrator(cfg);
    o.Drive(events);
  }

  lemma CycleParts(s: State, f: Fetch, now: int)
    requires s.desk.book.Iterable()
    ensures f.OrdersOnly? ==>
              && RunCycle(s, f, now).desk.book == Reconciliation.ReconcileOrders(s.desk.book, f.orders).0
              && RunCycle(s, f, now).AsGate() == s.AsGate()
    ensures f.Everything? ==>
              var (issues, unprotected, b, resolved) := CycleReports(s.desk.book, f, now);
              && RunCycle(s, f, now).desk.book == b
              && RunCycle(s, f, now).AsGate() == AfterCycle(s.AsGate(), issues, resolved, unprotected)
  {
  }

  // A cycle touches the book and the gate, and nothing else.
  lemma CycleLeavesDesk(s: State, s': State, f: Fetch, now: int)
    requires s.desk.book.Iterable()
    requires s'.desk.book == RunCycle(s, f, now).desk.book && s'.AsGate() == RunCycle(s, f, now).AsGate()
    requires s'.desk == s.desk.(book := s'.desk.book, counters := s'.desk.counters) && s'.drillLink == s.drillLink
    ensures s' == RunCycle(s, f, now)
  {
  }

  // The working orders of a symbol among the given open links.
  ghost function WorkingIn(b: Book, symbol: string, reduceOnly: bool, links: seq<string>): nat
    requires b.Iterable()
  {
    if links == [] then 0
    else
      WorkingIn(b, symbol, reduceOnly, links[..|links| - 1]) +
      if Working(b, symbol, reduceOnly, links[|links| - 1]) then 1 else 0
  }

  lemma WorkingInOneMore(b: Book, symbol: string, reduceOnly: bool, links: seq<string>, i: nat)
    requires b.Iterable() && i < |links|
    ensures WorkingIn(b, symbol, reduceOnly, links[..i + 1])
         == WorkingIn(b, symbol, reduceOnly, links[..i]) + if Working(b, symbol, reduceOnly, links[i]) then 1 else 0
  {
    assert links[..i + 1][..i] == links[..i];
  }

  lemma AllOpenLinks(b: Book, links: seq<string>)
    requires b.Iterable() && links == OpenLinks(b, None, |b.byLink.keys|)
    ensures forall i | 0 <= i < |links| :: b.OpenAt(links[i])
  {
    OpenLinksExact(b, None, |b.byLink.keys|);
    forall i | 0 <= i < |links| ensures b.OpenAt(links[i]) { assert links[i] in links; }
  }

  lemma {:induction false} WorkingAmongOpen(b: Book, symbol: string, reduceOnly: bool, n: nat)
    requires b.Iterable() && n <= |b.byLink.keys|
    ensures WorkingIn(b, symbol, reduceOnly, OpenLinks(b, None, n)) == WorkingAmong(b, symbol, reduceOnly, n)
  {
    if n > 0 {
      WorkingAmongOpen(b, symbol, reduceOnly, n - 1);
      var before, k := OpenLinks(b, None, n - 1), b.byLink.keys[n - 1];
      if Matches(b, None, k) { assert (before + [k])[..|before|] == before; } else { assert before + [] == before; }
    }
  }

  lemma GoneLinksStep(issues: seq<Issue>, i: nat)
    requires i < |issues|
    ensures GoneLinks(issues[..i + 1])
         == if issues[i].kind == MissingOnExchange then
              GoneLinks(issues[..i]) + [if issues[i].linkId.Some? then issues[i].linkId.value else ""]
            else GoneLinks(issues[..i])
  {
    assert issues[..i + 1][..i] == issues[..i];
  }

  // The links of the first i issues have been closed, and then one more.
  lemma ClosedOneMore(
    issues: seq<Issue>, i: nat, link: string, now: int, start: Book, book: Book, detected: nat, resolved: nat)
    requires i < |issues| && start.WellFormed() && detected == |GoneLinks(issues[..i])|
    requires GoneLinks(issues[..i + 1]) == GoneLinks(issues[..i]) + [link]
    requires (book, resolved) == CloseMissing(start, GoneLinks(issues[..i]), now, detected)
    ensures detected + 1 == |GoneLinks(issues[..i + 1])|
    ensures (Close(book, link, now), if book.OpenAt(link) then resolved + 1 else resolved)
         == CloseMissing(start, GoneLinks(issues[..i + 1]), now, detected + 1)
  {
    CloseMissingOneMore(start, GoneLinks(issues[..i]), link, now);
  }

  function CountReported(m: Metrics.Counters, closed: bool): Metrics.Counters {
    var m1 := Metrics.Inc(m, Metrics.MissingOnExchangeDetected);
    if closed then Metrics.Inc(m1, Metrics.MissingOnExchangeResolved) else m1
  }

  lemma CountOneMore(m: Metrics.Counters, detected: nat, resolved: nat, closed: bool)
    ensures CountReported(CountClosing(m, detected, resolved), closed)
         == CountClosing(m, detected + 1, if closed then resolved + 1 else resolved)
  {
  }
}
