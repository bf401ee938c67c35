// The two block flags, the mismatch counter and the abort latch that reconcile cycles drive.
module BlockGate {
  import opened Common
  import opened Metrics
  import opened Reconciliation

  datatype BlockReason = DirtyAtStartup | MissingReduceOnlyExitFound | OrderMismatchFound

  datatype Detail =
    | DirtySymbol(symbol: string, positionSize: real, positionSide: string, orders: nat, reduceOnlyOrders: nat)
    | OrphanPosition(issue: Issue)
    | OrderMismatch(issues: seq<Issue>)

  datatype Abort = RepeatedReconcileMismatch | StaleFeed | StartupFailed | TaskFailed(name: string)

  datatype Gate = Gate(
    startupBlocked: bool, startupReason: Option<BlockReason>, startupDetails: seq<Detail>,
    orphanBlocked: bool, orphanDetails: seq<Issue>,
    mismatches: nat, aborts: seq<Abort>, counters: Counters)

  const FreshGate := Gate(false, None, [], false, [], 0, [], map[])

  const AbortAfter := 3

  const DecisionTask := "runtime-decision"

  // ---------------------------------------------------------------------------------------------
  // The steps.

  function ClearOrphan(g: Gate): Gate {
    if !g.orphanBlocked then g
    else g.(orphanBlocked := false, orphanDetails := [], counters := Inc(g.counters, OrphanPositionBlockCleared))
  }

  function ClearStartup(g: Gate): Gate {
    if !g.startupBlocked then g
    else g.(startupBlocked := false, startupDetails := [], counters := Inc(g.counters, StartupStateBlockCleared))
  }

  function BlockStartup(g: Gate): Gate {
    g.(startupBlocked := true,
       counters := if g.startupBlocked then g.counters else Inc(g.counters, StartupStateBlocked))
  }

  function BlockOrphan(g: Gate, orphans: seq<Issue>): Gate {
    g.(orphanBlocked := true, orphanDetails := orphans,
       counters := if g.orphanBlocked then g.counters else Inc(g.counters, OrphanPositionBlocked))
  }

  function OrphanDetails(orphans: seq<Issue>): (d: seq<Detail>)
    ensures |d| == |orphans|
  {
    seq(|orphans|, i requires 0 <= i < |orphans| => OrphanPosition(orphans[i]))
  }

  function LatchAbort(g: Gate): Gate {
    if g.mismatches >= AbortAfter && RepeatedReconcileMismatch !in g.aborts then
      g.(aborts := g.aborts + [RepeatedReconcileMismatch])
    else g
  }

  predicate AllOfKind(issues: seq<Issue>, kinds: set<IssueKind>) {
    forall i | i in issues :: i.kind in kinds
  }

  predicate AllMissingLocallyReduceOnly(issues: seq<Issue>) {
    forall i | i in issues && i.kind == MissingLocally :: i.reduceOnly == Some(true)
  }

  // Only orders gone from the exchange, all of them closed locally, and no unprotected position.
  predicate RecoveredByClosing(orders: seq<Issue>, resolved: nat, positions: seq<Issue>) {
    && AllOfKind(orders, {MissingOnExchange})
    && (|GoneLinks(orders)| == 0 || resolved == |GoneLinks(orders)|)
    && positions == []
  }

  // Only orders the pass has already synced from the snapshot, and no unprotected position.
  predicate RecoveredBySync(orders: seq<Issue>, positions: seq<Issue>) {
    orders != [] && AllOfKind(orders, {MissingLocally, QtyMismatch}) && positions == []
  }

  predicate Mismatch(orders: seq<Issue>, resolved: nat, positions: seq<Issue>) {
    !RecoveredByClosing(orders, resolved, positions) && !RecoveredBySync(orders, positions)
  }

  // Orders found gone from the exchange, and those of them closed locally.
  function CountClosing(m: Counters, detected: nat, resolved: nat): Counters {
    var m1 := if detected == 0 then m else Add(m, MissingOnExchangeDetected, detected);
    if resolved == 0 then m1 else Add(m1, MissingOnExchangeResolved, resolved)
  }

  function CountGone(g: Gate, orders: seq<Issue>, resolved: nat): Gate {
    g.(counters := CountClosing(g.counters, |GoneLinks(orders)|, resolved))
  }

  function DescribeMismatch(g: Gate, orders: seq<Issue>, positions: seq<Issue>): Gate {
    if positions != [] then
      BlockOrphan(g.(startupReason := Some(MissingReduceOnlyExitFound), startupDetails := OrphanDetails(positions)),
                  positions)
    else if orders != [] then
      g.(startupReason := Some(OrderMismatchFound), startupDetails := [OrderMismatch(orders)])
    else g
  }

  function CountMismatch(g: Gate): Gate {
    g.(mismatches := g.mismatches + 1, counters := Inc(g.counters, ReconcileMismatchCycles))
  }

  function CountIssues(g: Gate, n: nat): Gate { g.(counters := Add(g.counters, ReconcileIssues, n)) }

  function MismatchCycle(g: Gate, orders: seq<Issue>, positions: seq<Issue>): Gate {
    var g1 := DescribeMismatch(BlockStartup(CountMismatch(g)), orders, positions);
    LatchAbort(CountIssues(g1, |orders| + |positions|))
  }

  function ResetMismatches(g: Gate): Gate { g.(mismatches := 0) }

  // How the flags and the counter follow from the two reports.
  function Settle(g: Gate, orders: seq<Issue>, resolved: nat, positions: seq<Issue>): Gate {
    if RecoveredByClosing(orders, resolved, positions) then
      ClearStartup(ClearOrphan(ResetMismatches(g)))
    else if RecoveredBySync(orders, positions) then
      var g1 := ClearOrphan(ResetMismatches(g));
      if AllMissingLocallyReduceOnly(orders) then ClearStartup(g1) else g1
    else MismatchCycle(g, orders, positions)
  }

  // The gate after a completed cycle, given both reports and how many orders gone from the exchange were closed.
  function AfterCycle(g: Gate, orders: seq<Issue>, resolved: nat, positions: seq<Issue>): Gate {
    Settle(CountGone(g, orders, resolved), orders, resolved, positions)
  }

  // The inspection of the exchange at startup; details lists the dirty symbols.
  function AfterInspection(g: Gate, details: seq<Detail>): Gate {
    if details == [] then g
    else BlockStartup(g).(startupDetails := details, startupReason := Some(DirtyAtStartup))
  }

  // Everything that touches the gate: completed reconcile cycles, the startup inspection, and the abort reasons other
  // parts of the runtime append (a stale feed once, the others each time).
  datatype GateEvent =
    | Cycle(orders: seq<Issue>, resolved: nat, positions: seq<Issue>)
    | Inspected(details: seq<Detail>)
    | FeedWentStale
    | StartupRaised
    | TaskDied(name: string)

  function StepGate(g: Gate, e: GateEvent): Gate {
    match e
    case Cycle(o, r, p) => AfterCycle(g, o, r, p)
    case Inspected(d) => AfterInspection(g, d)
    case FeedWentStale =>
      g.(aborts := if StaleFeed in g.aborts then g.aborts else g.aborts + [StaleFeed],
         counters := Inc(g.counters, StalenessIncidents))
    case StartupRaised => g.(aborts := g.aborts + [StartupFailed])
    case TaskDied(name) =>
      g.(aborts := g.aborts + [TaskFailed(name)],
         counters := if name == DecisionTask then Inc(g.counters, RuntimeDecisionFailures) else g.counters)
  }

  // ---------------------------------------------------------------------------------------------
  // Every flag is accounted for.

  function Flag(b: bool): nat { if b then 1 else 0 }

  // The blocks counted minus the clears counted say whether the flag is up.
  ghost predicate Balanced(g: Gate) {
    && Count(g.counters, StartupStateBlocked) == Count(g.counters, StartupStateBlockCleared) + Flag(g.startupBlocked)
    && Count(g.counters, OrphanPositionBlocked) == Count(g.counters, OrphanPositionBlockCleared) + Flag(g.orphanBlocked)
  }

  // Moreover details are kept exactly while a flag is up, and an orphan block never stands alone.
  ghost predicate Accounted(g: Gate) {
    && Balanced(g)
    && (g.startupBlocked <==> g.startupDetails != [])
    && (g.orphanBlocked <==> g.orphanDetails != [])
    && (g.orphanBlocked ==> g.startupBlocked)
  }

  lemma SwitchesKeepBalance(g: Gate, orphans: seq<Issue>)
    requires Balanced(g)
    ensures Balanced(ClearOrphan(g)) && Balanced(ClearStartup(g))
    ensures Balanced(BlockStartup(g)) && Balanced(BlockOrphan(g, orphans))
  {
  }

  lemma DescribingKeepsBalance(g: Gate, orders: seq<Issue>, positions: seq<Issue>)
    requires Balanced(g)
    ensures Balanced(DescribeMismatch(g, orders, positions))
  {
  }

  lemma MismatchCycleKeepsBalance(g: Gate, orders: seq<Issue>, positions: seq<Issue>)
    requires Balanced(g)
    ensures Balanced(MismatchCycle(g, orders, positions))
  {
    OtherCountersKeepBalance(g.(mismatches := g.mismatches + 1), ReconcileMismatchCycles, 1);
    SwitchesKeepBalance(CountMismatch(g), positions);
    DescribingKeepsBalance(BlockStartup(CountMismatch(g)), orders, positions);
    var g1 := DescribeMismatch(BlockStartup(CountMismatch(g)), orders, positions);
    OtherCountersKeepBalance(g1, ReconcileIssues, |orders| + |positions|);
    LatchKeepsBalance(CountIssues(g1, |orders| + |positions|));
  }

  lemma LatchKeepsBalance(g: Gate)
    requires Balanced(g)
    ensures Balanced(LatchAbort(g))
  {
  }

  lemma OtherCountersKeepBalance(g: Gate, key: Metric, n: nat)
    requires Balanced(g)
    requires key !in {StartupStateBlocked, StartupStateBlockCleared, OrphanPositionBlocked, OrphanPositionBlockCleared}
    ensures Balanced(g.(counters := Add(g.counters, key, n)))
  {
  }

  lemma CountingKeepsBalance(g: Gate, orders: seq<Issue>, resolved: nat)
    requires Balanced(g)
    ensures Balanced(ResetMismatches(CountGone(g, orders, resolved))) && Balanced(CountGone(g, orders, resolved))
  {
  }

  lemma AfterCycleKeepsBalance(g: Gate, orders: seq<Issue>, resolved: nat, positions: seq<Issue>)
    requires Balanced(g)
    ensures Balanced(AfterCycle(g, orders, resolved, positions))
  {
    CountingKeepsBalance(g, orders, resolved);
    var g0 := CountGone(g, orders, resolved);
    SwitchesKeepBalance(ResetMismatches(g0), positions);
    SwitchesKeepBalance(ClearOrphan(ResetMismatches(g0)), positions);
    MismatchCycleKeepsBalance(g0, orders, positions);
  }

  // The flags after a cycle, branch by branch.
  lemma FlagsByBranch(g: Gate, orders: seq<Issue>, resolved: nat, positions: seq<Issue>)
    ensures var g' := AfterCycle(g, orders, resolved, positions);
            && g'.orphanBlocked == (if Mismatch(orders, resolved, positions) then g.orphanBlocked || positions != []
                                    else false)
            && g'.startupBlocked == (Mismatch(orders, resolved, positions)
                                     || (g.startupBlocked && orders != [] && !AllOfKind(orders, {MissingOnExchange})
                                         && !AllMissingLocallyReduceOnly(orders)))
            && g'.mismatches == (if Mismatch(orders, resolved, positions) then g.mismatches + 1 else 0)
  {
    assert RecoveredBySync(orders, positions) ==> orders[0] in orders && !AllOfKind(orders, {MissingOnExchange});
    assert orders == [] && positions == [] ==> RecoveredByClosing(orders, resolved, positions);
  }

  lemma {:induction false} AllGoneAreLinked(issues: seq<Issue>)
    requires forall i | i in issues :: i.kind == MissingOnExchange
    ensures |GoneLinks(issues)| == |issues|
  {
    if issues != [] {
      assert issues[|issues| - 1] in issues;
      AllGoneAreLinked(issues[..|issues| - 1]);
    }
  }

  // A cycle is a mismatch unless every position is protected and the orders were either all gone from the exchange and
  // all closed, or all synced from it.
  lemma MismatchMeans(orders: seq<Issue>, resolved: nat, positions: seq<Issue>)
    ensures Mismatch(orders, resolved, positions) <==>
            || positions != []
            || ((resolved != |orders| || exists i :: i in orders && i.kind != MissingOnExchange)
                && (exists i :: i in orders && i.kind != MissingLocally && i.kind != QtyMismatch))
  {
    if forall i | i in orders :: i.kind == MissingOnExchange { AllGoneAreLinked(orders); }
    if orders != [] { assert orders[0] in orders; }
  }

  // The flags and the counter after a cycle, from their values before and the two reports alone. The startup flag
  // survives a repaired cycle exactly when an order unknown locally is not a reduce-only one.
  lemma FlagsAfterCycle(g: Gate, orders: seq<Issue>, resolved: nat, positions: seq<Issue>)
    ensures var g' := AfterCycle(g, orders, resolved, positions);
            var onlyGone := forall i | i in orders :: i.kind == MissingOnExchange;
            var onlyToSync := forall i | i in orders :: i.kind == MissingLocally || i.kind == QtyMismatch;
            var repaired := positions == [] && (onlyToSync || (onlyGone && resolved == |orders|));
            var exposed := exists i :: i in orders && i.kind == MissingLocally && i.reduceOnly != Some(true);
            && g'.orphanBlocked == (!repaired && (g.orphanBlocked || positions != []))
            && g'.startupBlocked == (!repaired || (g.startupBlocked && exposed))
            && g'.mismatches == (if repaired then 0 else g.mismatches + 1)
  {
    FlagsByBranch(g, orders, resolved, positions);
    MismatchMeans(orders, resolved, positions);
    assert AllMissingLocallyReduceOnly(orders) <==>
           !exists i :: i in orders && i.kind == MissingLocally && i.reduceOnly != Some(true);
    assert AllOfKind(orders, {MissingLocally, QtyMismatch}) <==>
           forall i | i in orders :: i.kind == MissingLocally || i.kind == QtyMismatch;
  }

  lemma DetailsAfterCycle(g: Gate, orders: seq<Issue>, resolved: nat, positions: seq<Issue>)
    requires Accounted(g)
    ensures var g' := AfterCycle(g, orders, resolved, positions);
            && (g'.startupBlocked <==> g'.startupDetails != []) && (g'.orphanBlocked <==> g'.orphanDetails != [])
  {
    assert orders == [] && positions == [] ==> RecoveredByClosing(orders, resolved, positions);
  }

  lemma StepKeepsAccounts(g: Gate, e: GateEvent)
    requires Accounted(g)
    ensures Accounted(StepGate(g, e))
  {
    match e
    case Cycle(o, r, p) =>
      AfterCycleKeepsBalance(g, o, r, p);
      FlagsByBranch(g, o, r, p);
      DetailsAfterCycle(g, o, r, p);
    case Inspected(d) => SwitchesKeepBalance(g, []);
    case _ =>
  }

  lemma UnmovedGateAccounted(g: Gate)
    requires g.counters == map[] && !g.startupBlocked && !g.orphanBlocked && g.startupDetails == []
             && g.orphanDetails == []
    ensures Accounted(g)
  {
  }

  // A flag comes down only in a cycle that found every non-flat position protected, and that closed or synced every
  // order it reported.
  lemma ClearsOnlyWhenProtected(g: Gate, e: GateEvent)
    requires (g.startupBlocked && !StepGate(g, e).startupBlocked) || (g.orphanBlocked && !StepGate(g, e).orphanBlocked)
    ensures e.Cycle? && e.positions == []
    ensures || (e.resolved == |e.orders| && forall i | i in e.orders :: i.kind == MissingOnExchange)
            || (forall i | i in e.orders :: i.kind == MissingLocally || i.kind == QtyMismatch)
  {
    if e.Cycle? {
      FlagsByBranch(g, e.orders, e.resolved, e.positions);
      MismatchMeans(e.orders, e.resolved, e.positions);
    }
  }

  // What a cycle counts: every order found gone and every close that took effect, and for a mismatch the cycle, all
  // issues of both reports, and each flag it raises; a repaired cycle counts the flags it clears.
  lemma CountsAfterCycle(g: Gate, orders: seq<Issue>, resolved: nat, positions: seq<Issue>)
    ensures var g' := AfterCycle(g, orders, resolved, positions);
            var mismatch := Flag(g'.mismatches > 0);
            && Count(g'.counters, MissingOnExchangeDetected)
               == Count(g.counters, MissingOnExchangeDetected) + |GoneLinks(orders)|
            && Count(g'.counters, MissingOnExchangeResolved) == Count(g.counters, MissingOnExchangeResolved) + resolved
            && Count(g'.counters, ReconcileMismatchCycles) == Count(g.counters, ReconcileMismatchCycles) + mismatch
            && Count(g'.counters, ReconcileIssues)
               == Count(g.counters, ReconcileIssues) + mismatch * (|orders| + |positions|)
            && Count(g'.counters, StartupStateBlocked)
               == Count(g.counters, StartupStateBlocked) + Flag(g'.startupBlocked && !g.startupBlocked)
            && Count(g'.counters, OrphanPositionBlocked)
               == Count(g.counters, OrphanPositionBlocked) + Flag(g'.orphanBlocked && !g.orphanBlocked)
  {
    GoneAreCounted(g.counters, |GoneLinks(orders)|, resolved);
    var g0 := CountGone(g, orders, resolved);
    assert AfterCycle(g, orders, resolved, positions) == Settle(g0, orders, resolved, positions);
    if Mismatch(orders, resolved, positions) {
      MismatchIsCounted(g0, orders, positions);
    } else {
      RepairIsCounted(g0, orders, resolved, positions);
    }
  }

  lemma GoneAreCounted(m: Counters, detected: nat, resolved: nat)
    ensures var m' := CountClosing(m, detected, resolved);
            && Count(m', MissingOnExchangeDetected) == Count(m, MissingOnExchangeDetected) + detected
            && Count(m', MissingOnExchangeResolved) == Count(m, MissingOnExchangeResolved) + resolved
            && forall k | k !in {MissingOnExchangeDetected, MissingOnExchangeResolved} :: Count(m', k) == Count(m, k)
  {
  }

  lemma MismatchIsCounted(g: Gate, orders: seq<Issue>, positions: seq<Issue>)
    ensures var g' := MismatchCycle(g, orders, positions);
            && Count(g'.counters, MissingOnExchangeDetected) == Count(g.counters, MissingOnExchangeDetected)
            && Count(g'.counters, MissingOnExchangeResolved) == Count(g.counters, MissingOnExchangeResolved)
            && Count(g'.counters, ReconcileMismatchCycles) == Count(g.counters, ReconcileMismatchCycles) + 1
            && Count(g'.counters, ReconcileIssues) == Count(g.counters, ReconcileIssues) + |orders| + |positions|
            && g'.mismatches > 0
            && Count(g'.counters, StartupStateBlocked)
               == Count(g.counters, StartupStateBlocked) + Flag(g'.startupBlocked && !g.startupBlocked)
            && Count(g'.counters, OrphanPositionBlocked)
               == Count(g.counters, OrphanPositionBlocked) + Flag(g'.orphanBlocked && !g.orphanBlocked)
  {
    MismatchCounters(g, orders, positions);
  }

  lemma RepairIsCounted(g: Gate, orders: seq<Issue>, resolved: nat, positions: seq<Issue>)
    requires !Mismatch(orders, resolved, positions)
    ensures var g' := Settle(g, orders, resolved, positions);
            && g'.mismatches == 0 && (g'.startupBlocked ==> g.startupBlocked) && !g'.orphanBlocked
            && forall k | k !in {StartupStateBlockCleared, OrphanPositionBlockCleared} ::
                 Count(g'.counters, k) == Count(g.counters, k)
  {
  }

  // Stale feeds and failed decisions are no cycle's business.
  lemma CycleKeepsIncidents(g: Gate, orders: seq<Issue>, resolved: nat, positions: seq<Issue>)
    ensures var g' := AfterCycle(g, orders, resolved, positions);
            && Count(g'.counters, StalenessIncidents) == Count(g.counters, StalenessIncidents)
            && Count(g'.counters, RuntimeDecisionFailures) == Count(g.counters, RuntimeDecisionFailures)
  {
    GoneAreCounted(g.counters, |GoneLinks(orders)|, resolved);
    var g0 := CountGone(g, orders, resolved);
    assert AfterCycle(g, orders, resolved, positions) == Settle(g0, orders, resolved, positions);
    if Mismatch(orders, resolved, positions) {
      MismatchCounters(g0, orders, positions);
    } else {
      RepairIsCounted(g0, orders, resolved, positions);
    }
  }

  // What a mismatch leaves for the operator: unprotected positions come first, order issues otherwise.
  lemma MismatchIsDescribed(g: Gate, orders: seq<Issue>, resolved: nat, positions: seq<Issue>)
    ensures var g' := AfterCycle(g, orders, resolved, positions);
            && (positions != [] ==>
                 && g'.startupReason == Some(MissingReduceOnlyExitFound) && g'.orphanDetails == positions
                 && |g'.startupDetails| == |positions|
                 && forall i | 0 <= i < |positions| :: g'.startupDetails[i] == OrphanPosition(positions[i]))
            && (positions == [] && g'.mismatches > 0 ==>
                 && g'.startupReason == Some(OrderMismatchFound) && g'.startupDetails == [OrderMismatch(orders)]
                 && g'.orphanDetails == g.orphanDetails)
            && (g'.mismatches == 0 ==> g'.orphanDetails == if g.orphanBlocked then [] else g.orphanDetails)
  {
    MismatchMeans(orders, resolved, positions);
    var g0 := CountGone(g, orders, resolved);
    assert AfterCycle(g, orders, resolved, positions) == Settle(g0, orders, resolved, positions);
  }

  // When both reports are clean the first guard already holds, so no cycle gets past the three guarded branches.
  lemma GuardsAreExhaustive(orders: seq<Issue>, resolved: nat, positions: seq<Issue>)
    requires orders == [] && positions == []
    ensures RecoveredByClosing(orders, resolved, positions)
  {
  }

  // ---------------------------------------------------------------------------------------------
  // Which counters the gate moves.

  const GateMetrics: set<Metric> := {
    StartupStateBlocked, StartupStateBlockCleared, OrphanPositionBlocked, OrphanPositionBlockCleared,
    ReconcileMismatchCycles, ReconcileIssues, MissingOnExchangeDetected, MissingOnExchangeResolved,
    StalenessIncidents, RuntimeDecisionFailures}

  lemma SwitchesMove(m: Counters, g: Gate, orphans: seq<Issue>)
    requires Moves(m, g.counters, GateMetrics)
    ensures Moves(m, ClearOrphan(g).counters, GateMetrics) && Moves(m, ClearStartup(g).counters, GateMetrics)
    ensures Moves(m, BlockStartup(g).counters, GateMetrics) && Moves(m, BlockOrphan(g, orphans).counters, GateMetrics)
  {
    MovesOn(m, g.counters, OrphanPositionBlockCleared, 1, GateMetrics);
    MovesOn(m, g.counters, StartupStateBlockCleared, 1, GateMetrics);
    MovesOn(m, g.counters, OrphanPositionBlocked, 1, GateMetrics);
    MovesOn(m, g.counters, StartupStateBlocked, 1, GateMetrics);
  }

  lemma CountingMoves(g: Gate, orders: seq<Issue>, resolved: nat)
    ensures Moves(g.counters, CountGone(g, orders, resolved).counters, GateMetrics)
  {
    var detected := |GoneLinks(orders)|;
    if detected > 0 { MovesOn(g.counters, g.counters, MissingOnExchangeDetected, detected, GateMetrics); }
    if resolved > 0 {
      MovesOn(g.counters, CountClosing(g.counters, detected, 0), MissingOnExchangeResolved, resolved, GateMetrics);
    }
  }

  lemma DescribingMoves(m: Counters, g: Gate, orders: seq<Issue>, positions: seq<Issue>)
    requires Moves(m, g.counters, GateMetrics)
    ensures Moves(m, DescribeMismatch(g, orders, positions).counters, GateMetrics)
  {
    SwitchesMove(m, g.(startupReason := Some(MissingReduceOnlyExitFound), startupDetails := OrphanDetails(positions)),
                 positions);
  }

  lemma MismatchCounters(g: Gate, orders: seq<Issue>, positions: seq<Issue>)
    ensures MismatchCycle(g, orders, positions).counters
         == Add(DescribeMismatch(BlockStartup(CountMismatch(g)), orders, positions).counters, ReconcileIssues,
                |orders| + |positions|)
  {
  }

  lemma MismatchMoves(m: Counters, g: Gate, orders: seq<Issue>, positions: seq<Issue>)
    requires Moves(m, g.counters, GateMetrics) && |orders| + |positions| > 0
    ensures Moves(m, MismatchCycle(g, orders, positions).counters, GateMetrics)
  {
    MovesOn(m, g.counters, ReconcileMismatchCycles, 1, GateMetrics);
    SwitchesMove(m, CountMismatch(g), positions);
    var g1 := BlockStartup(CountMismatch(g));
    DescribingMoves(m, g1, orders, positions);
    MovesOn(m, DescribeMismatch(g1, orders, positions).counters, ReconcileIssues, |orders| + |positions|, GateMetrics);
    MismatchCounters(g, orders, positions);
  }

  lemma CycleMoves(g: Gate, orders: seq<Issue>, resolved: nat, positions: seq<Issue>)
    ensures Moves(g.counters, AfterCycle(g, orders, resolved, positions).counters, GateMetrics)
  {
    var g0 := CountGone(g, orders, resolved);
    CountingMoves(g, orders, resolved);
    if Mismatch(orders, resolved, positions) {
      assert orders != [] || positions != [];
      MismatchMoves(g.counters, g0, orders, positions);
    } else {
      SwitchesMove(g.counters, ResetMismatches(g0), []);
      SwitchesMove(g.counters, ClearOrphan(ResetMismatches(g0)), []);
    }
  }

  lemma StepMoves(g: Gate, e: GateEvent)
    ensures Moves(g.counters, StepGate(g, e).counters, GateMetrics)
  {
    match e
    case Cycle(o, r, p) => CycleMoves(g, o, r, p);
    case Inspected(_) => SwitchesMove(g.counters, g, []);
    case FeedWentStale => MovesOn(g.counters, g.counters, StalenessIncidents, 1, GateMetrics);
    case TaskDied(name) => MovesOn(g.counters, g.counters, RuntimeDecisionFailures, 1, GateMetrics);
    case _ =>
  }

  // ---------------------------------------------------------------------------------------------
  // The mismatch counter and the abort latch, read off the history.

  // The last n entries of a trace are all mismatches.
  ghost predicate EndsWithMismatches(trace: seq<bool>, n: nat) {
    n <= |trace| && forall i | |trace| - n <= i < |trace| :: trace[i]
  }

  // Some AbortAfter consecutive completed cycles were all mismatches.
  ghost predicate HasMismatchRun(trace: seq<bool>) {
    exists end: nat :: end <= |trace| && EndsWithMismatches(trace[..end], AbortAfter)
  }

  function Occurrences(aborts: seq<Abort>, a: Abort): nat { multiset(aborts)[a] }

  lemma MismatchRunAppend(trace: seq<bool>, mismatch: bool)
    ensures HasMismatchRun(trace + [mismatch])
       <==> HasMismatchRun(trace) || EndsWithMismatches(trace + [mismatch], AbortAfter)
  {
    var trace' := trace + [mismatch];
    assert trace'[..|trace'|] == trace';
    forall end: nat | end <= |trace| ensures trace'[..end] == trace[..end] { }
    if HasMismatchRun(trace') {
      var end: nat :| end <= |trace'| && EndsWithMismatches(trace'[..end], AbortAfter);
      if end <= |trace| { assert EndsWithMismatches(trace[..end], AbortAfter); }
    }
  }

  // The third mismatch in a row, or a later one, adds the abort reason unless it is there already.
  lemma AbortsAfterCycle(g: Gate, orders: seq<Issue>, resolved: nat, positions: seq<Issue>)
    ensures AfterCycle(g, orders, resolved, positions).aborts
         == if Mismatch(orders, resolved, positions) && g.mismatches + 1 >= 3
               && RepeatedReconcileMismatch !in g.aborts
            then g.aborts + [RepeatedReconcileMismatch] else g.aborts
  {
  }

  // What a history says about the counter n and the abort list.
  ghost predicate Explains(trace: seq<bool>, n: nat, aborts: seq<Abort>) {
    && EndsWithMismatches(trace, n)
    && (n < |trace| ==> !trace[|trace| - 1 - n])
    && Occurrences(aborts, RepeatedReconcileMismatch) == Flag(HasMismatchRun(trace))
  }

  lemma CycleKeepsExplanation(trace: seq<bool>, n: nat, aborts: seq<Abort>, mismatch: bool)
    requires Explains(trace, n, aborts)
    ensures var n' := if mismatch then n + 1 else 0;
            var aborts' := if mismatch && n + 1 >= AbortAfter && RepeatedReconcileMismatch !in aborts
                           then aborts + [RepeatedReconcileMismatch] else aborts;
            Explains(trace + [mismatch], n', aborts')
  {
    MismatchRunAppend(trace, mismatch);
    var trace' := trace + [mismatch];
    assert trace'[|trace'| - 1] == mismatch;
    if n < |trace| { assert !trace'[|trace'| - 2 - n]; }
    assert EndsWithMismatches(trace', AbortAfter) <==> mismatch && n + 1 >= AbortAfter;
  }

  lemma OtherEventsLeaveCounter(g: Gate, e: GateEvent)
    requires !e.Cycle?
    ensures StepGate(g, e).mismatches == g.mismatches
    ensures Occurrences(StepGate(g, e).aborts, RepeatedReconcileMismatch)
         == Occurrences(g.aborts, RepeatedReconcileMismatch)
  {
  }

  lemma StepKeepsExplanation(trace: seq<bool>, g: Gate, e: GateEvent)
    requires Explains(trace, g.mismatches, g.aborts)
    ensures var g' := StepGate(g, e);
            Explains(if e.Cycle? then trace + [Mismatch(e.orders, e.resolved, e.positions)] else trace,
                     g'.mismatches, g'.aborts)
  {
    if e.Cycle? {
      FlagsByBranch(g, e.orders, e.resolved, e.positions);
      AbortsAfterCycle(g, e.orders, e.resolved, e.positions);
      CycleKeepsExplanation(trace, g.mismatches, g.aborts, Mismatch(e.orders, e.resolved, e.positions));
    } else {
      OtherEventsLeaveCounter(g, e);
    }
  }
}
