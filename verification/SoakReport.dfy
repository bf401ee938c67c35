// The soak report of a session and its health verdict.
module SoakReport {
  import opened Common
  import opened BlockGate
  import opened Entries
  import opened Fills
  import opened Metrics
  import opened OrderBook
  import opened Reconciliation
  import opened Runtime

  // The report as its readers see it: a number that is missing reads as the default they give it. Only the entry fill
  // count is read with different defaults, so whether it is there matters.
  datatype Report = Report(
    meta: Metadata, pipeline: Pipeline, model: ModelSummary, execution: ExecutionSummary, safety: Safety,
    startup: Option<StartupDiagnostics>, verdict: Option<Verdict>)

  datatype Metadata = Metadata(
    sessionId: string, paper: bool, endedCleanly: bool, placementEnabled: Option<bool>, aborts: seq<Abort>,
    breakerTrippedAtEnd: bool, staleChannelsAtEnd: nat, stalenessIncidents: nat, duration: Option<real>)

  datatype Pipeline = Pipeline(
    candidates: nat, sizingRejected: nat, sizingPassed: nat, modelReached: nat, modelBlocked: nat, submitted: nat)

  datatype ModelSummary = ModelSummary(evaluations: nat, allowed: nat)

  datatype ExecutionSummary = ExecutionSummary(
    submitted: nat, acked: nat, filled: nat, entryFills: Option<nat>, exitsSubmitted: nat, exitsAcked: nat,
    exitsFailed: nat, exitsSkipped: nat, fillsWithoutExitAck: nat, decisionFailures: nat) {
    function EntryCount(): nat { if entryFills.Some? then entryFills.value else 0 }
  }

  datatype Safety = Safety(
    orphanBlocked: nat, orphanCleared: nat, startupBlocked: nat, startupCleared: nat, mismatchCycles: nat,
    addBlocked: nat, workingBlocked: nat, repeatedMismatch: bool, guardBlocks: seq<GuardReason>)

  datatype StartupDiagnostics = StartupDiagnostics(
    reason: Option<BlockReason>, cleared: bool, blockedCount: nat, clearedCount: nat, unclearedAtEnd: bool)

  datatype Verdict = Pass | PassWithWarnings | Fail

  datatype Failure =
    | SessionAborted | FillsWithoutProtectiveExit | ProtectiveExitFailures | RepeatedReconcileMismatchAbort
    | ModelAllowedUnexplained | SubmittedGtAck | EntryFillInconsistent

  datatype Warning =
    | StaleFeedRecovered | StaleFeedIncidents | GuardBlockedByActivePosition | SizingRejectedOnly | NoModelEvaluations
    | NoCandidates | AllCandidatesBlocked | NoSubmissions | OrphanBlockTriggered | StartupBlockTriggered
    | ReconcileMismatches

  // ---------------------------------------------------------------------------------------------
  // Building the report.

  // What a session summary holds besides the runtime's own state.
  datatype Session = Session(
    id: string, paper: bool, placementEnabled: bool, breakerTrippedAtEnd: bool, staleChannelsAtEnd: nat,
    duration: Option<real>, pipeline: Pipeline, model: ModelSummary)

  function Excess(a: nat, b: nat): nat { if a > b then a - b else 0 }

  // A session ends cleanly unless the startup raised or a task died.
  predicate EndedCleanly(aborts: seq<Abort>) {
    forall a | a in aborts :: a == StaleFeed || a == RepeatedReconcileMismatch
  }

  // The count falls back to all strategy fills when no entry fill was ever counted.
  function ReportedEntryFills(d: Desk): nat { GetOr(d.counters, EntryFillReceived, d.outcomes.filled) }

  function BuildExecution(d: Desk): ExecutionSummary {
    var m, entries := d.counters, ReportedEntryFills(d);
    var acked, failed, skipped :=
      Count(m, ExitOrderAckReceived), Count(m, ExitPlacementFailed), Count(m, ExitPlacementSkipped);
    ExecutionSummary(d.outcomes.submissions, d.outcomes.acks, d.outcomes.filled, Some(entries),
                     Count(m, ExitOrderSubmitted), acked, failed, skipped,
                     Excess(entries, acked + failed + skipped), Count(m, RuntimeDecisionFailures))
  }

  function BuildSafety(s: State): Safety {
    var m := s.desk.counters;
    Safety(Count(m, OrphanPositionBlocked), Count(m, OrphanPositionBlockCleared), Count(m, StartupStateBlocked),
           Count(m, StartupStateBlockCleared), Count(m, ReconcileMismatchCycles), Count(m, PositionAddBlocked),
           Count(m, WorkingEntryBlocked), RepeatedReconcileMismatch in s.aborts, s.desk.guardBlocks)
  }

  function BuildStartup(s: State): Option<StartupDiagnostics> {
    var blocked := Count(s.desk.counters, StartupStateBlocked);
    var cleared := Count(s.desk.counters, StartupStateBlockCleared);
    if blocked > 0 || s.startupBlocked then
      Some(StartupDiagnostics(s.startupReason, cleared > 0 || !s.startupBlocked, blocked, cleared, s.startupBlocked))
    else None
  }

  function BuildSoakReport(s: State, session: Session): Report {
    var meta := Metadata(session.id, session.paper, EndedCleanly(s.aborts), Some(session.placementEnabled), s.aborts,
                         session.breakerTrippedAtEnd, session.staleChannelsAtEnd,
                         Count(s.desk.counters, StalenessIncidents), session.duration);
    var report := Report(meta, session.pipeline, session.model, BuildExecution(s.desk), BuildSafety(s),
                         BuildStartup(s), None);
    report.(verdict := Some(Assess(report).0))
  }

  // ---------------------------------------------------------------------------------------------
  // The verdict.

  predicate Uncleared(r: Report) { r.startup.Some? && r.startup.value.unclearedAtEnd }

  // A paper session whose only abort reason is a stale feed that has recovered, and that is clean otherwise.
  predicate StaleFeedRecoveredSession(r: Report) {
    && r.meta.paper && r.meta.endedCleanly
    && r.meta.aborts != [] && (forall a | a in r.meta.aborts :: a == StaleFeed)
    && r.execution.decisionFailures == 0 && !r.safety.repeatedMismatch && r.safety.mismatchCycles == 0
    && r.execution.exitsFailed == 0 && r.execution.fillsWithoutExitAck == 0
    && !Uncleared(r) && !r.meta.breakerTrippedAtEnd && r.meta.staleChannelsAtEnd == 0
  }

  // An abort that is not a recovered stale feed, or a session that did not end cleanly.
  predicate Aborted(r: Report) {
    !r.meta.endedCleanly || (r.meta.aborts != [] && !StaleFeedRecoveredSession(r))
  }

  // More entry fills than placements resolved, given the fill count a reader uses.
  predicate Unresolved(e: ExecutionSummary, entries: nat) {
    entries > e.exitsSubmitted + e.exitsFailed + e.exitsSkipped
  }

  predicate Operational(r: Report) {
    && r.meta.endedCleanly && (r.meta.aborts == [] || StaleFeedRecoveredSession(r))
    && !r.safety.repeatedMismatch && r.safety.mismatchCycles == 0 && r.execution.exitsFailed == 0
    && r.execution.decisionFailures == 0 && r.execution.fillsWithoutExitAck == 0
    && !Unresolved(r.execution, r.execution.EntryCount())
  }

  predicate ModelAllowedNothingSubmitted(r: Report) {
    r.pipeline.modelReached > 0 && r.execution.submitted == 0 && r.model.allowed > 0
  }

  predicate OnlyActivePositionBlocked(r: Report) {
    && r.safety.guardBlocks != [] && (forall b | b in r.safety.guardBlocks :: b == ExistingPosition)
    && r.safety.addBlocked > 0 && r.safety.workingBlocked == 0
  }

  predicate PaperSizingOnly(r: Report) {
    && r.meta.paper && r.meta.placementEnabled == Some(false)
    && r.pipeline.sizingRejected > 0 && r.pipeline.sizingPassed == 0
    && Operational(r)
  }

  function When<T>(s: seq<T>, c: bool, x: T): seq<T> { if c then s + [x] else s }

  function ExitFailures(r: Report, fs: seq<Failure>): seq<Failure> {
    var f1 := When(fs, Unresolved(r.execution, r.execution.EntryCount()), FillsWithoutProtectiveExit);
    var f2 := When(f1, r.execution.exitsFailed > 0, ProtectiveExitFailures);
    When(f2, r.safety.repeatedMismatch, RepeatedReconcileMismatchAbort)
  }

  function CountFailures(r: Report, fs: seq<Failure>): seq<Failure> {
    var f1 := When(fs, r.execution.submitted > r.execution.acked, SubmittedGtAck);
    When(f1, r.execution.EntryCount() > r.execution.filled, EntryFillInconsistent)
  }

  predicate GuardExplains(r: Report) { OnlyActivePositionBlocked(r) && Operational(r) }

  function FailuresOf(r: Report): seq<Failure> {
    var f1 := ExitFailures(r, When([], Aborted(r), SessionAborted));
    var f2 := When(f1, ModelAllowedNothingSubmitted(r) && !GuardExplains(r) && !PaperSizingOnly(r),
                   ModelAllowedUnexplained);
    CountFailures(r, f2)
  }

  function ActivityWarnings(r: Report, failed: bool, ws: seq<Warning>): seq<Warning> {
    var w1 := When(ws, r.model.evaluations == 0, NoModelEvaluations);
    var w2 := When(w1, r.pipeline.candidates == 0, NoCandidates);
    var w3 := When(w2, r.pipeline.candidates > 0 && r.pipeline.submitted == 0
                       && r.pipeline.modelBlocked >= r.pipeline.candidates, AllCandidatesBlocked);
    When(w3, r.execution.submitted == 0 && !failed, NoSubmissions)
  }

  function SafetyWarnings(r: Report, ws: seq<Warning>): seq<Warning> {
    var w1 := When(ws, r.safety.orphanBlocked > 0, OrphanBlockTriggered);
    var w2 := When(w1, r.safety.startupBlocked > 0, StartupBlockTriggered);
    When(w2, r.safety.mismatchCycles > 0, ReconcileMismatches)
  }

  function SessionWarnings(r: Report): seq<Warning> {
    var recovered := StaleFeedRecoveredSession(r);
    When(When([], recovered, StaleFeedRecovered), recovered && r.meta.stalenessIncidents > 0, StaleFeedIncidents)
  }

  function ModelWarnings(r: Report, ws: seq<Warning>): seq<Warning> {
    var w1 := When(ws, ModelAllowedNothingSubmitted(r) && GuardExplains(r), GuardBlockedByActivePosition);
    When(w1, ModelAllowedNothingSubmitted(r) && !GuardExplains(r) && PaperSizingOnly(r), SizingRejectedOnly)
  }

  function WarningsOf(r: Report): seq<Warning> {
    SafetyWarnings(r, ActivityWarnings(r, FailuresOf(r) != [], ModelWarnings(r, SessionWarnings(r))))
  }

  function Assess(r: Report): (Verdict, seq<Failure>, seq<Warning>) {
    var failures, warnings := FailuresOf(r), WarningsOf(r);
    (if failures != [] then Fail else if warnings != [] then PassWithWarnings else Pass, failures, warnings)
  }

  // ---------------------------------------------------------------------------------------------
  // What the verdict means, reason by reason, in the report's own fields.

  // A stale feed was the only reason to abort, in a paper session that ended cleanly, recovered and shows no trouble.
  ghost predicate RecoveredStaleFeed(r: Report) {
    && r.meta.paper && r.meta.endedCleanly && |r.meta.aborts| > 0 && (forall a | a in r.meta.aborts :: a == StaleFeed)
    && !r.meta.breakerTrippedAtEnd && r.meta.staleChannelsAtEnd == 0
    && r.safety.mismatchCycles == 0 && !r.safety.repeatedMismatch
    && r.execution.decisionFailures == 0 && r.execution.exitsFailed == 0 && r.execution.fillsWithoutExitAck == 0
    && !(r.startup.Some? && r.startup.value.unclearedAtEnd)
  }

  // The session ran without an incident that could have stopped orders.
  ghost predicate Undisturbed(r: Report) {
    && r.meta.endedCleanly && (|r.meta.aborts| > 0 ==> RecoveredStaleFeed(r))
    && r.safety.mismatchCycles == 0 && !r.safety.repeatedMismatch
    && r.execution.decisionFailures == 0 && r.execution.exitsFailed == 0 && r.execution.fillsWithoutExitAck == 0
    && (r.execution.entryFills.Some? ==>
         r.execution.entryFills.value
         <= r.execution.exitsSubmitted + r.execution.exitsFailed + r.execution.exitsSkipped)
  }

  // The model allowed orders and none was submitted.
  ghost predicate Silent(r: Report) {
    r.pipeline.modelReached > 0 && r.model.allowed > 0 && r.execution.submitted == 0
  }

  // Every guard block named an existing position, and the counters agree.
  ghost predicate HeldByPosition(r: Report) {
    && |r.safety.guardBlocks| > 0 && (forall b | b in r.safety.guardBlocks :: b == ExistingPosition)
    && r.safety.addBlocked > 0 && r.safety.workingBlocked == 0 && Undisturbed(r)
  }

  // A paper session with placement off whose sizer rejected everything.
  ghost predicate SizedOutOnPaper(r: Report) {
    && r.meta.paper && r.meta.placementEnabled == Some(false)
    && r.pipeline.sizingRejected > 0 && r.pipeline.sizingPassed == 0 && Undisturbed(r)
  }

  ghost predicate FailsFor(r: Report, f: Failure) {
    var e := r.execution;
    match f
    case SessionAborted => !r.meta.endedCleanly || (|r.meta.aborts| > 0 && !RecoveredStaleFeed(r))
    case FillsWithoutProtectiveExit =>
      e.entryFills.Some? && e.entryFills.value > e.exitsSubmitted + e.exitsFailed + e.exitsSkipped
    case ProtectiveExitFailures => e.exitsFailed > 0
    case RepeatedReconcileMismatchAbort => r.safety.repeatedMismatch
    case ModelAllowedUnexplained => Silent(r) && !HeldByPosition(r) && !SizedOutOnPaper(r)
    case SubmittedGtAck => e.acked < e.submitted
    case EntryFillInconsistent => e.entryFills.Some? && e.filled < e.entryFills.value
  }

  ghost predicate WarnsOf(r: Report, w: Warning) {
    match w
    case StaleFeedRecovered => RecoveredStaleFeed(r)
    case StaleFeedIncidents => RecoveredStaleFeed(r) && r.meta.stalenessIncidents > 0
    case GuardBlockedByActivePosition => Silent(r) && HeldByPosition(r)
    case SizingRejectedOnly => Silent(r) && !HeldByPosition(r) && SizedOutOnPaper(r)
    case NoModelEvaluations => r.model.evaluations == 0
    case NoCandidates => r.pipeline.candidates == 0
    case AllCandidatesBlocked =>
      r.pipeline.candidates > 0 && r.pipeline.submitted == 0 && r.pipeline.candidates <= r.pipeline.modelBlocked
    case NoSubmissions => r.execution.submitted == 0 && forall f :: !FailsFor(r, f)
    case OrphanBlockTriggered => r.safety.orphanBlocked > 0
    case StartupBlockTriggered => r.safety.startupBlocked > 0
    case ReconcileMismatches => r.safety.mismatchCycles > 0
  }

  lemma ConditionsMean(r: Report)
    ensures StaleFeedRecoveredSession(r) <==> RecoveredStaleFeed(r)
    ensures Operational(r) <==> Undisturbed(r)
    ensures GuardExplains(r) <==> HeldByPosition(r)
    ensures PaperSizingOnly(r) <==> SizedOutOnPaper(r)
  {
  }

  lemma WhenAdds<T>(s: seq<T>, c: bool, x: T, y: T)
    ensures y in When(s, c, x) <==> y in s || (c && y == x)
  {
  }

  lemma ExitFailureListed(r: Report, fs: seq<Failure>, f: Failure)
    ensures f in ExitFailures(r, fs)
       <==> f in fs || (f in {FillsWithoutProtectiveExit, ProtectiveExitFailures, RepeatedReconcileMismatchAbort}
                        && FailsFor(r, f))
  {
  }

  lemma CountFailureListed(r: Report, fs: seq<Failure>, f: Failure)
    ensures f in CountFailures(r, fs)
       <==> f in fs || (f in {SubmittedGtAck, EntryFillInconsistent} && FailsFor(r, f))
  {
  }

  // A failure is listed exactly when its own condition holds.
  lemma FailureListed(r: Report, f: Failure)
    ensures f in Assess(r).1 <==> FailsFor(r, f)
  {
    ConditionsMean(r);
    var f0 := When([], Aborted(r), SessionAborted);
    var f1 := ExitFailures(r, f0);
    var unexplained := ModelAllowedNothingSubmitted(r) && !GuardExplains(r) && !PaperSizingOnly(r);
    WhenAdds([], Aborted(r), SessionAborted, f);
    ExitFailureListed(r, f0, f);
    WhenAdds(f1, unexplained, ModelAllowedUnexplained, f);
    CountFailureListed(r, When(f1, unexplained, ModelAllowedUnexplained), f);
  }

  lemma FailedIff(r: Report)
    ensures Assess(r).1 == [] <==> forall f :: !FailsFor(r, f)
  {
    forall f ensures f in Assess(r).1 <==> FailsFor(r, f) { FailureListed(r, f); }
    if Assess(r).1 != [] { assert Assess(r).1[0] in Assess(r).1; }
  }

  lemma ActivityWarningListed(r: Report, failed: bool, ws: seq<Warning>, w: Warning)
    requires failed <==> exists f :: FailsFor(r, f)
    ensures w in ActivityWarnings(r, failed, ws)
       <==> w in ws || (w in {NoModelEvaluations, NoCandidates, AllCandidatesBlocked, NoSubmissions} && WarnsOf(r, w))
  {
  }

  lemma SafetyWarningListed(r: Report, ws: seq<Warning>, w: Warning)
    ensures w in SafetyWarnings(r, ws)
       <==> w in ws || (w in {OrphanBlockTriggered, StartupBlockTriggered, ReconcileMismatches} && WarnsOf(r, w))
  {
  }

  lemma EarlyWarningListed(r: Report, w: Warning)
    ensures w in ModelWarnings(r, SessionWarnings(r))
       <==> w in {StaleFeedRecovered, StaleFeedIncidents, GuardBlockedByActivePosition, SizingRejectedOnly}
            && WarnsOf(r, w)
  {
    ConditionsMean(r);
  }

  // Likewise a warning.
  lemma WarningListed(r: Report, w: Warning)
    ensures w in Assess(r).2 <==> WarnsOf(r, w)
  {
    var w0 := ModelWarnings(r, SessionWarnings(r));
    FailedIff(r);
    EarlyWarningListed(r, w);
    ActivityWarningListed(r, FailuresOf(r) != [], w0, w);
    SafetyWarningListed(r, ActivityWarnings(r, FailuresOf(r) != [], w0), w);
  }

  // The verdict: a failure if any failure condition holds, a clean pass if neither one of those nor a warning does, and
  // a pass with warnings otherwise.
  lemma VerdictIff(r: Report)
    ensures var (verdict, _, _) := Assess(r);
            && (verdict == Fail <==> exists f :: FailsFor(r, f))
            && (verdict == Pass <==> (forall f :: !FailsFor(r, f)) && (forall w :: !WarnsOf(r, w)))
  {
    FailedIff(r);
    forall w ensures w in Assess(r).2 <==> WarnsOf(r, w) { WarningListed(r, w); }
    if Assess(r).2 != [] { assert Assess(r).2[0] in Assess(r).2; }
  }

  // ---------------------------------------------------------------------------------------------
  // The verdict as it is computed.

  method ComputeVerdict(r: Report) returns (verdict: Verdict, failures: seq<Failure>, warnings: seq<Warning>)
    ensures (verdict, failures, warnings) == Assess(r)
    ensures (forall f :: f in failures <==> FailsFor(r, f)) && (forall w :: w in warnings <==> WarnsOf(r, w))
    ensures (verdict == Fail <==> failures != []) && (verdict == Pass <==> failures == [] && warnings == [])
  {
    failures, warnings := CheckSession(r);
    failures := CheckExits(r, failures);
    failures, warnings := CheckModel(r, failures, warnings);
    if r.execution.submitted > r.execution.acked { failures := failures + [SubmittedGtAck]; }
    if r.execution.EntryCount() > r.execution.filled { failures := failures + [EntryFillInconsistent]; }
    warnings := CheckActivity(r, failures, warnings);
    warnings := CheckSafety(r, warnings);
    forall f ensures f in failures <==> FailsFor(r, f) { FailureListed(r, f); }
    forall w ensures w in warnings <==> WarnsOf(r, w) { WarningListed(r, w); }
    verdict := if failures != [] then Fail else if warnings != [] then PassWithWarnings else Pass;
  }

  method CheckSession(r: Report) returns (failures: seq<Failure>, warnings: seq<Warning>)
    ensures failures == When([], Aborted(r), SessionAborted) && warnings == SessionWarnings(r)
  {
    failures, warnings := [], [];
    var recovered := StaleFeedRecoveredSession(r);
    if !r.meta.endedCleanly {
      failures := failures + [SessionAborted];
    } else if r.meta.aborts != [] && !recovered {
      failures := failures + [SessionAborted];
    } else if recovered {
      warnings := warnings + [StaleFeedRecovered];
      if r.meta.stalenessIncidents > 0 { warnings := warnings + [StaleFeedIncidents]; }
    }
  }

  method CheckExits(r: Report, before: seq<Failure>) returns (failures: seq<Failure>)
    ensures failures == ExitFailures(r, before)
  {
    failures := before;
    var resolved := r.execution.exitsSubmitted + r.execution.exitsFailed + r.execution.exitsSkipped;
    var missing := r.execution.EntryCount() > resolved;
    if missing { failures := failures + [FillsWithoutProtectiveExit]; }
    if r.execution.exitsFailed > 0 { failures := failures + [ProtectiveExitFailures]; }
    if r.safety.repeatedMismatch { failures := failures + [RepeatedReconcileMismatchAbort]; }
  }

  method CheckModel(r: Report, fs: seq<Failure>, ws: seq<Warning>)
    returns (failures: seq<Failure>, warnings: seq<Warning>)
    ensures failures == When(fs, ModelAllowedNothingSubmitted(r) && !GuardExplains(r) && !PaperSizingOnly(r),
                             ModelAllowedUnexplained)
    ensures warnings == ModelWarnings(r, ws)
  {
    failures, warnings := fs, ws;
    if r.pipeline.modelReached > 0 && r.execution.submitted == 0 && r.model.allowed > 0 {
      var existing, other := CountGuardBlocks(r.safety.guardBlocks);
      var byPosition := existing > 0 && other == 0 && r.safety.addBlocked > 0 && r.safety.workingBlocked == 0;
      if byPosition && Operational(r) {
        warnings := warnings + [GuardBlockedByActivePosition];
      } else if PaperSizingOnly(r) {
        warnings := warnings + [SizingRejectedOnly];
      } else {
        failures := failures + [ModelAllowedUnexplained];
      }
    }
  }

  method CheckActivity(r: Report, failures: seq<Failure>, before: seq<Warning>) returns (warnings: seq<Warning>)
    ensures warnings == ActivityWarnings(r, failures != [], before)
  {
    warnings := before;
    if r.model.evaluations == 0 { warnings := warnings + [NoModelEvaluations]; }
    if r.pipeline.candidates == 0 { warnings := warnings + [NoCandidates]; }
    if r.pipeline.candidates > 0 && r.pipeline.submitted == 0 && r.pipeline.modelBlocked >= r.pipeline.candidates {
      warnings := warnings + [AllCandidatesBlocked];
    }
    if r.execution.submitted == 0 && failures == [] { warnings := warnings + [NoSubmissions]; }
  }

  method CheckSafety(r: Report, before: seq<Warning>) returns (warnings: seq<Warning>)
    ensures warnings == SafetyWarnings(r, before)
  {
    warnings := before;
    if r.safety.orphanBlocked > 0 { warnings := warnings + [OrphanBlockTriggered]; }
    if r.safety.startupBlocked > 0 { warnings := warnings + [StartupBlockTriggered]; }
    if r.safety.mismatchCycles > 0 { warnings := warnings + [ReconcileMismatches]; }
  }

  method CountGuardBlocks(blocks: seq<GuardReason>) returns (existing: nat, other: nat)
    ensures existing + other == |blocks|
    ensures other == 0 <==> forall b | b in blocks :: b == ExistingPosition
  {
    existing, other := 0, 0;
    for i := 0 to |blocks|
      invariant existing + other == i
      invariant other == 0 <==> forall j | 0 <= j < i :: blocks[j] == ExistingPosition
    {
      if blocks[i] == ExistingPosition { existing := existing + 1; } else { other := other + 1; }
    }
    assert forall j | 0 <= j < |blocks| :: blocks[j] in blocks;
  }

  // ---------------------------------------------------------------------------------------------
  // The checks on counters a run produces.

  // On the report of any run, the check for unresolved entry fills fires exactly when orders filled but none of them
  // was an entry: the reported count then stands for all fills. The check for more entry fills than fills never fires.
  lemma FillChecksOnRuns(cfg: EntryConfig, events: seq<Event>, session: Session)
    requires AllEnabled(events)
    ensures var d := Run(cfg, events).desk;
            var e := BuildSoakReport(Run(cfg, events), session).execution;
            && (Unresolved(e, e.EntryCount()) <==> Count(d.counters, EntryFillReceived) == 0 && d.outcomes.filled > 0)
            && e.EntryCount() <= e.filled
  {
    RunIsSound(cfg, events);
    FillChecks(Run(cfg, events).desk);
  }

  lemma FillChecks(d: Desk)
    requires ExitsBalance(d) && NoZeros(d.counters)
    ensures var e := BuildExecution(d);
            && (Unresolved(e, e.EntryCount()) <==> Count(d.counters, EntryFillReceived) == 0 && d.outcomes.filled > 0)
            && e.EntryCount() <= e.filled
  {
  }

  // What a report says of the state it was built from: blocks exceed clears by one exactly while the flag is up,
  // startup diagnostics are there if the startup flag ever was up, and once an entry fill is counted the fills without
  // an acknowledged exit are the exits submitted and not acknowledged.
  ghost predicate Describes(r: Report, s: State) {
    SafetyDescribes(r.safety, s) && StartupDescribes(r.startup, s) && ExecutionDescribes(r.execution, s.desk)
    && r.meta.aborts == s.aborts
    && (r.meta.endedCleanly <==> forall a | a in s.aborts :: a == StaleFeed || a == RepeatedReconcileMismatch)
  }

  ghost predicate SafetyDescribes(safety: Safety, s: State) {
    && safety.orphanBlocked == safety.orphanCleared + Flag(s.orphanBlocked)
    && safety.startupBlocked == safety.startupCleared + Flag(s.startupBlocked)
    && safety.mismatchCycles == Count(s.desk.counters, ReconcileMismatchCycles)
    && (safety.repeatedMismatch <==> exists i :: 0 <= i < |s.aborts| && s.aborts[i] == RepeatedReconcileMismatch)
    && safety.addBlocked == Count(s.desk.counters, PositionAddBlocked)
    && safety.workingBlocked == Count(s.desk.counters, WorkingEntryBlocked)
    && safety.guardBlocks == s.desk.guardBlocks
  }

  ghost predicate StartupDescribes(startup: Option<StartupDiagnostics>, s: State) {
    var blocked, cleared :=
      Count(s.desk.counters, StartupStateBlocked), Count(s.desk.counters, StartupStateBlockCleared);
    startup == if blocked == 0 then None
               else Some(StartupDiagnostics(s.startupReason, cleared > 0, blocked, cleared, s.startupBlocked))
  }

  ghost predicate ExecutionDescribes(e: ExecutionSummary, d: Desk) {
    && e.submitted == d.outcomes.submissions && e.acked == d.outcomes.acks && e.filled == |d.outcomes.seenFilled|
    && e.decisionFailures == Count(d.counters, RuntimeDecisionFailures)
    && e.exitsFailed == Count(d.counters, ExitPlacementFailed)
    && (EntryFillReceived in d.counters ==>
         && e.entryFills == Some(e.exitsSubmitted + e.exitsFailed + e.exitsSkipped)
         && e.fillsWithoutExitAck + e.exitsAcked == e.exitsSubmitted)
    && (EntryFillReceived !in d.counters ==>
         e.entryFills == Some(e.filled) && e.exitsSubmitted == e.exitsFailed == e.exitsSkipped == 0)
  }

  lemma ExecutionOfRun(d: Desk)
    requires ExitsBalance(d) && NoZeros(d.counters)
    ensures ExecutionDescribes(BuildExecution(d), d)
  {
  }

  lemma SafetyOfRun(s: State)
    requires Accounted(s.AsGate())
    ensures SafetyDescribes(BuildSafety(s), s) && StartupDescribes(BuildStartup(s), s)
  {
  }

  lemma ReportOfRun(cfg: EntryConfig, events: seq<Event>, session: Session)
    requires AllEnabled(events)
    ensures Describes(BuildSoakReport(Run(cfg, events), session), Run(cfg, events))
  {
    RunIsSound(cfg, events);
    ReportOfState(Run(cfg, events), session);
  }

  lemma ReportOfState(s: State, session: Session)
    requires Sound(s)
    ensures Describes(BuildSoakReport(s, session), s)
  {
    ExecutionOfRun(s.desk);
    SafetyOfRun(s);
  }

  // The check does fire on runs: the fill of a reduce-only order adopted from the exchange is enough.
  lemma ReduceOnlyFillTripsCheck(cfg: EntryConfig, r: RemoteOrder, ev: OrderEvent, env: Env, session: Session)
    requires r.reduceOnly && r.linkId != "" && r.status != Filled
    requires ev.update.linkId == Some(r.linkId) && ev.update.status == Some(Filled)
    ensures var s := Run(cfg, [Reconciled(OrdersOnly([r]), 0), OrderStreamed(ev, env)]);
            && s.desk.outcomes.filled == 1 && EntryFillReceived !in s.desk.counters
            && FillsWithoutProtectiveExit in FailuresOf(BuildSoakReport(s, session))
  {
    var events := [Reconciled(OrdersOnly([r]), 0), OrderStreamed(ev, env)];
    ReduceOnlyRun(cfg, r, ev, env);
    OnlyOtherFillsTrip(cfg, events, session);
  }

  lemma ReduceOnlyRun(cfg: EntryConfig, r: RemoteOrder, ev: OrderEvent, env: Env)
    requires r.reduceOnly && r.linkId != "" && r.status != Filled
    requires ev.update.linkId == Some(r.linkId) && ev.update.status == Some(Filled)
    ensures var events := [Reconciled(OrdersOnly([r]), 0), OrderStreamed(ev, env)];
            && AllEnabled(events) && Run(cfg, events).desk.outcomes.filled == 1
            && EntryFillReceived !in Run(cfg, events).desk.counters
  {
    var adopt, fill := Reconciled(OrdersOnly([r]), 0), OrderStreamed(ev, env);
    ThreeListed(adopt, fill, fill);
    RunAdopts(cfg, r);
    RunFills(cfg, [adopt], r, ev, env);
  }

  lemma RunAdopts(cfg: EntryConfig, r: RemoteOrder)
    requires r.linkId != ""
    ensures var events := [Reconciled(OrdersOnly([r]), 0)];
            && AllEnabled(events) && Run(cfg, events).desk == FreshDesk.(book := Upsert(EmptyBook, r))
            && Run(cfg, events).drillLink == ""
  {
    var adopt := Reconciled(OrdersOnly([r]), 0);
    ThreeListed(adopt, adopt, adopt);
    RunOneMore(cfg, [], adopt);
    StepOfCycle(cfg, Start, adopt);
    StartParts();
    AdoptedOrder(r);
  }

  lemma RunFills(cfg: EntryConfig, events: seq<Event>, r: RemoteOrder, ev: OrderEvent, env: Env)
    requires AllEnabled(events) && Run(cfg, events).desk == FreshDesk.(book := Upsert(EmptyBook, r))
    requires Run(cfg, events).drillLink == "" && r.reduceOnly && r.linkId != "" && r.status != Filled
    requires ev.update.linkId == Some(r.linkId) && ev.update.status == Some(Filled)
    ensures var more := events + [OrderStreamed(ev, env)];
            && AllEnabled(more) && Run(cfg, more).desk.outcomes.filled == 1
            && EntryFillReceived !in Run(cfg, more).desk.counters
  {
    RunOneMore(cfg, events, OrderStreamed(ev, env));
    StepOfFill(cfg, Run(cfg, events), ev, env);
    FirstReduceOnlyFill(Run(cfg, events), r, ev, env);
  }

  lemma OnlyOtherFillsTrip(cfg: EntryConfig, events: seq<Event>, session: Session)
    requires AllEnabled(events) && Run(cfg, events).desk.outcomes.filled > 0
    requires EntryFillReceived !in Run(cfg, events).desk.counters
    ensures FillsWithoutProtectiveExit in FailuresOf(BuildSoakReport(Run(cfg, events), session))
  {
    FillChecksOnRuns(cfg, events, session);
    UnresolvedFails(BuildSoakReport(Run(cfg, events), session));
  }

  lemma AdoptedOrder(r: RemoteOrder)
    requires r.linkId != ""
    ensures ReconcileOrders(EmptyBook, [r]).0 == Upsert(EmptyBook, r)
  {
    var exchange := ExchangeDict([r]);
    assert [r][..0] == [] && ExchangeDict([r][..0]) == EmptyDict<RemoteOrder>();
    assert [r] != [] && exchange == EmptyDict<RemoteOrder>().Put(r.linkId, r);
    assert OpenDict(EmptyBook) == EmptyDict();
    assert LocalPass(EmptyBook, EmptyDict(), exchange, 0) == (EmptyBook, []);
    assert exchange.keys == [r.linkId] && |exchange.keys| == 1;
    assert RemotePass(EmptyBook, EmptyDict(), exchange, 0) == (EmptyBook, []);
    assert RemotePass(EmptyBook, EmptyDict(), exchange, 1).0 == Upsert(EmptyBook, r);
  }

  lemma FirstReduceOnlyFill(s: State, r: RemoteOrder, ev: OrderEvent, env: Env)
    requires s.desk == FreshDesk.(book := Upsert(EmptyBook, r)) && s.drillLink == ""
    requires r.reduceOnly && r.linkId != "" && r.status != Filled
    requires ev.update.linkId == Some(r.linkId) && ev.update.status == Some(Filled)
    ensures var d := OnOrderEvent(s.desk, ev, env, s.drillLink);
            d.outcomes.filled == 1 && EntryFillReceived !in d.counters
  {
  }

  lemma UnresolvedFails(r: Report)
    requires Unresolved(r.execution, r.execution.EntryCount())
    ensures FillsWithoutProtectiveExit in FailuresOf(r)
  {
  }

  // A session passes only without failures and warnings; the warnings alone rule out any block.
  lemma PassMeansClean(r: Report)
    requires Assess(r).0 == Pass
    ensures !Aborted(r) && r.meta.aborts == [] && !r.safety.repeatedMismatch && r.execution.exitsFailed == 0
    ensures !Unresolved(r.execution, r.execution.EntryCount())
    ensures r.safety.orphanBlocked == 0 && r.safety.startupBlocked == 0 && r.safety.mismatchCycles == 0
  {
  }

  lemma NoFailureMeans(r: Report)
    ensures FailuresOf(r) == [] ==>
              !Aborted(r) && !r.safety.repeatedMismatch && r.execution.exitsFailed == 0
              && !Unresolved(r.execution, r.execution.EntryCount())
  {
  }
}
