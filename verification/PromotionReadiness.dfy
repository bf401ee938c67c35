// Aggregating soak reports and deciding whether they justify moving on.
module PromotionReadiness {
  import opened Common
  import opened BlockGate
  import opened Entries
  import opened Metrics
  import opened OrderBook
  import opened Reconciliation
  import opened Rounding
  import opened Runtime
  import opened SoakReport

  // The sums and flags of the aggregate.
  datatype Totals = Totals(
    sessions: nat, paperSessions: nat, passed: nat, passedWithWarnings: nat, failed: nat, duration: real,
    entryFills: nat, exitFailures: nat, evaluations: nat, unresolvedFills: bool, repeatedMismatch: bool, aborted: bool,
    orphanUnresolved: bool, unclearedStartups: nat)

  // The sessions behind the reasons.
  datatype Attribution = Attribution(
    failing: seq<string>, unresolvedFills: seq<string>, aborted: seq<string>, repeatedMismatch: seq<string>,
    unclearedStartup: seq<string>)

  datatype Minimums = Minimums(passingSessions: nat, duration: real, fills: nat, evaluations: nat)

  datatype PromotionVerdict = NotReady | ContinueDemoSoak | ReadyForPaper

  datatype PromotionReason =
    | AnyFailReport | PlacementFailuresPresent | FillsUnresolved | SessionAbortPresent | RepeatedMismatchPresent
    | UnresolvedStartup | UnresolvedOrphan | NoReports
    | TooFewSessions | TooShort | TooFewFills | TooFewEvaluations
    | Covered

  // ---------------------------------------------------------------------------------------------
  // One report's share.

  // Fills are compared against placements with the fallback a report without an entry fill count calls for.
  function FillsToExplain(e: ExecutionSummary): nat { if e.entryFills.Some? then e.entryFills.value else e.filled }

  predicate OrphanUnresolved(r: Report) { r.safety.orphanBlocked > 0 && r.safety.orphanCleared == 0 }

  function TotalsOf(r: Report): Totals {
    Totals(1, Flag(r.meta.paper), Flag(r.verdict == Some(Pass)), Flag(r.verdict == Some(PassWithWarnings)),
           Flag(r.verdict == Some(Fail)), if r.meta.duration.Some? then r.meta.duration.value else 0.0,
           r.execution.EntryCount(), r.execution.exitsFailed, r.model.evaluations,
           Unresolved(r.execution, FillsToExplain(r.execution)), r.safety.repeatedMismatch, Aborted(r),
           OrphanUnresolved(r), Flag(Uncleared(r)))
  }

  const NoTotals := Totals(0, 0, 0, 0, 0, 0.0, 0, 0, 0, false, false, false, false, 0)

  function Plus(a: Totals, b: Totals): Totals {
    Totals(a.sessions + b.sessions, a.paperSessions + b.paperSessions, a.passed + b.passed,
           a.passedWithWarnings + b.passedWithWarnings, a.failed + b.failed, a.duration + b.duration,
           a.entryFills + b.entryFills, a.exitFailures + b.exitFailures, a.evaluations + b.evaluations,
           a.unresolvedFills || b.unresolvedFills, a.repeatedMismatch || b.repeatedMismatch, a.aborted || b.aborted,
           a.orphanUnresolved || b.orphanUnresolved, a.unclearedStartups + b.unclearedStartups)
  }

  function Total(reports: seq<Report>): Totals {
    if reports == [] then NoTotals else Plus(Total(reports[..|reports| - 1]), TotalsOf(reports[|reports| - 1]))
  }

  // The session ids of the reports a list is kept for.
  function Ids(reports: seq<Report>, listed: Report -> bool): seq<string> {
    if reports == [] then []
    else When(Ids(reports[..|reports| - 1], listed), listed(reports[|reports| - 1]),
        reports[|reports| - 1].meta.sessionId)
  }

  predicate Failing(r: Report) { r.verdict == Some(Fail) }

  predicate HasUnresolvedFills(r: Report) { Unresolved(r.execution, FillsToExplain(r.execution)) }

  predicate AbortedByMismatch(r: Report) { RepeatedReconcileMismatch in r.meta.aborts }

  function AttributionOf(reports: seq<Report>): Attribution {
    Attribution(Ids(reports, Failing), Ids(reports, HasUnresolvedFills), Ids(reports, Aborted),
                Ids(reports, AbortedByMismatch), Ids(reports, Uncleared))
  }

  // ---------------------------------------------------------------------------------------------
  // The aggregation loops.

  method AggregateSoakReports(reports: seq<Report>) returns (totals: Totals, attribution: Attribution)
    ensures totals == Total(reports) && attribution == AttributionOf(reports)
  {
    var uncleared, unclearedIds := CountUncleared(reports);
    totals, attribution := NoTotals, Attribution([], [], [], [], []);
    for i := 0 to |reports|
      invariant totals == Total(reports[..i]).(unclearedStartups := 0)
      invariant attribution == AttributionOf(reports[..i]).(unclearedStartup := [])
    {
      OneMoreReport(reports, i);
      totals := AddReport(totals, reports[i]);
      attribution := Attribute(attribution, reports[i]);
    }
    assert reports[..|reports|] == reports;
    totals, attribution := totals.(unclearedStartups := uncleared), attribution.(unclearedStartup := unclearedIds);
  }

  lemma OneMoreReport(reports: seq<Report>, i: nat)
    requires i < |reports|
    ensures Total(reports[..i + 1]) == Plus(Total(reports[..i]), TotalsOf(reports[i]))
    ensures var a, id := AttributionOf(reports[..i]), reports[i].meta.sessionId;
            AttributionOf(reports[..i + 1])
            == Attribution(When(a.failing, Failing(reports[i]), id),
                           When(a.unresolvedFills, HasUnresolvedFills(reports[i]), id),
                           When(a.aborted, Aborted(reports[i]), id),
                           When(a.repeatedMismatch, AbortedByMismatch(reports[i]), id),
                           When(a.unclearedStartup, Uncleared(reports[i]), id))
  {
    assert reports[..i + 1][..i] == reports[..i];
  }

  method AddReport(before: Totals, r: Report) returns (t: Totals)
    ensures t == Plus(before, TotalsOf(r)).(unclearedStartups := before.unclearedStartups)
  {
    t := CountVerdict(before, r);
    t := AddAmounts(t, r);
    t := RaiseFlags(t, r);
  }

  method AddAmounts(before: Totals, r: Report) returns (t: Totals)
    ensures t == before.(sessions := before.sessions + 1, paperSessions := before.paperSessions + Flag(r.meta.paper),
                         duration := before.duration + (if r.meta.duration.Some? then r.meta.duration.value else 0.0),
                         entryFills := before.entryFills + r.execution.EntryCount(),
                         exitFailures := before.exitFailures + r.execution.exitsFailed,
                         evaluations := before.evaluations + r.model.evaluations)
  {
    t := before.(sessions := before.sessions + 1, entryFills := before.entryFills + r.execution.EntryCount(),
                 exitFailures := before.exitFailures + r.execution.exitsFailed,
                 evaluations := before.evaluations + r.model.evaluations);
    if r.meta.paper { t := t.(paperSessions := t.paperSessions + 1); }
    if r.meta.duration.Some? { t := t.(duration := t.duration + r.meta.duration.value); }
  }

  method CountVerdict(before: Totals, r: Report) returns (t: Totals)
    ensures t == before.(passed := before.passed + Flag(r.verdict == Some(Pass)),
                         passedWithWarnings := before.passedWithWarnings + Flag(r.verdict == Some(PassWithWarnings)),
                         failed := before.failed + Flag(Failing(r)))
  {
    t := before;
    if r.verdict == Some(Pass) {
      t := t.(passed := t.passed + 1);
    } else if r.verdict == Some(PassWithWarnings) {
      t := t.(passedWithWarnings := t.passedWithWarnings + 1);
    } else if r.verdict == Some(Fail) {
      t := t.(failed := t.failed + 1);
    }
  }

  method RaiseFlags(before: Totals, r: Report) returns (t: Totals)
    ensures t == before.(unresolvedFills := before.unresolvedFills || HasUnresolvedFills(r),
                         repeatedMismatch := before.repeatedMismatch || r.safety.repeatedMismatch,
                         aborted := before.aborted || Aborted(r),
                         orphanUnresolved := before.orphanUnresolved || OrphanUnresolved(r))
  {
    t := before;
    var fills := if r.execution.entryFills.Some? then r.execution.entryFills.value else r.execution.filled;
    if fills > r.execution.exitsSubmitted + r.execution.exitsFailed + r.execution.exitsSkipped {
      t := t.(unresolvedFills := true);
    }
    if r.safety.repeatedMismatch { t := t.(repeatedMismatch := true); }
    if !r.meta.endedCleanly || (r.meta.aborts != [] && !StaleFeedRecoveredSession(r)) { t := t.(aborted := true); }
    if r.safety.orphanBlocked > 0 && r.safety.orphanCleared == 0 { t := t.(orphanUnresolved := true); }
  }

  method Attribute(before: Attribution, r: Report) returns (a: Attribution)
    ensures a == before.(failing := When(before.failing, Failing(r), r.meta.sessionId),
                         unresolvedFills := When(before.unresolvedFills, HasUnresolvedFills(r), r.meta.sessionId),
                         aborted := When(before.aborted, Aborted(r), r.meta.sessionId),
                         repeatedMismatch := When(before.repeatedMismatch, AbortedByMismatch(r), r.meta.sessionId))
  {
    var id := r.meta.sessionId;
    a := before;
    if r.verdict == Some(Fail) { a := a.(failing := a.failing + [id]); }
    if HasUnresolvedFills(r) { a := a.(unresolvedFills := a.unresolvedFills + [id]); }
    if Aborted(r) { a := a.(aborted := a.aborted + [id]); }
    if RepeatedReconcileMismatch in r.meta.aborts { a := a.(repeatedMismatch := a.repeatedMismatch + [id]); }
  }

  method CountUncleared(reports: seq<Report>) returns (n: nat, ids: seq<string>)
    ensures n == Total(reports).unclearedStartups && ids == Ids(reports, Uncleared)
  {
    n, ids := 0, [];
    for i := 0 to |reports|
      invariant n == Total(reports[..i]).unclearedStartups && ids == Ids(reports[..i], Uncleared)
    {
      assert reports[..i + 1][..i] == reports[..i];
      if Uncleared(reports[i]) { n, ids := n + 1, ids + [reports[i].meta.sessionId]; }
    }
    assert reports[..|reports|] == reports;
  }

  // ---------------------------------------------------------------------------------------------
  // The verdict.

  function ReportedDuration(t: Totals): real { NearestStep(t.duration, 0.1) }

  predicate AllPaper(t: Totals) { t.paperSessions == t.sessions && t.sessions > 0 }

  function SessionBlockers(t: Totals): seq<PromotionReason> {
    var b1 := When([], t.failed > 0, AnyFailReport);
    var b2 := When(b1, t.exitFailures > 0, PlacementFailuresPresent);
    var b3 := When(b2, t.unresolvedFills, FillsUnresolved);
    When(b3, t.aborted, SessionAbortPresent)
  }

  function StateBlockers(t: Totals, before: seq<PromotionReason>): seq<PromotionReason> {
    var b1 := When(before, t.repeatedMismatch, RepeatedMismatchPresent);
    var b2 := When(b1, t.unclearedStartups > 0, UnresolvedStartup);
    var b3 := When(b2, t.orphanUnresolved, UnresolvedOrphan);
    When(b3, t.sessions == 0, NoReports)
  }

  function Blockers(t: Totals): seq<PromotionReason> { StateBlockers(t, SessionBlockers(t)) }

  function Shortfalls(t: Totals, least: Minimums): seq<PromotionReason> {
    var s1 := When([], t.passed + t.passedWithWarnings < least.passingSessions, TooFewSessions);
    var s2 := When(s1, ReportedDuration(t) < least.duration, TooShort);
    var s3 := When(s2, !AllPaper(t) && t.entryFills < least.fills, TooFewFills);
    When(s3, !AllPaper(t) && t.evaluations < least.evaluations, TooFewEvaluations)
  }

  function Decide(t: Totals, least: Minimums): (PromotionVerdict, seq<PromotionReason>) {
    if Blockers(t) != [] then (NotReady, Blockers(t))
    else if Shortfalls(t, least) != [] then (ContinueDemoSoak, Shortfalls(t, least))
    else (ReadyForPaper, [Covered])
  }

  method ComputePromotionVerdict(t: Totals, least: Minimums)
    returns (verdict: PromotionVerdict, reasons: seq<PromotionReason>)
    ensures (verdict, reasons) == Decide(t, least)
  {
    reasons := CollectBlockers(t);
    if reasons != [] { return NotReady, reasons; }
    if t.passed + t.passedWithWarnings < least.passingSessions { reasons := reasons + [TooFewSessions]; }
    if ReportedDuration(t) < least.duration { reasons := reasons + [TooShort]; }
    if !AllPaper(t) && t.entryFills < least.fills { reasons := reasons + [TooFewFills]; }
    if !AllPaper(t) && t.evaluations < least.evaluations { reasons := reasons + [TooFewEvaluations]; }
    if reasons != [] { return ContinueDemoSoak, reasons; }
    return ReadyForPaper, [Covered];
  }

  method CollectBlockers(t: Totals) returns (reasons: seq<PromotionReason>)
    ensures reasons == Blockers(t)
  {
    reasons := [];
    if t.failed > 0 { reasons := reasons + [AnyFailReport]; }
    if t.exitFailures > 0 { reasons := reasons + [PlacementFailuresPresent]; }
    if t.unresolvedFills { reasons := reasons + [FillsUnresolved]; }
    if t.aborted { reasons := reasons + [SessionAbortPresent]; }
    if t.repeatedMismatch { reasons := reasons + [RepeatedMismatchPresent]; }
    if t.unclearedStartups > 0 { reasons := reasons + [UnresolvedStartup]; }
    if t.orphanUnresolved { reasons := reasons + [UnresolvedOrphan]; }
    if t.sessions == 0 { reasons := reasons + [NoReports]; }
  }

  function Label(reports: seq<Report>, least: Minimums): PromotionVerdict { Decide(Total(reports), least).0 }

  // ---------------------------------------------------------------------------------------------
  // Not ready means: some report is disqualifying by itself.

  predicate Disqualifying(r: Report) {
    || Failing(r) || r.execution.exitsFailed > 0 || HasUnresolvedFills(r) || Aborted(r) || r.safety.repeatedMismatch
    || Uncleared(r) || OrphanUnresolved(r)
  }

  predicate Blocked(t: Totals) {
    || t.failed > 0 || t.exitFailures > 0 || t.unresolvedFills || t.aborted || t.repeatedMismatch
    || t.unclearedStartups > 0 || t.orphanUnresolved
  }

  lemma BlockersMean(t: Totals)
    ensures Blockers(t) == [] <==> !Blocked(t) && t.sessions > 0
  {
  }

  lemma {:induction false} BlockedIffSomeReport(reports: seq<Report>)
    ensures Blocked(Total(reports)) <==> exists r :: r in reports && Disqualifying(r)
    ensures Total(reports).sessions == |reports|
  {
    if reports != [] {
      var before, r := reports[..|reports| - 1], reports[|reports| - 1];
      BlockedIffSomeReport(before);
      assert reports == before + [r];
      assert Blocked(Total(reports)) <==> Blocked(Total(before)) || Disqualifying(r);
      if exists q :: q in before && Disqualifying(q) {
        var q :| q in before && Disqualifying(q);
        assert q in reports && Disqualifying(q);
      }
      if Disqualifying(r) { assert r in reports && Disqualifying(r); }
    }
  }

  lemma NotReadyIffSomeReport(reports: seq<Report>, least: Minimums)
    requires reports != []
    ensures Label(reports, least) == NotReady <==> exists r :: r in reports && Disqualifying(r)
  {
    BlockedIffSomeReport(reports);
    BlockersMean(Total(reports));
  }

  // Splitting a batch does not change whether it is ready.
  lemma NotReadyOfParts(a: seq<Report>, b: seq<Report>, least: Minimums)
    requires a != [] && b != []
    ensures Label(a + b, least) == NotReady <==> Label(a, least) == NotReady || Label(b, least) == NotReady
  {
    NotReadyIffSomeReport(a, least);
    NotReadyIffSomeReport(b, least);
    NotReadyIffSomeReport(a + b, least);
    if exists r :: r in a && Disqualifying(r) {
      var r :| r in a && Disqualifying(r);
      assert r in a + b && Disqualifying(r);
    }
    if exists r :: r in b && Disqualifying(r) {
      var r :| r in b && Disqualifying(r);
      assert r in a + b && Disqualifying(r);
    }
  }

  // ---------------------------------------------------------------------------------------------
  // The verdict over a batch, in the reports' own fields.

  // The report is enough to give the reason by itself.
  ghost predicate Gives(r: Report, reason: PromotionReason) {
    var e := r.execution;
    match reason
    case AnyFailReport => r.verdict == Some(Fail)
    case PlacementFailuresPresent => e.exitsFailed > 0
    case FillsUnresolved =>
      (if e.entryFills == None then e.filled else e.entryFills.value)
      > e.exitsSubmitted + e.exitsFailed + e.exitsSkipped
    case SessionAbortPresent => FailsFor(r, SessionAborted)
    case RepeatedMismatchPresent => r.safety.repeatedMismatch
    case UnresolvedStartup => r.startup.Some? && r.startup.value.unclearedAtEnd
    case UnresolvedOrphan => r.safety.orphanBlocked > 0 && r.safety.orphanCleared == 0
    case _ => false
  }

  ghost predicate SomeGives(reports: seq<Report>, reason: PromotionReason) {
    exists r :: r in reports && Gives(r, reason)
  }

  // How many reports have a property, and the sum of an amount over them.
  ghost function HowMany(reports: seq<Report>, has: Report -> bool): nat {
    |set i | 0 <= i < |reports| && has(reports[i])|
  }

  ghost function Sum(reports: seq<Report>, amount: Report -> nat): nat {
    if reports == [] then 0 else amount(reports[0]) + Sum(reports[1..], amount)
  }

  ghost function TotalDuration(reports: seq<Report>): real {
    if reports == [] then 0.0
    else
      var first := reports[0].meta.duration;
      (if first == None then 0.0 else first.value) + TotalDuration(reports[1..])
  }

  predicate Passing(r: Report) { r.verdict == Some(Pass) || r.verdict == Some(PassWithWarnings) }

  predicate OnPaper(r: Report) { r.meta.paper }

  function FillsReported(r: Report): nat { if r.execution.entryFills == None then 0 else r.execution.entryFills.value }

  function EvaluationsReported(r: Report): nat { r.model.evaluations }

  lemma HowManyOneMore(reports: seq<Report>, has: Report -> bool)
    requires reports != []
    ensures HowMany(reports, has) == HowMany(reports[..|reports| - 1], has) + Flag(has(reports[|reports| - 1]))
  {
    var n, before := |reports| - 1, reports[..|reports| - 1];
    var s := set i | 0 <= i < |before| && has(before[i]);
    assert (set i | 0 <= i < |reports| && has(reports[i])) == if has(reports[n]) then s + {n} else s;
  }

  lemma {:induction false} SumOneMore(reports: seq<Report>, amount: Report -> nat)
    requires reports != []
    ensures Sum(reports, amount) == Sum(reports[..|reports| - 1], amount) + amount(reports[|reports| - 1])
  {
    if |reports| > 1 {
      SumOneMore(reports[1..], amount);
      assert reports[1..][..|reports| - 2] == reports[..|reports| - 1][1..];
    }
  }

  lemma {:induction false} DurationOneMore(reports: seq<Report>)
    requires reports != []
    ensures var last := reports[|reports| - 1].meta.duration;
            TotalDuration(reports)
            == TotalDuration(reports[..|reports| - 1]) + if last == None then 0.0 else last.value
  {
    if |reports| > 1 {
      DurationOneMore(reports[1..]);
      assert reports[1..][..|reports| - 2] == reports[..|reports| - 1][1..];
    }
  }

  // The sums of the aggregate.
  lemma {:induction false} SumsMean(reports: seq<Report>)
    ensures var t := Total(reports);
            && t.sessions == |reports| && t.paperSessions == HowMany(reports, OnPaper)
            && t.passed + t.passedWithWarnings == HowMany(reports, Passing)
            && t.entryFills == Sum(reports, FillsReported) && t.evaluations == Sum(reports, EvaluationsReported)
            && t.duration == TotalDuration(reports)
  {
    if reports != [] {
      SumsMean(reports[..|reports| - 1]);
      HowManyOneMore(reports, OnPaper);
      HowManyOneMore(reports, Passing);
      SumOneMore(reports, FillsReported);
      SumOneMore(reports, EvaluationsReported);
      DurationOneMore(reports);
    } else {
      NoneAtAll(OnPaper);
      NoneAtAll(Passing);
    }
  }

  lemma NoneAtAll(has: Report -> bool)
    ensures HowMany([], has) == 0
  {
    var none: seq<Report> := [];
    assert (set i | 0 <= i < |none| && has(none[i])) == {};
  }

  // The flags and counts behind the reasons.
  ghost function Raised(t: Totals, reason: PromotionReason): bool {
    match reason
    case AnyFailReport => t.failed > 0
    case PlacementFailuresPresent => t.exitFailures > 0
    case FillsUnresolved => t.unresolvedFills
    case SessionAbortPresent => t.aborted
    case RepeatedMismatchPresent => t.repeatedMismatch
    case UnresolvedStartup => t.unclearedStartups > 0
    case UnresolvedOrphan => t.orphanUnresolved
    case NoReports => t.sessions == 0
    case _ => false
  }

  lemma GivenIsRaised(r: Report, reason: PromotionReason)
    requires reason != NoReports
    ensures Raised(TotalsOf(r), reason) <==> Gives(r, reason)
  {
    ConditionsMean(r);
  }

  lemma RaisedByEither(a: Totals, b: Totals, reason: PromotionReason)
    requires reason != NoReports
    ensures Raised(Plus(a, b), reason) <==> Raised(a, reason) || Raised(b, reason)
  {
  }

  lemma {:induction false} RaisedIffGiven(reports: seq<Report>, reason: PromotionReason)
    requires reason != NoReports
    ensures Raised(Total(reports), reason) <==> SomeGives(reports, reason)
  {
    if reports != [] {
      var before, r := reports[..|reports| - 1], reports[|reports| - 1];
      RaisedIffGiven(before, reason);
      GivenIsRaised(r, reason);
      RaisedByEither(Total(before), TotalsOf(r), reason);
      assert reports == before + [r];
      if q :| q in before && Gives(q, reason) { assert q in reports; }
      if Gives(r, reason) { assert r in reports; }
    }
  }

  lemma BlockerIffRaised(t: Totals, reason: PromotionReason)
    ensures reason in Blockers(t) <==> Raised(t, reason)
  {
    SessionBlockerIff(t, reason);
    StateBlockerIff(t, SessionBlockers(t), reason);
  }

  lemma SessionBlockerIff(t: Totals, reason: PromotionReason)
    ensures reason in SessionBlockers(t)
       <==> reason in {AnyFailReport, PlacementFailuresPresent, FillsUnresolved, SessionAbortPresent}
            && Raised(t, reason)
  {
    var _ := FourWhen([], t.failed > 0, AnyFailReport, t.exitFailures > 0, PlacementFailuresPresent,
                      t.unresolvedFills, FillsUnresolved, t.aborted, SessionAbortPresent, reason);
  }

  lemma StateBlockerIff(t: Totals, before: seq<PromotionReason>, reason: PromotionReason)
    ensures reason in StateBlockers(t, before)
       <==> reason in before || (reason in {RepeatedMismatchPresent, UnresolvedStartup, UnresolvedOrphan, NoReports}
                                 && Raised(t, reason))
  {
    var _ := FourWhen(before, t.repeatedMismatch, RepeatedMismatchPresent, t.unclearedStartups > 0, UnresolvedStartup,
                      t.orphanUnresolved, UnresolvedOrphan, t.sessions == 0, NoReports, reason);
  }

  lemma FourWhen<T>(s: seq<T>, c1: bool, x1: T, c2: bool, x2: T, c3: bool, x3: T, c4: bool, x4: T, y: T)
    returns (r: seq<T>)
    ensures r == When(When(When(When(s, c1, x1), c2, x2), c3, x3), c4, x4)
    ensures y in r <==> y in s || (c1 && y == x1) || (c2 && y == x2) || (c3 && y == x3) || (c4 && y == x4)
  {
    r := When(When(When(When(s, c1, x1), c2, x2), c3, x3), c4, x4);
  }

  // A reason for not being ready is given exactly when some report gives it, or when there is no report at all.
  lemma BlockerIffGiven(reports: seq<Report>, reason: PromotionReason)
    ensures reason in Blockers(Total(reports))
       <==> if reason == NoReports then reports == [] else SomeGives(reports, reason)
  {
    BlockerIffRaised(Total(reports), reason);
    SumsMean(reports);
    if reason != NoReports { RaisedIffGiven(reports, reason); }
  }

  // The batch is large enough: sessions that passed, their duration to a tenth of a second, and, unless every session
  // is on paper, entry fills and model evaluations.
  ghost predicate Enough(reports: seq<Report>, least: Minimums) {
    && HowMany(reports, Passing) >= least.passingSessions
    && NearestStep(TotalDuration(reports), 0.1) >= least.duration
    && ((forall r | r in reports :: r.meta.paper)
        || (Sum(reports, FillsReported) >= least.fills && Sum(reports, EvaluationsReported) >= least.evaluations))
  }

  lemma {:induction false} AllOnPaper(reports: seq<Report>)
    ensures HowMany(reports, OnPaper) <= |reports|
    ensures HowMany(reports, OnPaper) == |reports| <==> forall r | r in reports :: r.meta.paper
  {
    if reports == [] {
      NoneAtAll(OnPaper);
    } else {
      var before, last := reports[..|reports| - 1], reports[|reports| - 1];
      AllOnPaper(before);
      HowManyOneMore(reports, OnPaper);
      assert reports == before + [last];
    }
  }

  // What is missing, one reason each.
  ghost predicate Misses(reports: seq<Report>, least: Minimums, reason: PromotionReason) {
    var onPaper := reports != [] && forall r | r in reports :: r.meta.paper;
    match reason
    case TooFewSessions => HowMany(reports, Passing) < least.passingSessions
    case TooShort => NearestStep(TotalDuration(reports), 0.1) < least.duration
    case TooFewFills => !onPaper && Sum(reports, FillsReported) < least.fills
    case TooFewEvaluations => !onPaper && Sum(reports, EvaluationsReported) < least.evaluations
    case _ => false
  }

  lemma ShortfallMeans(reports: seq<Report>, least: Minimums, reason: PromotionReason)
    ensures reason in Shortfalls(Total(reports), least) <==> Misses(reports, least, reason)
  {
    var t := Total(reports);
    SumsMean(reports);
    AllOnPaper(reports);
    var _ := FourWhen([], t.passed + t.passedWithWarnings < least.passingSessions, TooFewSessions,
                      ReportedDuration(t) < least.duration, TooShort,
                      !AllPaper(t) && t.entryFills < least.fills, TooFewFills,
                      !AllPaper(t) && t.evaluations < least.evaluations, TooFewEvaluations, reason);
  }

  // A session is listed exactly when a report of its id gives the reason the list is kept for.
  lemma AttributionMeans(reports: seq<Report>, id: string)
    ensures var a := AttributionOf(reports);
            && (id in a.failing <==> IdGives(reports, id, AnyFailReport))
            && (id in a.unresolvedFills <==> IdGives(reports, id, FillsUnresolved))
            && (id in a.aborted <==> IdGives(reports, id, SessionAbortPresent))
            && (id in a.unclearedStartup <==> IdGives(reports, id, UnresolvedStartup))
            && (id in a.repeatedMismatch
                <==> exists r :: r in reports && r.meta.sessionId == id && RepeatedReconcileMismatch in r.meta.aborts)
  {
    forall r: Report ensures Aborted(r) <==> Gives(r, SessionAbortPresent) { ConditionsMean(r); }
    IdListedFor(reports, Failing, id, AnyFailReport);
    IdListedFor(reports, HasUnresolvedFills, id, FillsUnresolved);
    IdListedFor(reports, Aborted, id, SessionAbortPresent);
    IdListedFor(reports, Uncleared, id, UnresolvedStartup);
    IdListed(reports, AbortedByMismatch, id);
  }

  lemma IdListedFor(reports: seq<Report>, listed: Report -> bool, id: string, reason: PromotionReason)
    requires forall r :: listed(r) <==> Gives(r, reason)
    ensures id in Ids(reports, listed) <==> IdGives(reports, id, reason)
  {
    IdListed(reports, listed, id);
  }

  ghost predicate IdGives(reports: seq<Report>, id: string, reason: PromotionReason) {
    exists r :: r in reports && r.meta.sessionId == id && Gives(r, reason)
  }

  lemma {:induction false} IdListed(reports: seq<Report>, listed: Report -> bool, id: string)
    ensures id in Ids(reports, listed) <==> exists r :: r in reports && r.meta.sessionId == id && listed(r)
  {
    if reports != [] {
      var before, last := reports[..|reports| - 1], reports[|reports| - 1];
      IdListed(before, listed, id);
      assert reports == before + [last];
      if r :| r in before && r.meta.sessionId == id && listed(r) { assert r in reports; }
      if last.meta.sessionId == id && listed(last) { assert last in reports; }
    }
  }

  // The verdict: not ready for an empty batch and whenever some report gives a reason; otherwise ready exactly when the
  // batch is large enough.
  lemma LabelMeans(reports: seq<Report>, least: Minimums)
    ensures Label(reports, least) == NotReady <==> reports == [] || exists reason :: SomeGives(reports, reason)
    ensures Label(reports, least) == ReadyForPaper
       <==> reports != [] && (forall reason :: !SomeGives(reports, reason)) && Enough(reports, least)
  {
    var t := Total(reports);
    forall reason ensures reason in Blockers(t)
                     <==> if reason == NoReports then reports == [] else SomeGives(reports, reason)
    {
      BlockerIffGiven(reports, reason);
    }
    if Blockers(t) != [] { assert Blockers(t)[0] in Blockers(t); }
    SumsMean(reports);
    AllOnPaper(reports);
  }

  // ---------------------------------------------------------------------------------------------
  // The order of the reports does not matter.

  lemma PlusIsSum(a: Totals, b: Totals, c: Totals)
    ensures Plus(a, b) == Plus(b, a) && Plus(Plus(a, b), c) == Plus(a, Plus(b, c)) && Plus(a, NoTotals) == a
  {
  }

  // Taking a report out of the middle of a batch takes its share out of the total.
  lemma {:induction false} TotalWithout(reports: seq<Report>, i: nat)
    requires i < |reports|
    ensures Total(reports) == Plus(Total(reports[..i] + reports[i + 1..]), TotalsOf(reports[i]))
  {
    var n := |reports| - 1;
    if i == n {
      assert reports[..i] + reports[i + 1..] == reports[..n];
    } else {
      var before, last := reports[..n], reports[n];
      TotalWithout(before, i);
      var rest := reports[..i] + reports[i + 1..];
      assert rest[..|rest| - 1] == before[..i] + before[i + 1..] && rest[|rest| - 1] == last;
      PlusIsSum(Total(rest[..|rest| - 1]), TotalsOf(reports[i]), TotalsOf(last));
      PlusIsSum(Total(rest[..|rest| - 1]), TotalsOf(last), TotalsOf(reports[i]));
      PlusIsSum(TotalsOf(last), TotalsOf(reports[i]), NoTotals);
    }
  }

  lemma {:induction false} TotalOfPermutation(a: seq<Report>, b: seq<Report>)
    requires multiset(a) == multiset(b)
    ensures Total(a) == Total(b)
    decreases |a|
  {
    assert |multiset(a)| == |a| && |multiset(b)| == |b|;
    if a != [] {
      var n := |a| - 1;
      assert a[n] in multiset(b);
      var i :| 0 <= i < |b| && b[i] == a[n];
      PermutationWithout(a, b, i);
      TotalOfPermutation(a[..n], b[..i] + b[i + 1..]);
      TotalWithout(b, i);
    }
  }

  lemma LabelOfPermutation(a: seq<Report>, b: seq<Report>, least: Minimums)
    requires multiset(a) == multiset(b)
    ensures Label(a, least) == Label(b, least)
  {
    TotalOfPermutation(a, b);
  }

  // ---------------------------------------------------------------------------------------------
  // Agreement with the soak verdict, on the reports runs produce.

  // A report of a run is disqualifying exactly when its soak verdict is a failure or the session ended with the startup
  // flag up; an orphan block that was never cleared implies the latter.
  lemma DisqualifyingOnRuns(cfg: EntryConfig, events: seq<Event>, session: Session)
    requires AllEnabled(events)
    ensures var s := Run(cfg, events);
            var r := BuildSoakReport(s, session);
            Disqualifying(r) <==> r.verdict == Some(Fail) || s.startupBlocked
  {
    var s := Run(cfg, events);
    RunIsSound(cfg, events);
    OrphanImpliesStartup(s, session);
    NoFailureMeans(BuildSoakReport(s, session).(verdict := None));
    VerdictIgnored(BuildSoakReport(s, session), None);
  }

  lemma OrphanImpliesStartup(s: State, session: Session)
    requires Sound(s)
    ensures var r := BuildSoakReport(s, session);
            && (OrphanUnresolved(r) ==> s.startupBlocked) && (Uncleared(r) <==> s.startupBlocked)
            && HasUnresolvedFills(r) == Unresolved(r.execution, r.execution.EntryCount())
            && (r.safety.startupBlocked == 0 ==> !s.startupBlocked)
  {
  }

  // On the report of a run the orphan check sees a block that is up only if no block was ever cleared before.
  lemma OrphanCheckOnRuns(cfg: EntryConfig, events: seq<Event>, session: Session)
    requires AllEnabled(events)
    ensures var s := Run(cfg, events);
            OrphanUnresolved(BuildSoakReport(s, session))
            <==> s.orphanBlocked && Count(s.desk.counters, OrphanPositionBlockCleared) == 0
  {
    RunIsSound(cfg, events);
  }

  // A cycle of an account that has no orders, locally or at the exchange.
  function OrderlessCycle(positions: seq<Position>): Event { Reconciled(Everything([], positions, []), 0) }

  lemma NothingToReconcile()
    ensures ReconcileOrders(EmptyBook, []) == (EmptyBook, []) && GoneLinks([]) == []
  {
    var locals, exchange := OpenDict(EmptyBook), ExchangeDict([]);
    assert OpenLinks(EmptyBook, None, 0) == [];
    assert locals.keys == [] && exchange.keys == [];
    assert LocalPass(EmptyBook, locals, exchange, 0) == (EmptyBook, []);
    assert RemotePass(EmptyBook, locals, exchange, 0) == (EmptyBook, []);
    var none: seq<Issue> := [];
    assert none + none == none;
  }

  lemma OrderlessCycleIsSettled(s: State, positions: seq<Position>)
    requires s.desk.book == EmptyBook
    ensures var s' := RunCycle(s, Everything([], positions, []), 0);
            var unprotected := PositionIssues(EmptyBook, positions, [], |positions|);
            s'.desk.book == EmptyBook && s'.AsGate() == AfterCycle(s.AsGate(), [], 0, unprotected)
  {
    NothingToReconcile();
  }

  lemma UnprotectedIsReported(p: Position)
    requires p.size > 0.0
    ensures PositionIssues(EmptyBook, [p], [], 1) == [Unprotected(p)] && PositionIssues(EmptyBook, [], [], 0) == []
  {
    assert !HasLocalExit(EmptyBook, p.symbol);
    assert PositionIssues(EmptyBook, [p], [], 0) == [];
  }

  lemma UnprotectedCycleBlocks(s: State, p: Position)
    requires s.desk.book == EmptyBook && p.size > 0.0
    ensures var s' := RunCycle(s, Everything([], [p], []), 0);
            && s'.desk.book == EmptyBook && s'.orphanBlocked
            && Count(s.desk.counters, OrphanPositionBlockCleared) <= Count(s'.desk.counters, OrphanPositionBlockCleared)
  {
    UnprotectedIsReported(p);
    OrderlessCycleIsSettled(s, [p]);
    FlagsByBranch(s.AsGate(), [], 0, [Unprotected(p)]);
    CycleMoves(s.AsGate(), [], 0, [Unprotected(p)]);
  }

  lemma CleanCycleClears(s: State)
    requires s.desk.book == EmptyBook && s.orphanBlocked
    ensures var s' := RunCycle(s, Everything([], [], []), 0);
            s'.desk.book == EmptyBook && Count(s'.desk.counters, OrphanPositionBlockCleared) > 0
  {
    OrderlessCycleIsSettled(s, []);
    assert PositionIssues(EmptyBook, [], [], 0) == [];
    GuardsAreExhaustive([], 0, []);
  }

  lemma RunBlocks(cfg: EntryConfig, events: seq<Event>, p: Position)
    requires AllEnabled(events) && Run(cfg, events).desk.book == EmptyBook && p.size > 0.0
    ensures var more := events + [OrderlessCycle([p])];
            && AllEnabled(more) && Run(cfg, more).desk.book == EmptyBook && Run(cfg, more).orphanBlocked
            && Count(Run(cfg, events).desk.counters, OrphanPositionBlockCleared)
               <= Count(Run(cfg, more).desk.counters, OrphanPositionBlockCleared)
  {
    RunOneMore(cfg, events, OrderlessCycle([p]));
    StepOfCycle(cfg, Run(cfg, events), OrderlessCycle([p]));
    UnprotectedCycleBlocks(Run(cfg, events), p);
  }

  lemma RunClears(cfg: EntryConfig, events: seq<Event>)
    requires AllEnabled(events) && Run(cfg, events).desk.book == EmptyBook && Run(cfg, events).orphanBlocked
    ensures var more := events + [OrderlessCycle([])];
            && AllEnabled(more) && Run(cfg, more).desk.book == EmptyBook
            && Count(Run(cfg, more).desk.counters, OrphanPositionBlockCleared) > 0
  {
    RunOneMore(cfg, events, OrderlessCycle([]));
    StepOfCycle(cfg, Run(cfg, events), OrderlessCycle([]));
    CleanCycleClears(Run(cfg, events));
  }

  lemma UpAndClearedBefore(cfg: EntryConfig, events: seq<Event>, session: Session)
    requires AllEnabled(events) && Count(Run(cfg, events).desk.counters, OrphanPositionBlockCleared) > 0
    ensures !OrphanUnresolved(BuildSoakReport(Run(cfg, events), session))
  {
    OrphanCheckOnRuns(cfg, events, session);
  }

  // Blocked, cleared and blocked again: the orphan block is up at the end and the check does not see it.
  lemma SecondOrphanBlockIsMissed(cfg: EntryConfig, p: Position, session: Session)
    requires p.size > 0.0
    ensures var events := [OrderlessCycle([p]), OrderlessCycle([]), OrderlessCycle([p])];
            && AllEnabled(events) && Run(cfg, events).orphanBlocked
            && !OrphanUnresolved(BuildSoakReport(Run(cfg, events), session))
  {
    var bad, clean := OrderlessCycle([p]), OrderlessCycle([]);
    StartParts();
    ThreeListed(bad, clean, bad);
    RunBlocks(cfg, [], p);
    RunClears(cfg, [bad]);
    RunBlocks(cfg, [bad, clean], p);
    UpAndClearedBefore(cfg, [bad, clean, bad], session);
  }

  lemma AbortIgnoresVerdict(r: Report, v: Option<Verdict>)
    ensures Aborted(r.(verdict := v)) == Aborted(r)
            && StaleFeedRecoveredSession(r.(verdict := v)) == StaleFeedRecoveredSession(r)
  {
  }

  // The verdict stored in a report plays no part in assessing it.
  lemma VerdictIgnored(r: Report, v: Option<Verdict>)
    ensures Assess(r.(verdict := v)) == Assess(r)
    ensures Aborted(r.(verdict := v)) == Aborted(r)
  {
    AbortIgnoresVerdict(r, v);
  }

  // So no run whose soak report passes is disqualifying.
  lemma PassNeverDisqualifies(cfg: EntryConfig, events: seq<Event>, session: Session)
    requires AllEnabled(events)
    ensures var r := BuildSoakReport(Run(cfg, events), session);
            r.verdict == Some(Pass) ==> !Disqualifying(r)
  {
    var s := Run(cfg, events);
    var r := BuildSoakReport(s, session);
    DisqualifyingOnRuns(cfg, events, session);
    RunIsSound(cfg, events);
    OrphanImpliesStartup(s, session);
    if r.verdict == Some(Pass) {
      PassMeansClean(r.(verdict := None));
    }
  }

  lemma {:induction false} ListedById(reports: seq<Report>, listed: Report -> bool, r: Report)
    requires r in reports && listed(r)
    ensures r.meta.sessionId in Ids(reports, listed)
  {
    var before, last := reports[..|reports| - 1], reports[|reports| - 1];
    assert reports == before + [last];
    if r in before { ListedById(before, listed, r); }
  }

  lemma FailingOrUncleared(cfg: EntryConfig, events: seq<Event>, session: Session)
    requires AllEnabled(events) && Disqualifying(BuildSoakReport(Run(cfg, events), session))
    ensures var r := BuildSoakReport(Run(cfg, events), session); Failing(r) || Uncleared(r)
  {
    DisqualifyingOnRuns(cfg, events, session);
    RunIsSound(cfg, events);
    OrphanImpliesStartup(Run(cfg, events), session);
  }

  lemma Named(reports: seq<Report>, r: Report)
    requires r in reports && (Failing(r) || Uncleared(r))
    ensures var a := AttributionOf(reports); r.meta.sessionId in a.failing || r.meta.sessionId in a.unclearedStartup
  {
    if Failing(r) { ListedById(reports, Failing, r); } else { ListedById(reports, Uncleared, r); }
  }

  // Every disqualifying session of a batch of runs' reports is named in one of the attribution lists.
  lemma DisqualifiedSessionsAreNamed(cfg: EntryConfig, events: seq<Event>, session: Session, reports: seq<Report>)
    requires AllEnabled(events) && BuildSoakReport(Run(cfg, events), session) in reports
    requires Disqualifying(BuildSoakReport(Run(cfg, events), session))
    ensures var a := AttributionOf(reports); session.id in a.failing || session.id in a.unclearedStartup
  {
    FailingOrUncleared(cfg, events, session);
    Named(reports, BuildSoakReport(Run(cfg, events), session));
  }
}
