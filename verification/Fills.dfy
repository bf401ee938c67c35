// Order-stream handling: status accounting per strategy order and the protective exit placed after an entry fill.
module Fills {
  import opened Common
  import opened Metrics
  import opened OrderBook
  import opened Execution
  import opened Sizing
  import opened StrategyOrders

  datatype SkipReason =
    | ReduceOnlyFill | UnknownSignalAction | MissingSymbol | ZeroFilledQty | MissingAvgPrice | MissingSymbolSpec

  datatype GuardReason = ExistingPosition | ExistingWorkingEntry | MaxConcurrentEntries

  // The part of the runtime that order events and entry decisions touch.
  datatype Desk = Desk(
    book: Book, counters: Counters, outcomes: Outcomes, skips: map<SkipReason, nat>, exitsAcked: set<string>,
    guardBlocks: seq<GuardReason>)

  const FreshDesk := Desk(EmptyBook, map[], FreshOutcomes, map[], {}, [])

  // filledQty of the update is the event's qty field.
  datatype OrderEvent = OrderEvent(update: Update, symbol: Option<string>) {
    function Link(): string { if update.linkId.Some? then update.linkId.value else "" }
  }

  // What the environment contributes to one event: settings, the generated exit link id, the clock, and the order id
  // the exchange acknowledges with, absent when placing the order failed.
  datatype Env = Env(
    placementEnabled: bool, specs: map<string, SymbolSpec>, takeProfitPct: real, exitLinkId: string, now: int,
    ack: Option<string>)

  predicate IsDrill(o: Order) { "drill" in o.metadata && o.metadata["drill"] != "" }

  // ---------------------------------------------------------------------------------------------
  // Placing the exit.

  datatype Plan = Skip(reason: SkipReason) | NotBuildable | Planned(intent: Intent)

  function FilledQty(prev: Order, ev: OrderEvent): real {
    if prev.filledQty > 0.0 then prev.filledQty
    else if ev.update.filledQty.Some? then ev.update.filledQty.value else 0.0
  }

  function EntryPrice(prev: Order, ev: OrderEvent): real {
    if prev.avgPrice.Some? && prev.avgPrice.value != 0.0 then prev.avgPrice.value
    else if ev.update.avgPrice.Some? then ev.update.avgPrice.value else 0.0
  }

  function ExitSymbol(prev: Order, ev: OrderEvent): string {
    if prev.symbol != "" then prev.symbol else if ev.symbol.Some? then ev.symbol.value else ""
  }

  function SideToClose(prev: Order): Option<PositionSide> {
    if "signal_action" !in prev.metadata then None
    else if prev.metadata["signal_action"] == "enter_long" then Some(Long)
    else if prev.metadata["signal_action"] == "enter_short" then Some(Short)
    else None
  }

  function PlanExit(prev: Order, ev: OrderEvent, env: Env): Plan {
    var symbol := ExitSymbol(prev, ev);
    if prev.reduceOnly then Skip(ReduceOnlyFill)
    else if SideToClose(prev).None? then Skip(UnknownSignalAction)
    else if symbol == "" then Skip(MissingSymbol)
    else if FilledQty(prev, ev) <= 0.0 then Skip(ZeroFilledQty)
    else if EntryPrice(prev, ev) <= 0.0 then Skip(MissingAvgPrice)
    else if symbol !in env.specs then Skip(MissingSymbolSpec)
    else
      var spec := env.specs[symbol];
      match BuildProtectiveExit(symbol, SideToClose(prev).value, FilledQty(prev, ev), EntryPrice(prev, ev),
                                spec.priceTick, spec.qtyStep, env.takeProfitPct, env.exitLinkId, env.now)
      case None => NotBuildable
      case Some(intent) => Planned(intent)
  }

  function NoteSubmission(d: Desk): (d': Desk)
    ensures d'.book == d.book
  {
    d.(counters := Inc(d.counters, OrderSubmissions),
       outcomes := d.outcomes.(submissions := d.outcomes.submissions + 1))
  }

  function TakeAck(d: Desk, link: string, orderId: string, now: int): (d': Desk)
    requires d.book.WellFormed()
    ensures d'.book.WellFormed() && (d.book.Iterable() ==> d'.book.Iterable())
    ensures d'.book.byLink == d.book.byLink
  {
    d.(book := Ack(d.book, link, orderId, now), counters := Inc(d.counters, OrderAcks),
       outcomes := d.outcomes.(acks := d.outcomes.acks + 1))
  }

  function SubmitIntent(d: Desk, intent: Intent, ack: Option<string>, now: int): (d': Desk)
    requires d.book.WellFormed()
    ensures d'.book.WellFormed() && (d.book.Iterable() ==> d'.book.Iterable())
    ensures d'.book.byLink == d.book.byLink
  {
    if ack.None? then NoteSubmission(d) else TakeAck(NoteSubmission(d), intent.linkId, ack.value, now)
  }

  function CountSkip(d: Desk, reason: SkipReason): Desk {
    d.(counters := Inc(d.counters, ExitPlacementSkipped), skips := d.skips[reason := SkipCount(d.skips, reason) + 1])
  }

  function SkipCount(skips: map<SkipReason, nat>, reason: SkipReason): nat {
    if reason in skips then skips[reason] else 0
  }

  predicate HasOrderId(o: Order) { o.orderId.Some? && o.orderId.value != "" }

  function Tracking(d: Desk, intent: Intent): (d': Desk)
    requires d.book.WellFormed()
    ensures d'.book.WellFormed() && (d.book.Iterable() ==> d'.book.Iterable())
            && intent.linkId in d'.book.byLink.entries
  {
    d.(book := Register(d.book, intent))
  }

  function NoteExitPlanned(d: Desk): Desk { d.(counters := Inc(d.counters, ExitPlanCreated)) }

  function NoteExitTracked(d: Desk): Desk { d.(counters := Inc(d.counters, ExitTrackingRegistered)) }

  // The planned exit becomes a tracked order.
  function TrackPlan(d: Desk, intent: Intent): (d': Desk)
    requires d.book.WellFormed()
    ensures d'.book.WellFormed() && (d.book.Iterable() ==> d'.book.Iterable())
            && intent.linkId in d'.book.byLink.entries
  {
    NoteExitTracked(Tracking(NoteExitPlanned(d), intent))
  }

  function NoteExitSubmitted(d: Desk): Desk { d.(counters := Inc(d.counters, ExitOrderSubmitted)) }

  function SubmitTracked(d: Desk, link: string, intent: Intent, env: Env): (d': Desk)
    requires d.book.WellFormed() && intent.linkId in d.book.byLink.entries
    ensures d'.book.WellFormed() && (d.book.Iterable() ==> d'.book.Iterable())
  {
    FinishExit(SubmitIntent(NoteExitSubmitted(d), intent, env.ack, env.now), link, intent.linkId)
  }

  // The exit counts as acknowledged once its order carries an exchange id.
  function FinishExit(d: Desk, link: string, exitLink: string): (d': Desk)
    requires d.book.WellFormed() && exitLink in d.book.byLink.entries
    ensures d'.book == d.book
  {
    if HasOrderId(d.book.At(exitLink)) then NoteExitAck(d, link) else d
  }

  function NoteExitAck(d: Desk, link: string): Desk {
    d.(counters := Inc(d.counters, ExitOrderAckReceived), exitsAcked := d.exitsAcked + {link})
  }

  function PlacePlanned(d: Desk, link: string, intent: Intent, env: Env): (d': Desk)
    requires d.book.WellFormed()
    ensures d'.book.WellFormed() && (d.book.Iterable() ==> d'.book.Iterable())
  {
    var d1 := TrackPlan(d, intent);
    if !env.placementEnabled then d1.(counters := Inc(d1.counters, ExitPlacementFailed))
    else SubmitTracked(d1, link, intent, env)
  }

  function PlaceExit(d: Desk, link: string, ev: OrderEvent, env: Env): (d': Desk)
    requires d.book.WellFormed() && link in d.book.byLink.entries
    ensures d'.book.WellFormed() && (d.book.Iterable() ==> d'.book.Iterable())
  {
    match PlanExit(d.book.At(link), ev, env)
    case Skip(reason) => CountSkip(d, reason)
    case NotBuildable => d.(counters := Inc(d.counters, ExitPlacementFailed))
    case Planned(intent) => PlacePlanned(d, link, intent, env)
  }

  // ---------------------------------------------------------------------------------------------
  // The event handler.

  function RecordFill(d: Desk, link: string, entry: bool): Desk {
    var o := d.outcomes;
    d.(outcomes := o.(seenFilled := o.seenFilled + {link}, filled := o.filled + 1),
       counters := if entry then Inc(d.counters, EntryFillReceived) else d.counters)
  }

  // A link id reported filled for the first time; an entry is then protected by an exit.
  function FirstFill(d: Desk, link: string, ev: OrderEvent, env: Env): (d': Desk)
    requires d.book.WellFormed() && link in d.book.byLink.entries
    ensures d'.book.WellFormed() && (d.book.Iterable() ==> d'.book.Iterable())
  {
    if d.book.At(link).reduceOnly then RecordFill(d, link, false)
    else PlaceExit(RecordFill(d, link, true), link, ev, env)
  }

  // Statuses other than a fill.
  function NoteStatus(d: Desk, link: string, status: OrderStatus): (d': Desk)
    ensures d'.book == d.book
  {
    var o := d.outcomes;
    match status
    case New =>
      if link in o.seenNew then d else d.(outcomes := o.(seenNew := o.seenNew + {link}))
    case PartiallyFilled =>
      if link in o.seenPartiallyFilled then d
      else d.(outcomes := o.(seenPartiallyFilled := o.seenPartiallyFilled + {link},
                             partiallyFilled := o.partiallyFilled + 1))
    case Filled => d
    case Cancelled =>
      if link in o.seenCancelled then d
      else d.(outcomes := o.(seenCancelled := o.seenCancelled + {link}, cancelled := o.cancelled + 1))
    case Rejected =>
      if link in o.seenRejected then d
      else d.(outcomes := o.(seenRejected := o.seenRejected + {link}, rejected := o.rejected + 1))
  }

  // The status change of a strategy order, counted once per link id and status.
  function Tally(d: Desk, link: string, status: OrderStatus, ev: OrderEvent, env: Env): (d': Desk)
    requires d.book.WellFormed() && link in d.book.byLink.entries
    ensures d'.book.WellFormed() && (d.book.Iterable() ==> d'.book.Iterable())
  {
    if status != Filled then NoteStatus(d, link, status)
    else if link in d.outcomes.seenFilled then d
    else FirstFill(d, link, ev, env)
  }

  // The status counts, without the orders the handler itself goes on to submit.
  function StatusCounts(o: Outcomes): Outcomes { o.(submissions := 0, acks := 0, seenNew := {}) }

  lemma PlacingKeepsStatusCounts(d: Desk, link: string, ev: OrderEvent, env: Env)
    requires d.book.WellFormed() && link in d.book.byLink.entries
    ensures StatusCounts(PlaceExit(d, link, ev, env).outcomes) == StatusCounts(d.outcomes)
  {
  }

  lemma FirstFillIsTransition(d: Desk, link: string, ev: OrderEvent, env: Env)
    requires d.book.WellFormed() && link in d.book.byLink.entries && link != "" && link !in d.outcomes.seenFilled
    ensures StatusCounts(FirstFill(d, link, ev, env).outcomes)
         == StatusCounts(Transitioned(d.outcomes, link, Some(Filled)))
  {
    if !d.book.At(link).reduceOnly { PlacingKeepsStatusCounts(RecordFill(d, link, true), link, ev, env); }
  }

  // The handler counts statuses the way the outcome tracker's own transition does.
  lemma TallyIsTransition(d: Desk, link: string, status: OrderStatus, ev: OrderEvent, env: Env)
    requires d.book.WellFormed() && link in d.book.byLink.entries && link != ""
    ensures StatusCounts(Tally(d, link, status, ev, env).outcomes)
         == StatusCounts(Transitioned(d.outcomes, link, Some(status)))
  {
    if status == Filled && link !in d.outcomes.seenFilled { FirstFillIsTransition(d, link, ev, env); }
  }

  // The status the order had before the event, if the event's link id names a tracked order.
  function PrevStatus(b: Book, link: string): Option<OrderStatus>
    requires b.WellFormed()
  {
    if link != "" && link in b.byLink.entries then Some(b.At(link).status) else None
  }

  // A tracked order has changed status: count it, and unless it is a drill see to what follows.
  function Transit(d: Desk, link: string, ev: OrderEvent, env: Env, drillLink: string): (d': Desk)
    requires d.book.WellFormed() && link in d.book.byLink.entries
    ensures d'.book.WellFormed() && (d.book.Iterable() ==> d'.book.Iterable())
  {
    var d1 := d.(counters := Inc(d.counters, OrderStateTransitions));
    if link == drillLink || IsDrill(d1.book.At(link)) || ev.update.status.None? then d1
    else Tally(d1, link, ev.update.status.value, ev, env)
  }

  function OnOrderEvent(d: Desk, ev: OrderEvent, env: Env, drillLink: string): (d': Desk)
    requires d.book.WellFormed()
    ensures d'.book.WellFormed() && (d.book.Iterable() ==> d'.book.Iterable())
  {
    var prev := PrevStatus(d.book, ev.Link());
    var d1 := d.(book := ApplyUpdate(d.book, ev.update));
    if prev.None? || prev == ev.update.status then d1 else Transit(d1, ev.Link(), ev, env, drillLink)
  }

  // Whether the event makes the runtime attempt to place a protective exit.
  predicate AttemptsExit(d: Desk, ev: OrderEvent, drillLink: string)
    requires d.book.WellFormed()
  {
    var link, b := ev.Link(), ApplyUpdate(d.book, ev.update);
    && PrevStatus(d.book, link).Some? && PrevStatus(d.book, link) != ev.update.status
    && link != drillLink && ev.update.status == Some(Filled)
    && !IsDrill(b.At(link)) && !b.At(link).reduceOnly && link !in d.outcomes.seenFilled
  }

  // ---------------------------------------------------------------------------------------------
  // The accounts.

  function SkipTotal(skips: map<SkipReason, nat>): nat {
    SkipCount(skips, ReduceOnlyFill) + SkipCount(skips, UnknownSignalAction) + SkipCount(skips, MissingSymbol) +
    SkipCount(skips, ZeroFilledQty) + SkipCount(skips, MissingAvgPrice) + SkipCount(skips, MissingSymbolSpec)
  }

  function ExitsResolved(m: Counters): nat {
    Count(m, ExitOrderSubmitted) + Count(m, ExitPlacementFailed) + Count(m, ExitPlacementSkipped)
  }

  // Every entry fill is accounted for by exactly one of submitted, failed and skipped.
  ghost predicate ExitsBalance(d: Desk) {
    && Count(d.counters, EntryFillReceived) == ExitsResolved(d.counters)
    && Count(d.counters, ExitPlacementSkipped) == SkipTotal(d.skips)
    && Count(d.counters, EntryFillReceived) <= d.outcomes.filled == |d.outcomes.seenFilled|
    && Count(d.counters, ExitOrderAckReceived) <= Count(d.counters, ExitOrderSubmitted)
    && Count(d.counters, ExitPlanCreated) == Count(d.counters, ExitTrackingRegistered)
    && d.exitsAcked <= d.outcomes.seenFilled
  }

  // The counters the accounts speak of, as numbers.
  datatype ExitCounts = ExitCounts(entry: nat, plan: nat, tracking: nat, submitted: nat, acked: nat, failed: nat,
      skipped: nat)

  function ExitCountsOf(m: Counters): ExitCounts {
    ExitCounts(Count(m, EntryFillReceived), Count(m, ExitPlanCreated), Count(m, ExitTrackingRegistered),
               Count(m, ExitOrderSubmitted), Count(m, ExitOrderAckReceived), Count(m, ExitPlacementFailed),
               Count(m, ExitPlacementSkipped))
  }

  lemma FreshDeskBalances()
    ensures ExitsBalance(FreshDesk)
  {
    assert SkipTotal(map[]) == 0 && ExitCountsOf(map[]) == ExitCounts(0, 0, 0, 0, 0, 0, 0);
  }

  // Submitting an order moves none of them.
  lemma SubmittingMovesNoExitCount(d: Desk, intent: Intent, ack: Option<string>, now: int)
    requires d.book.WellFormed()
    ensures var d' := SubmitIntent(d, intent, ack, now);
            && ExitCountsOf(d'.counters) == ExitCountsOf(d.counters) && d'.skips == d.skips
            && d'.exitsAcked == d.exitsAcked && d'.outcomes.seenFilled == d.outcomes.seenFilled
            && d'.outcomes.filled == d.outcomes.filled
  {
  }

  // What placing an exit for one entry fill does to the accounts: one of submitted, failed and skipped goes up, once.
  ghost predicate ResolvesOne(d: Desk, d': Desk, link: string) {
    var c, c' := ExitCountsOf(d.counters), ExitCountsOf(d'.counters);
    && c'.submitted + c'.failed + c'.skipped == c.submitted + c.failed + c.skipped + 1
    && c'.entry == c.entry && c'.skipped - c.skipped == SkipTotal(d'.skips) - SkipTotal(d.skips)
    && c'.plan - c.plan == c'.tracking - c.tracking
    && c.acked <= c'.acked <= c.acked + c'.submitted - c.submitted
    && d'.exitsAcked <= d.exitsAcked + {link}
    && d'.outcomes.seenFilled == d.outcomes.seenFilled && d'.outcomes.filled == d.outcomes.filled
  }

  lemma SkippingResolvesOne(d: Desk, link: string, reason: SkipReason)
    ensures ResolvesOne(d, CountSkip(d, reason), link)
  {
    OneMoreSkip(d.skips, reason);
    assert ExitCountsOf(CountSkip(d, reason).counters)
        == ExitCountsOf(d.counters).(skipped := Count(d.counters, ExitPlacementSkipped) + 1);
  }

  lemma OneMoreSkip(skips: map<SkipReason, nat>, reason: SkipReason)
    ensures SkipTotal(skips[reason := SkipCount(skips, reason) + 1]) == SkipTotal(skips) + 1
  {
  }

  lemma SubmittingResolvesOne(d: Desk, link: string, intent: Intent, env: Env)
    requires d.book.WellFormed()
    ensures ResolvesOne(d, PlacePlanned(d, link, intent, env), link)
  {
    var d1, c := TrackPlan(d, intent), ExitCountsOf(d.counters);
    PlanningCounts(d, intent);
    if env.placementEnabled {
      SubmittingMovesNoExitCount(NoteExitSubmitted(d1), intent, env.ack, env.now);
      FinishingCounts(SubmitIntent(NoteExitSubmitted(d1), intent, env.ack, env.now), link, intent.linkId);
    } else {
      assert ExitCountsOf(Inc(d1.counters, ExitPlacementFailed)) == ExitCountsOf(d1.counters).(failed := c.failed + 1);
    }
  }

  lemma PlanningCounts(d: Desk, intent: Intent)
    requires d.book.WellFormed()
    ensures var d1, c := TrackPlan(d, intent), ExitCountsOf(d.counters);
            && d1 == d.(book := d1.book, counters := d1.counters)
            && ExitCountsOf(d1.counters) == c.(plan := c.plan + 1, tracking := c.tracking + 1)
            && ExitCountsOf(NoteExitSubmitted(d1).counters)
               == c.(plan := c.plan + 1, tracking := c.tracking + 1, submitted := c.submitted + 1)
  {
  }

  lemma FinishingCounts(d: Desk, link: string, exitLink: string)
    requires d.book.WellFormed() && exitLink in d.book.byLink.entries
    ensures var d', c := FinishExit(d, link, exitLink), ExitCountsOf(d.counters);
            && (ExitCountsOf(d'.counters) == c || ExitCountsOf(d'.counters) == c.(acked := c.acked + 1))
            && d'.skips == d.skips && d'.exitsAcked <= d.exitsAcked + {link} && d'.outcomes == d.outcomes
  {
  }

  lemma PlacementResolvesOne(d: Desk, link: string, ev: OrderEvent, env: Env)
    requires d.book.WellFormed() && link in d.book.byLink.entries
    ensures ResolvesOne(d, PlaceExit(d, link, ev, env), link)
  {
    match PlanExit(d.book.At(link), ev, env)
    case Skip(reason) => SkippingResolvesOne(d, link, reason);
    case NotBuildable =>
    case Planned(intent) => SubmittingResolvesOne(d, link, intent, env);
  }

  // A strategy entry's first fill: one more entry fill, resolved at once.
  lemma EntryFillKeepsAccounts(d: Desk, link: string, ev: OrderEvent, env: Env)
    requires d.book.WellFormed() && link in d.book.byLink.entries && ExitsBalance(d)
    requires link !in d.outcomes.seenFilled && !d.book.At(link).reduceOnly
    ensures ExitsBalance(Tally(d, link, Filled, ev, env))
    ensures Tally(d, link, Filled, ev, env).outcomes.seenFilled == d.outcomes.seenFilled + {link}
    ensures Count(Tally(d, link, Filled, ev, env).counters, EntryFillReceived)
            == Count(d.counters, EntryFillReceived) + 1
  {
    var d1 := RecordFill(d, link, true);
    PlacementResolvesOne(d1, link, ev, env);
    ResolvedFillBalances(d, d1, PlaceExit(d1, link, ev, env), link);
  }

  lemma ResolvedFillBalances(d: Desk, d1: Desk, d2: Desk, link: string)
    requires ExitsBalance(d) && link !in d.outcomes.seenFilled && ResolvesOne(d1, d2, link)
    requires ExitCountsOf(d1.counters) == ExitCountsOf(d.counters).(entry := Count(d.counters, EntryFillReceived) + 1)
    requires d1.skips == d.skips && d1.exitsAcked == d.exitsAcked
    requires d1.outcomes.seenFilled == d.outcomes.seenFilled + {link} && d1.outcomes.filled == d.outcomes.filled + 1
    ensures ExitsBalance(d2) && d2.outcomes.seenFilled == d.outcomes.seenFilled + {link}
    ensures Count(d2.counters, EntryFillReceived) == Count(d.counters, EntryFillReceived) + 1
  {
    assert ExitCountsOf(d2.counters).entry == ExitCountsOf(d.counters).entry + 1;
  }

  lemma TallyKeepsAccounts(d: Desk, link: string, status: OrderStatus, ev: OrderEvent, env: Env)
    requires d.book.WellFormed() && link in d.book.byLink.entries && ExitsBalance(d)
    ensures ExitsBalance(Tally(d, link, status, ev, env))
    ensures d.outcomes.seenFilled <= Tally(d, link, status, ev, env).outcomes.seenFilled
    ensures Count(Tally(d, link, status, ev, env).counters, EntryFillReceived)
         == Count(d.counters, EntryFillReceived)
            + if status == Filled && link !in d.outcomes.seenFilled && !d.book.At(link).reduceOnly then 1 else 0
  {
    if status == Filled && link !in d.outcomes.seenFilled && !d.book.At(link).reduceOnly {
      EntryFillKeepsAccounts(d, link, ev, env);
    }
  }

  // What handling something did to the accounts, given whether an exit was attempted for the link.
  ghost predicate KeepsAccounts(d: Desk, d': Desk, attempted: bool, link: string) {
    && ExitsBalance(d')
    && d.outcomes.seenFilled <= d'.outcomes.seenFilled
    && (attempted ==> link in d'.outcomes.seenFilled - d.outcomes.seenFilled)
    && Count(d'.counters, EntryFillReceived) == Count(d.counters, EntryFillReceived) + if attempted then 1 else 0
  }

  // The order's status change is an entry's first fill, not a drill's.
  predicate FillsEntry(d: Desk, link: string, ev: OrderEvent, drillLink: string)
    requires d.book.WellFormed() && link in d.book.byLink.entries
  {
    && link != drillLink && ev.update.status == Some(Filled)
    && !IsDrill(d.book.At(link)) && !d.book.At(link).reduceOnly && link !in d.outcomes.seenFilled
  }

  lemma TransitKeepsAccounts(d: Desk, link: string, ev: OrderEvent, env: Env, drillLink: string)
    requires d.book.WellFormed() && link in d.book.byLink.entries && ExitsBalance(d)
    ensures KeepsAccounts(d, Transit(d, link, ev, env, drillLink), FillsEntry(d, link, ev, drillLink), link)
  {
    var d1 := d.(counters := Inc(d.counters, OrderStateTransitions));
    assert ExitCountsOf(d1.counters) == ExitCountsOf(d.counters);
    if ev.update.status.Some? {
      TallyKeepsAccounts(d1, link, ev.update.status.value, ev, env);
      if FillsEntry(d, link, ev, drillLink) { EntryFillKeepsAccounts(d1, link, ev, env); }
    }
  }

  // Handling any event, duplicates and re-opened orders included, keeps the accounts; and an attempt is exactly a
  // count of one more entry fill, for a link id not filled before.
  lemma EventKeepsAccounts(d: Desk, ev: OrderEvent, env: Env, drillLink: string)
    requires d.book.WellFormed() && ExitsBalance(d)
    ensures KeepsAccounts(d, OnOrderEvent(d, ev, env, drillLink), AttemptsExit(d, ev, drillLink), ev.Link())
  {
    var prev := PrevStatus(d.book, ev.Link());
    if prev.Some? && prev != ev.update.status {
      TransitKeepsAccounts(d.(book := ApplyUpdate(d.book, ev.update)), ev.Link(), ev, env, drillLink);
    }
  }

  // ---------------------------------------------------------------------------------------------
  // Which counters order events move.

  const FillMetrics: set<Metric> := {
    OrderStateTransitions, OrderSubmissions, OrderAcks, EntryFillReceived, ExitPlanCreated, ExitTrackingRegistered,
    ExitOrderSubmitted, ExitOrderAckReceived, ExitPlacementFailed, ExitPlacementSkipped}

  lemma SubmittingMoves(m: Counters, d: Desk, intent: Intent, ack: Option<string>, now: int, keys: set<Metric>)
    requires d.book.WellFormed() && Moves(m, d.counters, keys) && {OrderSubmissions, OrderAcks} <= keys
    ensures Moves(m, SubmitIntent(d, intent, ack, now).counters, keys)
  {
    MovesOn(m, d.counters, OrderSubmissions, 1, keys);
    MovesOn(m, Inc(d.counters, OrderSubmissions), OrderAcks, 1, keys);
  }

  lemma PlanningMoves(m: Counters, d: Desk, link: string, intent: Intent, env: Env)
    requires d.book.WellFormed() && Moves(m, d.counters, FillMetrics)
    ensures Moves(m, PlacePlanned(d, link, intent, env).counters, FillMetrics)
  {
    MovesOn(m, d.counters, ExitPlanCreated, 1, FillMetrics);
    MovesOn(m, Inc(d.counters, ExitPlanCreated), ExitTrackingRegistered, 1, FillMetrics);
    var d1 := d.(book := Register(d.book, intent),
                 counters := Inc(Inc(d.counters, ExitPlanCreated), ExitTrackingRegistered));
    MovesOn(m, d1.counters, ExitPlacementFailed, 1, FillMetrics);
    MovesOn(m, d1.counters, ExitOrderSubmitted, 1, FillMetrics);
    SubmittingMoves(m, d1.(counters := Inc(d1.counters, ExitOrderSubmitted)), intent, env.ack, env.now, FillMetrics);
    var d2 := SubmitIntent(d1.(counters := Inc(d1.counters, ExitOrderSubmitted)), intent, env.ack, env.now);
    MovesOn(m, d2.counters, ExitOrderAckReceived, 1, FillMetrics);
  }

  lemma PlacingMoves(m: Counters, d: Desk, link: string, ev: OrderEvent, env: Env)
    requires d.book.WellFormed() && link in d.book.byLink.entries && Moves(m, d.counters, FillMetrics)
    ensures Moves(m, PlaceExit(d, link, ev, env).counters, FillMetrics)
  {
    match PlanExit(d.book.At(link), ev, env)
    case Skip(_) => MovesOn(m, d.counters, ExitPlacementSkipped, 1, FillMetrics);
    case NotBuildable => MovesOn(m, d.counters, ExitPlacementFailed, 1, FillMetrics);
    case Planned(intent) => PlanningMoves(m, d, link, intent, env);
  }

  lemma EntryFillMoves(m: Counters, d: Desk, link: string, ev: OrderEvent, env: Env)
    requires d.book.WellFormed() && link in d.book.byLink.entries && Moves(m, d.counters, FillMetrics)
    requires link !in d.outcomes.seenFilled && !d.book.At(link).reduceOnly
    ensures Moves(m, Tally(d, link, Filled, ev, env).counters, FillMetrics)
  {
    var d1 := RecordFill(d, link, true);
    MovesOn(m, d.counters, EntryFillReceived, 1, FillMetrics);
    PlacingMoves(m, d1, link, ev, env);
  }

  lemma TallyMoves(m: Counters, d: Desk, link: string, status: OrderStatus, ev: OrderEvent, env: Env)
    requires d.book.WellFormed() && link in d.book.byLink.entries && Moves(m, d.counters, FillMetrics)
    ensures Moves(m, Tally(d, link, status, ev, env).counters, FillMetrics)
  {
    if status == Filled && link !in d.outcomes.seenFilled && !d.book.At(link).reduceOnly {
      EntryFillMoves(m, d, link, ev, env);
    }
  }

  lemma EventMoves(d: Desk, ev: OrderEvent, env: Env, drillLink: string)
    requires d.book.WellFormed()
    ensures Moves(d.counters, OnOrderEvent(d, ev, env, drillLink).counters, FillMetrics)
  {
    var link, prev := ev.Link(), PrevStatus(d.book, ev.Link());
    if prev.Some? && prev != ev.update.status {
      var d2 := d.(book := ApplyUpdate(d.book, ev.update), counters := Inc(d.counters, OrderStateTransitions));
      MovesOn(d.counters, d.counters, OrderStateTransitions, 1, FillMetrics);
      if link != drillLink && !IsDrill(d2.book.At(link)) && ev.update.status.Some? {
        TallyMoves(d.counters, d2, link, ev.update.status.value, ev, env);
      }
    }
  }
}
