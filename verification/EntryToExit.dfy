// From an accepted entry to the exit that protects it: decision, registration, fill and placement taken together.
module EntryToExit {
  import opened BlockGate
  import opened Common
  import opened Entries
  import opened Execution
  import opened Fills
  import opened Metrics
  import opened OrderBook
  import opened OrderHistory
  import opened Reconciliation
  import opened Rounding
  import opened Runtime
  import opened Sizing
  import opened Stabilisation

  // The strategy's action and side agree: it buys to go long and sells to go short.
  ghost predicate ActionAgrees(s: Signal) {
    (s.action == EnterLong && s.side == Some(Buy)) || (s.action == EnterShort && s.side == Some(Sell))
  }

  // The stream reports the entry under the given link id filled in full at a price.
  ghost predicate FilledInFull(pairs: Pairing, ev: OrderEvent, link: string, qty: real, price: real) {
    && ev.update.linkId == Some(link) && UpdatePaired(pairs, ev.update)
    && ev.update.status == Some(Filled) && ev.update.filledQty == Some(qty) && ev.update.avgPrice == Some(price)
  }

  // The exit takes profit on a position entered on the given side: it closes exactly the quantity on the other side,
  // with a reduce-only limit order in whole ticks, at a profit as soon as the profit distance exceeds half a tick.
  ghost predicate Protects(exit: Intent, side: Side, qty: real, price: real, tick: real, pct: real) {
    && exit.reduceOnly && exit.purpose == Exit && exit.qty == qty && exit.price.Some?
    && exit.side == (if side == Buy then Sell else Buy)
    && WholeSteps(exit.price.value, tick)
    && (price * pct > tick / 2.0 ==> if side == Buy then exit.price.value > price else exit.price.value < price)
  }

  // Entering tracks the intent as an order of its own.
  lemma EnteredIsTracked(pairs: Pairing, cfg: EntryConfig, d: Desk, i: Intent, ack: Option<string>, now: int)
    requires d.book.Iterable() && Coherent(pairs, d.book) && OwnAck(pairs, i.linkId, ack)
    requires i.linkId !in d.book.byLink.entries && i.purpose == Entry && !i.reduceOnly
    ensures var b := Enter(cfg, d, i, ack, now).book;
            && Coherent(pairs, b) && i.linkId in b.byLink.entries && Mirrors(b.At(i.linkId), i)
            && b.At(i.linkId).orderId == if cfg.placementEnabled then ack else None
  {
    EnteringKeepsCoherence(pairs, cfg, d, i, ack, now);
  }

  ghost predicate Mirrors(o: Order, i: Intent) {
    && o.symbol == i.symbol && o.qty == i.qty && o.reduceOnly == i.reduceOnly && o.status == New
    && (forall k | k in i.metadata :: k in o.metadata && o.metadata[k] == i.metadata[k])
    && ("drill" in o.metadata ==> "drill" in i.metadata)
  }

  lemma DecidedIsTracked(pairs: Pairing, cfg: EntryConfig, d: Desk, w: Surroundings, c: Candidate, i: Intent)
    requires d.book.Iterable() && w.portfolio.positions.Listed() && Coherent(pairs, d.book)
    requires Judge(cfg, d.book, w, c) == Accepted(i) && c.linkId !in d.book.byLink.entries
    requires OwnAck(pairs, c.linkId, c.ack)
    ensures var b := Decide(cfg, d, w, c).book;
            && Coherent(pairs, b) && c.linkId in b.byLink.entries && Mirrors(b.At(c.linkId), i)
            && b.At(c.linkId).orderId == if cfg.placementEnabled then c.ack else None
  {
    AcceptedIntent(cfg, d.book, w, c);
    EnactAccepted(cfg, d, w, c, i);
    EnteredIsTracked(pairs, cfg, NoteReentry(cfg, d, c.signal.symbol, HeldQty(w.portfolio, c.signal.symbol)), i, c.ack,
                     c.now);
  }

  // The plan made for a filled entry, from the order as the store then has it.
  lemma PlanProtects(o: Order, ev: OrderEvent, env: Env, side: Side, price: real)
    requires !o.reduceOnly && o.symbol != "" && o.symbol in env.specs && "signal_action" in o.metadata
    requires o.metadata["signal_action"] == if side == Buy then "enter_long" else "enter_short"
    requires o.filledQty > 0.0 && o.avgPrice == Some(price) && price > 0.0
    requires var spec := env.specs[o.symbol];
             spec.priceTick > 0.0 && spec.qtyStep > 0.0 && WholeSteps(o.filledQty, spec.qtyStep)
    ensures var plan := PlanExit(o, ev, env);
            && plan.Planned? && plan.intent.symbol == o.symbol && plan.intent.linkId == env.exitLinkId
            && Protects(plan.intent, side, o.filledQty, price, env.specs[o.symbol].priceTick, env.takeProfitPct)
  {
    var spec := env.specs[o.symbol];
    ProtectiveExitCoversFill(o.symbol, if side == Buy then Long else Short, o.filledQty, price, spec.priceTick,
                             spec.qtyStep, env.takeProfitPct, env.exitLinkId, env.now);
  }

  lemma SizedInWholeSteps(cfg: EntryConfig, w: Surroundings, c: Candidate, spec: SymbolSpec)
    requires spec.qtyStep > 0.0 && spec.minQty > 0.0 && SizedQty(cfg, w, c, spec) > 0.0
    ensures WholeSteps(SizedQty(cfg, w, c, spec), spec.qtyStep)
  {
    NonZeroSizeIsLargest(cfg.sizing, Inputs(if w.portfolio.equity < 1.0 then 1.0 else w.portfolio.equity,
                         c.signal.confidence, c.volatilityBps, c.signal.referencePrice, cfg.maxLeverage), spec);
  }

  // What is assumed of the settings: the symbol has a name and the same positive steps for entries and exits.
  ghost predicate Tradable(cfg: EntryConfig, env: Env, symbol: string) {
    && symbol != "" && symbol in cfg.specs && symbol in env.specs
    && cfg.specs[symbol].qtyStep == env.specs[symbol].qtyStep > 0.0
    && cfg.specs[symbol].minQty > 0.0 && env.specs[symbol].priceTick > 0.0
  }

  // A tracked entry that fills in full is planned an exit that protects it.
  lemma FilledOrderIsProtected(
    pairs: Pairing, b: Book, i: Intent, side: Side, ev: OrderEvent, env: Env, price: real)
    requires Coherent(pairs, b) && i.linkId in b.byLink.entries && Mirrors(b.At(i.linkId), i)
    requires i.symbol != "" && i.symbol in env.specs && !i.reduceOnly && "signal_action" in i.metadata
    requires i.metadata["signal_action"] == if side == Buy then "enter_long" else "enter_short"
    requires FilledInFull(pairs, ev, i.linkId, i.qty, price) && price > 0.0 && i.qty > 0.0
    requires env.specs[i.symbol].priceTick > 0.0 && env.specs[i.symbol].qtyStep > 0.0
             && WholeSteps(i.qty, env.specs[i.symbol].qtyStep)
    ensures var b' := ApplyUpdate(b, ev.update);
            && b'.byLink == b.byLink
            && var plan := PlanExit(b'.At(i.linkId), ev, env);
               && plan.Planned? && plan.intent.symbol == i.symbol && plan.intent.linkId == env.exitLinkId
               && Protects(plan.intent, side, i.qty, price, env.specs[i.symbol].priceTick, env.takeProfitPct)
  {
    UpdateSetsWhatItGives(pairs, b, ev.update, i.linkId);
    var b' := ApplyUpdate(b, ev.update);
    assert b'.At(i.linkId) == Tracked(b')[i.linkId] && b.At(i.linkId) == Tracked(b)[i.linkId];
    PlanProtects(b'.At(i.linkId), ev, env, side, price);
  }

  // An accepted entry whose action agrees with its side, once it fills in full, is planned an exit that protects it:
  // for exactly its quantity, on the other side, at a profit.
  lemma FilledEntryIsProtected(
    pairs: Pairing, cfg: EntryConfig, d: Desk, w: Surroundings, c: Candidate, i: Intent, ev: OrderEvent, env: Env,
    price: real)
    requires d.book.Iterable() && w.portfolio.positions.Listed() && Coherent(pairs, d.book)
    requires Judge(cfg, d.book, w, c) == Accepted(i) && c.linkId !in d.book.byLink.entries
    requires OwnAck(pairs, c.linkId, c.ack) && ActionAgrees(c.signal) && Tradable(cfg, env, c.signal.symbol)
    requires FilledInFull(pairs, ev, c.linkId, i.qty, price) && price > 0.0
    ensures var b := ApplyUpdate(Decide(cfg, d, w, c).book, ev.update);
            && c.linkId in b.byLink.entries && i.symbol == c.signal.symbol && Some(i.side) == c.signal.side
            && var plan := PlanExit(b.At(c.linkId), ev, env);
               && plan.Planned? && plan.intent.symbol == i.symbol && plan.intent.linkId == env.exitLinkId
               && Protects(plan.intent, i.side, i.qty, price, env.specs[i.symbol].priceTick, env.takeProfitPct)
  {
    AcceptedIntent(cfg, d.book, w, c);
    AcceptedWasApproved(cfg, d.book, w, c);
    DecidedIsTracked(pairs, cfg, d, w, c, i);
    SizedInWholeSteps(cfg, w, c, cfg.specs[c.signal.symbol]);
    FilledOrderIsProtected(pairs, Decide(cfg, d, w, c).book, i, i.side, ev, env, price);
  }

  // Why a fill gets no exit: the first of the checks that fails, each from the order and the event alone. The order's
  // own quantity, price and symbol come before the event's. The cases exclude one another, so they are exact.
  lemma PlanIsDecided(o: Order, ev: OrderEvent, env: Env)
    ensures var known := "signal_action" in o.metadata && o.metadata["signal_action"] in {"enter_long", "enter_short"};
            var symbol := if o.symbol != "" then Some(o.symbol) else if ev.symbol == Some("") then None else ev.symbol;
            var qty := if o.filledQty > 0.0 then Some(o.filledQty) else ev.update.filledQty;
            var price := if o.avgPrice == None || o.avgPrice == Some(0.0) then ev.update.avgPrice else o.avgPrice;
            var filled := !o.reduceOnly && known && symbol != None && qty.Some? && qty.value > 0.0;
            match PlanExit(o, ev, env)
            case Skip(ReduceOnlyFill) => o.reduceOnly
            case Skip(UnknownSignalAction) => !o.reduceOnly && !known
            case Skip(MissingSymbol) => !o.reduceOnly && known && symbol == None
            case Skip(ZeroFilledQty) => !o.reduceOnly && known && symbol != None && (qty == None || qty.value <= 0.0)
            case Skip(MissingAvgPrice) => filled && (price == None || price.value <= 0.0)
            case Skip(MissingSymbolSpec) => filled && price.Some? && price.value > 0.0 && symbol.value !in env.specs
            case NotBuildable =>
              && filled && price.Some? && price.value > 0.0 && symbol.value in env.specs
              && NearestStep(qty.value, env.specs[symbol.value].qtyStep) <= 0.0
            case Planned(exit) =>
              && filled && price.Some? && price.value > 0.0 && symbol.value in env.specs && exit.symbol == symbol.value
              && exit.qty == NearestStep(qty.value, env.specs[symbol.value].qtyStep) > 0.0
  {
  }

  // ---------------------------------------------------------------------------------------------
  // The handler.

  // The exit is a tracked order, bound to the exchange's id once it is submitted and acknowledged.
  ghost predicate TracksExit(b: Book, exit: Intent, env: Env) {
    && b.WellFormed() && exit.linkId in b.byLink.entries
    && var o := b.At(exit.linkId);
       && o.symbol == exit.symbol && o.qty == exit.qty && o.reduceOnly == exit.reduceOnly && o.status == New
       && o.orderId == if env.placementEnabled then env.ack else None
  }

  // So many entry fills are counted, and one exit as planned and tracked, as submitted or failed, and as acknowledged
  // once the exchange has given it an id that is not empty.
  ghost predicate CountsExit(m: Counters, m': Counters, env: Env, fills: nat) {
    var c, c' := ExitCountsOf(m), ExitCountsOf(m');
    && c'.entry == c.entry + fills && c'.plan == c.plan + 1 && c'.tracking == c.tracking + 1
    && c'.skipped == c.skipped
    && c'.submitted == c.submitted + Flag(env.placementEnabled)
    && c'.failed == c.failed + Flag(!env.placementEnabled)
    && c'.acked == c.acked + Flag(env.placementEnabled && env.ack.Some? && env.ack.value != "")
  }

  lemma SubmittedIsTracked(d: Desk, exit: Intent, ack: Option<string>, now: int)
    requires d.book.WellFormed() && exit.linkId in d.book.byLink.entries
    ensures var b := SubmitIntent(d, exit, ack, now).book;
            b.At(exit.linkId).orderId == (if ack.Some? then ack else d.book.At(exit.linkId).orderId)
            && SameOrder(d.book.At(exit.linkId), b.At(exit.linkId))
  {
  }

  ghost predicate SameOrder(o: Order, o': Order) {
    && o'.symbol == o.symbol && o'.qty == o.qty && o'.reduceOnly == o.reduceOnly && o'.status == o.status
    && o'.metadata == o.metadata
  }

  lemma PlacedIsTracked(d: Desk, link: string, exit: Intent, env: Env)
    requires d.book.WellFormed() && exit.linkId !in d.book.byLink.entries
    ensures TracksExit(PlacePlanned(d, link, exit, env).book, exit, env)
  {
    var d1 := TrackPlan(d, exit);
    assert d1.book.At(exit.linkId) == OrderOfIntent(exit);
    if env.placementEnabled { SubmittedIsTracked(NoteExitSubmitted(d1), exit, env.ack, env.now); }
  }

  lemma PlacedIsCounted(d: Desk, link: string, exit: Intent, env: Env)
    requires d.book.WellFormed() && exit.linkId !in d.book.byLink.entries
    ensures CountsExit(d.counters, PlacePlanned(d, link, exit, env).counters, env, 0)
  {
    PlanningCounts(d, exit);
    var d1 := TrackPlan(d, exit);
    assert d1.book.At(exit.linkId).orderId == None;
    if env.placementEnabled {
      var d2 := SubmitIntent(NoteExitSubmitted(d1), exit, env.ack, env.now);
      SubmittingMovesNoExitCount(NoteExitSubmitted(d1), exit, env.ack, env.now);
      SubmittedIsTracked(NoteExitSubmitted(d1), exit, env.ack, env.now);
      FinishedIsCounted(d2, link, exit.linkId);
    } else {
      assert ExitCountsOf(Inc(d1.counters, ExitPlacementFailed))
          == ExitCountsOf(d1.counters).(failed := Count(d1.counters, ExitPlacementFailed) + 1);
    }
  }

  lemma FinishedIsCounted(d: Desk, link: string, exitLink: string)
    requires d.book.WellFormed() && exitLink in d.book.byLink.entries
    ensures var c, id := ExitCountsOf(d.counters), d.book.At(exitLink).orderId;
            ExitCountsOf(FinishExit(d, link, exitLink).counters)
            == c.(acked := c.acked + Flag(id.Some? && id.value != ""))
  {
  }

  // The exit counts as done for the entry it protects exactly when it is acknowledged.
  lemma AcknowledgedIsDone(d: Desk, link: string, exit: Intent, env: Env)
    requires d.book.WellFormed() && exit.linkId !in d.book.byLink.entries
    ensures PlacePlanned(d, link, exit, env).exitsAcked
         == if env.placementEnabled && env.ack.Some? && env.ack.value != "" then d.exitsAcked + {link} else d.exitsAcked
  {
    var d1 := TrackPlan(d, exit);
    assert d1.book.At(exit.linkId).orderId == None;
    if env.placementEnabled { SubmittedIsTracked(NoteExitSubmitted(d1), exit, env.ack, env.now); }
  }

  // A fill that gets no plan is counted under the reason it has none, and nothing else changes.
  lemma SkippedIsRecorded(d: Desk, link: string, ev: OrderEvent, env: Env)
    requires d.book.WellFormed() && link in d.book.byLink.entries && PlanExit(d.book.At(link), ev, env).Skip?
    ensures var reason, d' := PlanExit(d.book.At(link), ev, env).reason, PlaceExit(d, link, ev, env);
            && (forall r :: (if r in d'.skips then d'.skips[r] else 0)
                            == (if r in d.skips then d.skips[r] else 0) + Flag(r == reason))
            && d'.book == d.book && d'.outcomes == d.outcomes && d'.exitsAcked == d.exitsAcked
            && forall k :: Count(d'.counters, k) == Count(d.counters, k) + Flag(k == ExitPlacementSkipped)
  {
  }

  // The desk between a first entry fill and the placement of its exit.
  function FillNoted(d: Desk, ev: OrderEvent, link: string): (d': Desk)
    requires d.book.WellFormed()
    ensures d'.book == ApplyUpdate(d.book, ev.update)
  {
    RecordFill(d.(book := ApplyUpdate(d.book, ev.update), counters := Inc(d.counters, OrderStateTransitions)), link,
               true)
  }

  // The event is the first report that a tracked entry, and not a drill, has filled.
  ghost predicate FirstEntryFill(d: Desk, ev: OrderEvent, drillLink: string)
    requires d.book.WellFormed()
  {
    var link, b := ev.Link(), ApplyUpdate(d.book, ev.update);
    && link != "" && link != drillLink && link in d.book.byLink.entries && d.book.At(link).status != Filled
    && ev.update.status == Some(Filled) && link !in d.outcomes.seenFilled
    && b.byLink == d.book.byLink && !b.At(link).reduceOnly && !IsDrill(b.At(link))
  }

  lemma HandlerPlacesPlan(d: Desk, ev: OrderEvent, env: Env, drillLink: string)
    requires d.book.WellFormed() && FirstEntryFill(d, ev, drillLink)
    requires PlanExit(ApplyUpdate(d.book, ev.update).At(ev.Link()), ev, env).Planned?
    ensures OnOrderEvent(d, ev, env, drillLink)
         == PlacePlanned(FillNoted(d, ev, ev.Link()), ev.Link(),
                         PlanExit(ApplyUpdate(d.book, ev.update).At(ev.Link()), ev, env).intent, env)
  {
  }

  lemma FillIsNoted(d: Desk, ev: OrderEvent, link: string)
    requires d.book.WellFormed()
    ensures var c := ExitCountsOf(d.counters);
            ExitCountsOf(FillNoted(d, ev, link).counters) == c.(entry := c.entry + 1)
  {
  }

  // The exit planned for a first entry fill is placed: tracked, counted, and the fill with it.
  lemma FirstFillPlacesExit(d: Desk, ev: OrderEvent, env: Env, drillLink: string, exit: Intent)
    requires d.book.WellFormed() && FirstEntryFill(d, ev, drillLink)
    requires PlanExit(ApplyUpdate(d.book, ev.update).At(ev.Link()), ev, env) == Planned(exit)
    requires exit.linkId !in d.book.byLink.entries
    ensures var d' := OnOrderEvent(d, ev, env, drillLink);
            && TracksExit(d'.book, exit, env)
            && CountsExit(d.counters, d'.counters, env, 1)
  {
    HandlerPlacesPlan(d, ev, env, drillLink);
    PlacedIsTracked(FillNoted(d, ev, ev.Link()), ev.Link(), exit, env);
    FillAndExitAreCounted(d, ev, ev.Link(), exit, env);
  }

  lemma FillAndExitAreCounted(d: Desk, ev: OrderEvent, link: string, exit: Intent, env: Env)
    requires d.book.WellFormed() && exit.linkId !in FillNoted(d, ev, link).book.byLink.entries
    ensures CountsExit(d.counters, PlacePlanned(FillNoted(d, ev, link), link, exit, env).counters, env, 1)
  {
    FillIsNoted(d, ev, link);
    PlacedIsCounted(FillNoted(d, ev, link), link, exit, env);
  }

  lemma EnteringTracksOnlyIntent(
    cfg: EntryConfig, d: Desk, i: Intent, ack: Option<string>, now: int, other: string)
    requires d.book.Iterable() && other != i.linkId && other !in d.book.byLink.entries
    ensures other !in Enter(cfg, d, i, ack, now).book.byLink.entries
  {
  }

  // A decision tracks nothing but the accepted intent, and notes no fill.
  lemma DecidedIsUnfilled(cfg: EntryConfig, d: Desk, w: Surroundings, c: Candidate, i: Intent, other: string)
    requires d.book.Iterable() && w.portfolio.positions.Listed() && Judge(cfg, d.book, w, c) == Accepted(i)
    requires other != i.linkId && other !in d.book.byLink.entries
    ensures var d1 := Decide(cfg, d, w, c);
            d1.outcomes.seenFilled == d.outcomes.seenFilled && other !in d1.book.byLink.entries
  {
    EnactingKeepsFills(cfg, d, w, c, Accepted(i));
    EnactAccepted(cfg, d, w, c, i);
    EnteringTracksOnlyIntent(cfg, NoteReentry(cfg, d, c.signal.symbol, HeldQty(w.portfolio, c.signal.symbol)), i, c.ack,
                             c.now, other);
  }

  lemma UpdatedIsFirstFill(pairs: Pairing, d: Desk, i: Intent, ev: OrderEvent, drillLink: string)
    requires Coherent(pairs, d.book) && i.linkId in d.book.byLink.entries && Mirrors(d.book.At(i.linkId), i)
    requires !i.reduceOnly && "drill" !in i.metadata && i.linkId != drillLink && i.linkId !in d.outcomes.seenFilled
    requires ev.update.linkId == Some(i.linkId) && UpdatePaired(pairs, ev.update) && ev.update.status == Some(Filled)
    ensures FirstEntryFill(d, ev, drillLink)
  {
    var b' := ApplyUpdate(d.book, ev.update);
    UpdateSetsWhatItGives(pairs, d.book, ev.update, i.linkId);
    assert LinkKeyed(d.book, i.linkId);
    assert b'.At(i.linkId) == Tracked(b')[i.linkId] && d.book.At(i.linkId) == Tracked(d.book)[i.linkId];
  }

  // From the candidate to the exit: once an accepted entry is reported filled in full, the runtime tracks an exit that
  // protects exactly that entry, submits it when placement is on, and has counted one entry fill and one exit for it.
  lemma FilledEntryGetsItsExit(
    pairs: Pairing, cfg: EntryConfig, d: Desk, w: Surroundings, c: Candidate, i: Intent, ev: OrderEvent, env: Env,
    price: real, drillLink: string)
    returns (exit: Intent)
    requires d.book.Iterable() && w.portfolio.positions.Listed() && Coherent(pairs, d.book)
    requires Judge(cfg, d.book, w, c) == Accepted(i) && c.linkId !in d.book.byLink.entries
    requires OwnAck(pairs, c.linkId, c.ack) && ActionAgrees(c.signal) && Tradable(cfg, env, c.signal.symbol)
    requires FilledInFull(pairs, ev, c.linkId, i.qty, price) && price > 0.0
    requires c.linkId != drillLink && c.linkId !in d.outcomes.seenFilled
    requires env.exitLinkId != c.linkId && env.exitLinkId !in d.book.byLink.entries
    ensures var d1 := Decide(cfg, d, w, c);
            var d2 := OnOrderEvent(d1, ev, env, drillLink);
            && exit.symbol == c.signal.symbol && exit.linkId == env.exitLinkId
            && Protects(exit, i.side, i.qty, price, env.specs[exit.symbol].priceTick, env.takeProfitPct)
            && TracksExit(d2.book, exit, env) && CountsExit(d1.counters, d2.counters, env, 1)
  {
    var d1 := Decide(cfg, d, w, c);
    FilledEntryIsProtected(pairs, cfg, d, w, c, i, ev, env, price);
    DecidedIsTracked(pairs, cfg, d, w, c, i);
    AcceptedIntent(cfg, d.book, w, c);
    exit := PlanExit(ApplyUpdate(d1.book, ev.update).At(c.linkId), ev, env).intent;
    DecidedIsUnfilled(cfg, d, w, c, i, env.exitLinkId);
    UpdatedIsFirstFill(pairs, d1, i, ev, drillLink);
    FirstFillPlacesExit(d1, ev, env, drillLink, exit);
  }
}
