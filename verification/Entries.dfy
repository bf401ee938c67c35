// From a candidate to an entry order: sizing, risk, the block flags, the entry guard, registration and submission.
module Entries {
  import opened Common
  import opened Execution
  import opened Fills
  import opened Metrics
  import opened OrderBook
  import Risk
  import opened Sizing

  datatype EntryConfig = EntryConfig(
    allowAdds: bool, maxEntries: nat, placementEnabled: bool, forceMarketable: bool, offsetBps: real, maxLeverage: real,
    sizing: Config, limits: Risk.Limits, specs: map<string, SymbolSpec>)

  // A candidate with what the strategy stages in front of and beside the gates made of it.
  datatype Candidate = Candidate(
    signal: Signal, regimeAllows: bool, volatilityBps: real, modelPasses: bool, linkId: string, now: int,
    ack: Option<string>)

  // What one decision reads of its surroundings.
  datatype Surroundings = Surroundings(
    startupBlocked: bool, orphanBlocked: bool, tripped: bool, portfolio: Risk.Portfolio)

  datatype Ruling =
    | NotConsidered | SizedOut | RiskRefused(reason: Risk.Reason) | ModelRefused | StartupHeld | OrphanHeld
    | GuardHeld(held: GuardReason) | Unbuildable | Accepted(intent: Intent)

  // ---------------------------------------------------------------------------------------------
  // The entry guard.

  // An open strategy order of the symbol: an entry, or a reduce-only exit.
  predicate Working(b: Book, symbol: string, reduceOnly: bool, link: string)
    requires b.WellFormed()
  {
    Matches(b, Some(symbol), link) && !IsDrill(b.At(link)) && b.At(link).reduceOnly == reduceOnly
  }

  function WorkingAmong(b: Book, symbol: string, reduceOnly: bool, n: nat): nat
    requires b.Iterable() && n <= |b.byLink.keys|
  {
    if n == 0 then 0
    else
      WorkingAmong(b, symbol, reduceOnly, n - 1) + if Working(b, symbol, reduceOnly, b.byLink.keys[n - 1]) then 1 else 0
  }

  function WorkingCount(b: Book, symbol: string, reduceOnly: bool): nat
    requires b.Iterable()
  {
    WorkingAmong(b, symbol, reduceOnly, |b.byLink.keys|)
  }

  function HeldQty(p: Risk.Portfolio, symbol: string): real {
    if symbol in p.positions.entries then p.positions.entries[symbol].qty else 0.0
  }

  predicate EffectivelyFlat(cfg: EntryConfig, symbol: string, qty: real) {
    Risk.Abs(qty) <= if symbol in cfg.specs then cfg.specs[symbol].qtyStep / 2.0 else 0.0
  }

  function Guard(cfg: EntryConfig, b: Book, symbol: string, qty: real): Option<GuardReason>
    requires b.Iterable()
  {
    if cfg.allowAdds then
      if WorkingCount(b, symbol, false) >= cfg.maxEntries then Some(MaxConcurrentEntries) else None
    else if !EffectivelyFlat(cfg, symbol, qty) then Some(ExistingPosition)
    else if WorkingCount(b, symbol, false) > 0 then Some(ExistingWorkingEntry)
    else None
  }

  // A flat symbol whose exit order is still tracked counts as a re-entry, whatever the guard then decides.
  predicate CountsReentry(cfg: EntryConfig, b: Book, symbol: string, qty: real)
    requires b.Iterable()
  {
    !cfg.allowAdds && EffectivelyFlat(cfg, symbol, qty) && WorkingCount(b, symbol, true) > 0
  }

  // ---------------------------------------------------------------------------------------------
  // One candidate.

  function SizeOf(cfg: EntryConfig, w: Surroundings, c: Candidate, spec: SymbolSpec): real {
    var equity := if w.portfolio.equity >= 1.0 then w.portfolio.equity else 1.0;
    Size(cfg.sizing, Inputs(equity, c.signal.confidence, c.volatilityBps, c.signal.referencePrice, cfg.maxLeverage),
         spec).0
  }

  function NotionalOf(s: Signal, qty: real): real { qty * s.referencePrice }

  // The ruling of the stages in front of the guard, if one of them stops the candidate.
  function Screen(cfg: EntryConfig, w: Surroundings, c: Candidate): Option<Ruling>
    requires w.portfolio.positions.Listed()
  {
    var s := c.signal;
    if !c.regimeAllows || s.side.None? || s.symbol !in cfg.specs then Some(NotConsidered)
    else
      var qty := SizeOf(cfg, w, c, cfg.specs[s.symbol]);
      if qty <= 0.0 then Some(SizedOut)
      else
        var risk := Risk.Evaluate(cfg.limits, w.tripped, s, w.portfolio, NotionalOf(s, qty));
        if risk != Risk.Approved then Some(RiskRefused(risk))
        else if !c.modelPasses then Some(ModelRefused)
        else if w.startupBlocked then Some(StartupHeld)
        else if w.orphanBlocked then Some(OrphanHeld)
        else None
  }

  function AtGuard(cfg: EntryConfig, b: Book, w: Surroundings, c: Candidate, qty: real): Ruling
    requires b.Iterable()
  {
    match Guard(cfg, b, c.signal.symbol, HeldQty(w.portfolio, c.signal.symbol))
    case Some(reason) => GuardHeld(reason)
    case None =>
      match BuildEntryIntent(c.signal, qty, cfg.offsetBps, c.linkId, c.now, cfg.forceMarketable)
      case None => Unbuildable
      case Some(intent) => Accepted(intent)
  }

  function Judge(cfg: EntryConfig, b: Book, w: Surroundings, c: Candidate): Ruling
    requires b.Iterable() && w.portfolio.positions.Listed()
  {
    match Screen(cfg, w, c)
    case Some(ruling) => ruling
    case None => AtGuard(cfg, b, w, c, SizeOf(cfg, w, c, cfg.specs[c.signal.symbol]))
  }

  // What acceptance amounts to, as other proofs use it.
  lemma AcceptedWasApproved(cfg: EntryConfig, b: Book, w: Surroundings, c: Candidate)
    requires b.Iterable() && w.portfolio.positions.Listed() && Judge(cfg, b, w, c).Accepted?
    ensures var i, s := Judge(cfg, b, w, c).intent, c.signal;
            && i.symbol == s.symbol && i.linkId == c.linkId && s.side == Some(i.side) && i.qty > 0.0 && !i.reduceOnly
            && i.purpose == Entry && "drill" !in i.metadata
            && s.symbol in cfg.specs && s.referencePrice > 0.0
            && Risk.Evaluate(cfg.limits, w.tripped, s, w.portfolio, NotionalOf(s, i.qty)) == Risk.Approved
            && WorkingCount(b, s.symbol, false) < EntryLimit(cfg)
            && (!cfg.allowAdds ==> EffectivelyFlat(cfg, s.symbol, HeldQty(w.portfolio, s.symbol)))
  {
  }

  // The working entries counted are the open orders of the symbol that neither reduce nor drill, each once.
  ghost function WorkingEntries(b: Book, symbol: string, reduceOnly: bool): set<string>
    requires b.Iterable()
  {
    set k | k in b.byLink.entries && (b.At(k).status == New || b.At(k).status == PartiallyFilled)
            && b.At(k).symbol == symbol && b.At(k).reduceOnly == reduceOnly
            && ("drill" !in b.At(k).metadata || b.At(k).metadata["drill"] == "")
  }

  lemma WorkingCountIsSize(b: Book, symbol: string, reduceOnly: bool)
    requires b.Iterable()
    ensures WorkingCount(b, symbol, reduceOnly) == |WorkingEntries(b, symbol, reduceOnly)|
  {
    var n := |b.byLink.keys|;
    WorkingAmongIsSize(b, symbol, reduceOnly, n);
    assert b.byLink.keys[..n] == b.byLink.keys;
    assert ListedAmong(b, WorkingEntries(b, symbol, reduceOnly), n) == WorkingEntries(b, symbol, reduceOnly);
  }

  // The chosen ones among the first n link ids.
  ghost function ListedAmong(b: Book, chosen: set<string>, n: nat): set<string>
    requires n <= |b.byLink.keys|
  {
    set k | k in b.byLink.keys[..n] && k in chosen
  }

  lemma {:induction false} WorkingAmongIsSize(b: Book, symbol: string, reduceOnly: bool, n: nat)
    requires b.Iterable() && n <= |b.byLink.keys|
    ensures WorkingAmong(b, symbol, reduceOnly, n) == |ListedAmong(b, WorkingEntries(b, symbol, reduceOnly), n)|
  {
    if n == 0 {
      assert ListedAmong(b, WorkingEntries(b, symbol, reduceOnly), 0) == {};
    } else {
      WorkingAmongIsSize(b, symbol, reduceOnly, n - 1);
      ListedOneMore(b, WorkingEntries(b, symbol, reduceOnly), n);
      assert b.byLink.keys[n - 1] in WorkingEntries(b, symbol, reduceOnly)
        <==> Working(b, symbol, reduceOnly, b.byLink.keys[n - 1]);
    }
  }

  lemma ListedOneMore(b: Book, chosen: set<string>, n: nat)
    requires b.Iterable() && 0 < n <= |b.byLink.keys|
    ensures ListedAmong(b, chosen, n)
         == ListedAmong(b, chosen, n - 1) + if b.byLink.keys[n - 1] in chosen then {b.byLink.keys[n - 1]} else {}
    ensures b.byLink.keys[n - 1] !in ListedAmong(b, chosen, n - 1)
  {
    assert b.byLink.keys[..n] == b.byLink.keys[..n - 1] + [b.byLink.keys[n - 1]];
  }

  // The guard lets an entry pass: with adds, as long as the symbol has fewer working entries than the limit; without,
  // only for a symbol that holds at most half a quantity step and has no working entry.
  ghost predicate GuardPasses(cfg: EntryConfig, b: Book, w: Surroundings, symbol: string)
    requires b.Iterable()
  {
    var held := if symbol in w.portfolio.positions.entries then w.portfolio.positions.entries[symbol].qty else 0.0;
    var halfStep := if symbol in cfg.specs then cfg.specs[symbol].qtyStep / 2.0 else 0.0;
    if cfg.allowAdds then |WorkingEntries(b, symbol, false)| < cfg.maxEntries
    else -halfStep <= held <= halfStep && WorkingEntries(b, symbol, false) == {}
  }

  lemma GuardMeans(cfg: EntryConfig, b: Book, w: Surroundings, symbol: string)
    requires b.Iterable()
    ensures Guard(cfg, b, symbol, HeldQty(w.portfolio, symbol)).None? <==> GuardPasses(cfg, b, w, symbol)
  {
    WorkingCountIsSize(b, symbol, false);
  }

  // What the sizer is asked for, and what it answers.
  ghost function SizedQty(cfg: EntryConfig, w: Surroundings, c: Candidate, spec: SymbolSpec): real {
    Size(cfg.sizing,
         Inputs(if w.portfolio.equity < 1.0 then 1.0 else w.portfolio.equity, c.signal.confidence, c.volatilityBps,
                c.signal.referencePrice, cfg.maxLeverage), spec).0
  }

  lemma SizeIsAsked(cfg: EntryConfig, w: Surroundings, c: Candidate, spec: SymbolSpec)
    ensures SizeOf(cfg, w, c, spec) == SizedQty(cfg, w, c, spec)
  {
  }

  // The gates in front of the entry guard all let the candidate pass.
  lemma ScreenPassesIff(cfg: EntryConfig, w: Surroundings, c: Candidate)
    requires w.portfolio.positions.Listed()
    ensures var s := c.signal;
            Screen(cfg, w, c).None? <==>
              && c.regimeAllows && s.side.Some? && s.symbol in cfg.specs
              && (var qty := SizeOf(cfg, w, c, cfg.specs[s.symbol]);
                  && qty > 0.0
                  && Risk.Evaluate(cfg.limits, w.tripped, s, w.portfolio, NotionalOf(s, qty)) == Risk.Approved)
              && c.modelPasses && !w.startupBlocked && !w.orphanBlocked
  {
  }

  // Sized, the candidate is within the risk limits.
  ghost predicate SizedWithin(cfg: EntryConfig, w: Surroundings, c: Candidate, qty: real)
    requires w.portfolio.positions.Listed()
  {
    qty > 0.0 && Risk.Permitted(cfg.limits, w.tripped, c.signal, w.portfolio, qty * c.signal.referencePrice)
  }

  lemma SizedWithinMeans(cfg: EntryConfig, w: Surroundings, c: Candidate, spec: SymbolSpec)
    requires w.portfolio.positions.Listed()
    ensures var qty := SizeOf(cfg, w, c, spec);
            SizedWithin(cfg, w, c, SizedQty(cfg, w, c, spec)) <==>
              && qty > 0.0
              && Risk.Evaluate(cfg.limits, w.tripped, c.signal, w.portfolio, NotionalOf(c.signal, qty)) == Risk.Approved
  {
    SizeIsAsked(cfg, w, c, spec);
    QtyWithinMeans(cfg, w, c, SizedQty(cfg, w, c, spec));
  }

  lemma QtyWithinMeans(cfg: EntryConfig, w: Surroundings, c: Candidate, qty: real)
    requires w.portfolio.positions.Listed()
    ensures SizedWithin(cfg, w, c, qty) <==>
              && qty > 0.0
              && Risk.Evaluate(cfg.limits, w.tripped, c.signal, w.portfolio, NotionalOf(c.signal, qty)) == Risk.Approved
  {
    NotionalWithinMeans(cfg, w, c, qty, NotionalOf(c.signal, qty));
  }

  lemma NotionalWithinMeans(cfg: EntryConfig, w: Surroundings, c: Candidate, qty: real, notional: real)
    requires w.portfolio.positions.Listed() && notional == qty * c.signal.referencePrice
    ensures SizedWithin(cfg, w, c, qty) <==>
              qty > 0.0 && Risk.Evaluate(cfg.limits, w.tripped, c.signal, w.portfolio, notional) == Risk.Approved
  {
    Risk.ApprovedIff(cfg.limits, w.tripped, c.signal, w.portfolio, notional);
  }

  lemma ScreenMeans(cfg: EntryConfig, w: Surroundings, c: Candidate)
    requires w.portfolio.positions.Listed()
    ensures var s := c.signal;
            Screen(cfg, w, c).None? <==>
              && c.regimeAllows && s.side.Some? && s.symbol in cfg.specs
              && SizedWithin(cfg, w, c, SizedQty(cfg, w, c, cfg.specs[s.symbol]))
              && c.modelPasses && !w.startupBlocked && !w.orphanBlocked
  {
    ScreenPassesIff(cfg, w, c);
    if c.signal.symbol in cfg.specs { SizedWithinMeans(cfg, w, c, cfg.specs[c.signal.symbol]); }
  }

  lemma AcceptanceIsBothGates(cfg: EntryConfig, b: Book, w: Surroundings, c: Candidate)
    requires b.Iterable() && w.portfolio.positions.Listed()
    ensures Judge(cfg, b, w, c).Accepted?
       <==> Screen(cfg, w, c).None? && c.signal.action != Hold
            && Guard(cfg, b, c.signal.symbol, HeldQty(w.portfolio, c.signal.symbol)).None?
  {
  }

  // A candidate is accepted exactly when every gate lets it pass: the regime, the sizer, the risk limits at the sized
  // notional, the model, both block flags and the entry guard.
  lemma AcceptedIff(cfg: EntryConfig, b: Book, w: Surroundings, c: Candidate)
    requires b.Iterable() && w.portfolio.positions.Listed()
    ensures var s := c.signal;
            Judge(cfg, b, w, c).Accepted? <==>
              && c.regimeAllows && s.side.Some? && s.action != Hold && s.symbol in cfg.specs
              && SizedWithin(cfg, w, c, SizedQty(cfg, w, c, cfg.specs[s.symbol]))
              && c.modelPasses && !w.startupBlocked && !w.orphanBlocked
              && GuardPasses(cfg, b, w, s.symbol)
  {
    AcceptanceIsBothGates(cfg, b, w, c);
    ScreenMeans(cfg, w, c);
    GuardMeans(cfg, b, w, c.signal.symbol);
  }

  // The price of a limit entry: so many basis points on the passive side of the reference price, and not below zero.
  ghost function PassivePrice(side: Side, reference: real, offsetBps: real): real {
    match side
    case Buy => if reference * (10000.0 - offsetBps) < 0.0 then 0.0 else reference * (10000.0 - offsetBps) / 10000.0
    case Sell => reference * (10000.0 + offsetBps) / 10000.0
  }

  lemma EntryPriceMeans(side: Side, reference: real, offsetBps: real)
    ensures Execution.EntryPrice(side, reference, offsetBps) == PassivePrice(side, reference, offsetBps)
  {
    assert side == Buy || side == Sell;
  }

  lemma AcceptedIntent(cfg: EntryConfig, b: Book, w: Surroundings, c: Candidate)
    requires b.Iterable() && w.portfolio.positions.Listed() && Judge(cfg, b, w, c).Accepted?
    ensures var i, s := Judge(cfg, b, w, c).intent, c.signal;
            && s.side.Some? && s.symbol in cfg.specs
            && i == Intent(s.symbol, s.side.value, SizedQty(cfg, w, c, cfg.specs[s.symbol]),
                           if cfg.forceMarketable then None
                           else Some(Execution.EntryPrice(s.side.value, s.referencePrice, cfg.offsetBps)),
                           false, c.linkId, Entry, c.now,
                           map["signal_action" := if s.action == EnterLong then "enter_long" else "enter_short",
                               "reason" := s.reason])
  {
  }

  // An accepted candidate's intent, field by field, and what let it pass.
  lemma AcceptedMeans(cfg: EntryConfig, b: Book, w: Surroundings, c: Candidate, i: Intent)
    requires b.Iterable() && w.portfolio.positions.Listed() && Judge(cfg, b, w, c) == Accepted(i)
    ensures var s := c.signal;
            && s.side.Some? && s.symbol in cfg.specs && s.referencePrice > 0.0
            && (var qty := SizedQty(cfg, w, c, cfg.specs[s.symbol]);
                && i == Intent(s.symbol, s.side.value, qty, i.price, false, c.linkId, Entry, c.now,
                               map["signal_action" := if s.action == EnterLong then "enter_long" else "enter_short",
                                   "reason" := s.reason])
                && SizedWithin(cfg, w, c, qty))
            && !w.startupBlocked && !w.orphanBlocked && GuardPasses(cfg, b, w, s.symbol)
  {
    AcceptedIff(cfg, b, w, c);
    AcceptedIntent(cfg, b, w, c);
    SizedIsPriced(cfg, w, c, cfg.specs[c.signal.symbol]);
  }

  // A marketable entry has no price; any other one the passive price of its side.
  lemma AcceptedPrice(cfg: EntryConfig, b: Book, w: Surroundings, c: Candidate, i: Intent)
    requires b.Iterable() && w.portfolio.positions.Listed() && Judge(cfg, b, w, c) == Accepted(i)
    ensures i.price == if cfg.forceMarketable then None
                       else Some(PassivePrice(i.side, c.signal.referencePrice, cfg.offsetBps))
  {
    AcceptedIntent(cfg, b, w, c);
    EntryPriceMeans(i.side, c.signal.referencePrice, cfg.offsetBps);
  }

  lemma SizedIsPriced(cfg: EntryConfig, w: Surroundings, c: Candidate, spec: SymbolSpec)
    requires SizedQty(cfg, w, c, spec) > 0.0
    ensures c.signal.referencePrice > 0.0
  {
  }

  // A sized entry that fills in full gets an exit for exactly its quantity, on the profit side of its price.
  lemma SizedEntryIsCovered(cfg: EntryConfig, w: Surroundings, c: Candidate, spec: SymbolSpec, side: PositionSide,
                            entry: real, pct: real, linkId: string, now: int)
    requires spec.qtyStep > 0.0 && spec.minQty > 0.0 && spec.priceTick > 0.0 && entry > 0.0 && side != Flat
    requires SizeOf(cfg, w, c, spec) != 0.0
    ensures var qty := SizeOf(cfg, w, c, spec);
            var exit := BuildProtectiveExit(c.signal.symbol, side, qty, entry, spec.priceTick, spec.qtyStep, pct,
                                            linkId, now);
            && qty >= spec.minQty && exit.Some? && exit.value.qty == qty && exit.value.reduceOnly
               && exit.value.price.Some?
            && (entry * pct > spec.priceTick / 2.0 ==>
                 if side == Long then exit.value.price.value > entry else exit.value.price.value < entry)
  {
    var equity := if w.portfolio.equity >= 1.0 then w.portfolio.equity else 1.0;
    var i := Inputs(equity, c.signal.confidence, c.volatilityBps, c.signal.referencePrice, cfg.maxLeverage);
    NonZeroSizeIsLargest(cfg.sizing, i, spec);
    ProtectiveExitCoversFill(c.signal.symbol, side, SizeOf(cfg, w, c, spec), entry, spec.priceTick, spec.qtyStep, pct,
        linkId, now);
  }

  predicate ReachesGuard(r: Ruling) { r.GuardHeld? || r.Unbuildable? || r.Accepted? }

  function CountHeld(m: Counters, reason: GuardReason): Counters {
    match reason
    case ExistingPosition => Inc(Inc(m, PositionAddBlocked), GuardNonFlat)
    case ExistingWorkingEntry => Inc(Inc(m, WorkingEntryBlocked), GuardWorkingEntry)
    case MaxConcurrentEntries => Inc(m, GuardMaxConcurrent)
  }

  function NoteIntent(d: Desk): (d': Desk)
    ensures d'.book == d.book
  {
    d.(counters := Inc(d.counters, OrderIntents), outcomes := d.outcomes.(intents := d.outcomes.intents + 1))
  }

  function TrackEntry(d: Desk, intent: Intent): (d': Desk)
    requires d.book.Iterable()
    ensures d'.book.Iterable()
  {
    NoteIntent(Tracking(d, intent))
  }

  function Enter(cfg: EntryConfig, d: Desk, intent: Intent, ack: Option<string>, now: int): (d': Desk)
    requires d.book.Iterable()
    ensures d'.book.Iterable()
  {
    if cfg.placementEnabled then SubmitIntent(TrackEntry(d, intent), intent, ack, now) else TrackEntry(d, intent)
  }

  // A re-entry counted when the guard is asked about a flat symbol that still tracks an exit.
  function NoteReentry(cfg: EntryConfig, d: Desk, symbol: string, qty: real): (d': Desk)
    requires d.book.Iterable()
    ensures d'.book == d.book
  {
    if CountsReentry(cfg, d.book, symbol, qty) then d.(counters := Inc(d.counters, ReentryAllowedFlatStaleExit)) else d
  }

  function HoldBack(d: Desk, reason: GuardReason): Desk {
    d.(counters := CountHeld(d.counters, reason), guardBlocks := d.guardBlocks + [reason])
  }

  // The effects of a ruling.
  function Enact(cfg: EntryConfig, d: Desk, w: Surroundings, c: Candidate, ruling: Ruling): (d': Desk)
    requires d.book.Iterable()
    ensures d'.book.Iterable()
  {
    var held := HeldQty(w.portfolio, c.signal.symbol);
    var d1 := if ReachesGuard(ruling) then NoteReentry(cfg, d, c.signal.symbol, held) else d;
    match ruling
    case GuardHeld(reason) => HoldBack(d1, reason)
    case Accepted(intent) => Enter(cfg, d1, intent, c.ack, c.now)
    case _ => d1
  }

  // An accepted candidate has passed the guard on a symbol that may count as a re-entry.
  lemma EnactAccepted(cfg: EntryConfig, d: Desk, w: Surroundings, c: Candidate, intent: Intent)
    requires d.book.Iterable()
    ensures var d1 := NoteReentry(cfg, d, c.signal.symbol, HeldQty(w.portfolio, c.signal.symbol));
            && d1.book == d.book
            && Enact(cfg, d, w, c, Accepted(intent)) == Enter(cfg, d1, intent, c.ack, c.now)
  {
  }

  function Decide(cfg: EntryConfig, d: Desk, w: Surroundings, c: Candidate): (d': Desk)
    requires d.book.Iterable() && w.portfolio.positions.Listed()
    ensures d'.book.Iterable()
  {
    Enact(cfg, d, w, c, Judge(cfg, d.book, w, c))
  }

  // The candidates of one candle, one after the other, each against the orders as they then are.
  function DecideAll(cfg: EntryConfig, d: Desk, w: Surroundings, cs: seq<Candidate>): (d': Desk)
    requires d.book.Iterable() && w.portfolio.positions.Listed()
    ensures d'.book.Iterable()
  {
    if cs == [] then d else Decide(cfg, DecideAll(cfg, d, w, cs[..|cs| - 1]), w, cs[|cs| - 1])
  }

  // A re-entry is counted exactly when the guard is asked, without adds, about a symbol that holds at most half a step
  // and still tracks a working exit.
  lemma ReentryCounted(cfg: EntryConfig, d: Desk, w: Surroundings, c: Candidate)
    requires d.book.Iterable() && w.portfolio.positions.Listed()
    ensures var symbol := c.signal.symbol;
            var ps := w.portfolio.positions.entries;
            var held := if symbol in ps then ps[symbol].qty else 0.0;
            var halfStep := if symbol in cfg.specs then cfg.specs[symbol].qtyStep / 2.0 else 0.0;
            var again := Screen(cfg, w, c).None? && !cfg.allowAdds && -halfStep <= held <= halfStep
                         && WorkingEntries(d.book, symbol, true) != {};
            Count(Decide(cfg, d, w, c).counters, ReentryAllowedFlatStaleExit)
            == Count(d.counters, ReentryAllowedFlatStaleExit) + if again then 1 else 0
  {
    var held := HeldQty(w.portfolio, c.signal.symbol);
    WorkingCountIsSize(d.book, c.signal.symbol, true);
    EnactedReentry(cfg, d, w, c, Judge(cfg, d.book, w, c));
    ScreenedStopsShort(cfg, d.book, w, c);
  }

  lemma ScreenedStopsShort(cfg: EntryConfig, b: Book, w: Surroundings, c: Candidate)
    requires b.Iterable() && w.portfolio.positions.Listed()
    ensures ReachesGuard(Judge(cfg, b, w, c)) <==> Screen(cfg, w, c).None?
  {
  }

  lemma EnactedReentry(cfg: EntryConfig, d: Desk, w: Surroundings, c: Candidate, ruling: Ruling)
    requires d.book.Iterable()
    ensures Count(Enact(cfg, d, w, c, ruling).counters, ReentryAllowedFlatStaleExit)
         == Count(d.counters, ReentryAllowedFlatStaleExit)
            + (var held := HeldQty(w.portfolio, c.signal.symbol);
               if ReachesGuard(ruling) && CountsReentry(cfg, d.book, c.signal.symbol, held) then 1 else 0)
  {
  }

  lemma HaltedIsScreened(cfg: EntryConfig, w: Surroundings, c: Candidate)
    requires w.portfolio.positions.Listed()
    requires w.tripped || w.portfolio.safeMode || w.startupBlocked || w.orphanBlocked
    ensures Screen(cfg, w, c).Some? && !ReachesGuard(Screen(cfg, w, c).value)
  {
  }

  // With the breaker tripped, in safe mode, or while a block flag is up, a candle changes nothing at all.
  lemma {:induction false} HaltedCandleChangesNothing(cfg: EntryConfig, d: Desk, w: Surroundings, cs: seq<Candidate>)
    requires d.book.Iterable() && w.portfolio.positions.Listed()
    requires w.tripped || w.portfolio.safeMode || w.startupBlocked || w.orphanBlocked
    ensures DecideAll(cfg, d, w, cs) == d
  {
    if cs != [] {
      HaltedCandleChangesNothing(cfg, d, w, cs[..|cs| - 1]);
      HaltedIsScreened(cfg, w, cs[|cs| - 1]);
    }
  }

  lemma DecideOneMore(cfg: EntryConfig, d: Desk, w: Surroundings, cs: seq<Candidate>, i: nat)
    requires d.book.Iterable() && w.portfolio.positions.Listed() && i < |cs|
    ensures DecideAll(cfg, d, w, cs[..i + 1]) == Decide(cfg, DecideAll(cfg, d, w, cs[..i]), w, cs[i])
  {
    assert cs[..i + 1][..i] == cs[..i];
  }

  // ---------------------------------------------------------------------------------------------
  // Decisions respect the limit on working entries.

  // The most working entries of one symbol a decision may bring about.
  function EntryLimit(cfg: EntryConfig): nat { if cfg.allowAdds then cfg.maxEntries else 1 }

  // Orders tracked under the first n link ids look alike to the guard in both books.
  ghost predicate AgreeUpTo(b: Book, b': Book, n: nat)
    requires b.Iterable() && b'.Iterable()
  {
    && n <= |b.byLink.keys| && n <= |b'.byLink.keys|
    && forall i {:trigger AgreeAt(b, b', i)} | 0 <= i < n :: AgreeAt(b, b', i)
  }

  ghost predicate AgreeAt(b: Book, b': Book, i: nat)
    requires b.Iterable() && b'.Iterable() && i < |b.byLink.keys| && i < |b'.byLink.keys|
  {
    && b'.byLink.keys[i] == b.byLink.keys[i]
    && SameKind(b.At(b.byLink.keys[i]), b'.At(b.byLink.keys[i]))
  }

  ghost predicate SameKind(o: Order, o': Order) {
    o'.symbol == o.symbol && o'.status == o.status && o'.reduceOnly == o.reduceOnly && o'.metadata == o.metadata
  }

  lemma {:induction false} AgreementKeepsCount(b: Book, b': Book, symbol: string, reduceOnly: bool, n: nat)
    requires b.Iterable() && b'.Iterable() && AgreeUpTo(b, b', n)
    ensures WorkingAmong(b', symbol, reduceOnly, n) == WorkingAmong(b, symbol, reduceOnly, n)
  {
    if n > 0 {
      AgreementKeepsCount(b, b', symbol, reduceOnly, n - 1);
      assert AgreeAt(b, b', n - 1);
    }
  }

  lemma RegisterAddsAtMostOne(b: Book, intent: Intent, symbol: string)
    requires b.Iterable()
    ensures WorkingCount(Register(b, intent), symbol, false)
         <= WorkingCount(b, symbol, false) + if symbol == intent.symbol then 1 else 0
  {
    var b' := Register(b, intent);
    var n := |b.byLink.keys|;
    AgreementKeepsCount(b, b', symbol, false, n);
    if b'.byLink.keys != b.byLink.keys {
      assert b'.byLink.keys[n] == intent.linkId && b'.At(intent.linkId) == OrderOfIntent(intent);
    }
  }

  lemma SubmittingKeepsCount(d: Desk, intent: Intent, ack: Option<string>, now: int, symbol: string)
    requires d.book.Iterable()
    ensures WorkingCount(SubmitIntent(d, intent, ack, now).book, symbol, false) == WorkingCount(d.book, symbol, false)
  {
    AgreementKeepsCount(d.book, SubmitIntent(d, intent, ack, now).book, symbol, false, |d.book.byLink.keys|);
  }

  lemma EnteringAddsAtMostOne(cfg: EntryConfig, d: Desk, intent: Intent, ack: Option<string>, now: int, symbol: string)
    requires d.book.Iterable()
    ensures WorkingCount(Enter(cfg, d, intent, ack, now).book, symbol, false)
         <= WorkingCount(d.book, symbol, false) + if symbol == intent.symbol then 1 else 0
  {
    RegisterAddsAtMostOne(d.book, intent, symbol);
    var d1 := TrackEntry(d, intent);
    SubmittingKeepsCount(d1, intent, ack, now, symbol);
  }

  lemma EnactingAddsAtMostOne(cfg: EntryConfig, d: Desk, w: Surroundings, c: Candidate, ruling: Ruling, symbol: string)
    requires d.book.Iterable()
    ensures WorkingCount(Enact(cfg, d, w, c, ruling).book, symbol, false)
         <= WorkingCount(d.book, symbol, false)
            + if ruling.Accepted? && ruling.intent.symbol == symbol then 1 else 0
  {
    if ruling.Accepted? {
      var d1 := NoteReentry(cfg, d, c.signal.symbol, HeldQty(w.portfolio, c.signal.symbol));
      EnteringAddsAtMostOne(cfg, d1, ruling.intent, c.ack, c.now, symbol);
    }
  }

  // A decision never takes a symbol above the larger of what it already had and the limit.
  lemma DecisionRespectsLimit(cfg: EntryConfig, d: Desk, w: Surroundings, c: Candidate, symbol: string)
    requires d.book.Iterable() && w.portfolio.positions.Listed()
    ensures var before := WorkingCount(d.book, symbol, false);
            var after := WorkingCount(Decide(cfg, d, w, c).book, symbol, false);
            && (after <= before || after <= EntryLimit(cfg))
            && (symbol != c.signal.symbol ==> after <= before)
  {
    EnactingAddsAtMostOne(cfg, d, w, c, Judge(cfg, d.book, w, c), symbol);
    if Judge(cfg, d.book, w, c).Accepted? { AcceptedWasApproved(cfg, d.book, w, c); }
  }

  // Nor do several candidates on one candle.
  lemma {:induction false} DecisionsRespectLimit(cfg: EntryConfig, d: Desk, w: Surroundings, cs: seq<Candidate>,
      symbol: string)
    requires d.book.Iterable() && w.portfolio.positions.Listed()
    ensures var before := WorkingCount(d.book, symbol, false);
            var after := WorkingCount(DecideAll(cfg, d, w, cs).book, symbol, false);
            after <= before || after <= EntryLimit(cfg)
  {
    if cs != [] {
      DecisionsRespectLimit(cfg, d, w, cs[..|cs| - 1], symbol);
      DecisionRespectsLimit(cfg, DecideAll(cfg, d, w, cs[..|cs| - 1]), w, cs[|cs| - 1], symbol);
    }
  }

  // ---------------------------------------------------------------------------------------------
  // Which counters decisions move.

  const EntryMetrics: set<Metric> := {
    OrderIntents, OrderSubmissions, OrderAcks, PositionAddBlocked, WorkingEntryBlocked, GuardNonFlat, GuardWorkingEntry,
    GuardMaxConcurrent, ReentryAllowedFlatStaleExit}

  lemma HoldingMoves(m: Counters, m': Counters, reason: GuardReason)
    requires Moves(m, m', EntryMetrics)
    ensures Moves(m, CountHeld(m', reason), EntryMetrics)
  {
    match reason
    case ExistingPosition =>
      MovesOn(m, m', PositionAddBlocked, 1, EntryMetrics);
      MovesOn(m, Inc(m', PositionAddBlocked), GuardNonFlat, 1, EntryMetrics);
    case ExistingWorkingEntry =>
      MovesOn(m, m', WorkingEntryBlocked, 1, EntryMetrics);
      MovesOn(m, Inc(m', WorkingEntryBlocked), GuardWorkingEntry, 1, EntryMetrics);
    case MaxConcurrentEntries => MovesOn(m, m', GuardMaxConcurrent, 1, EntryMetrics);
  }

  lemma EnteringMoves(m: Counters, cfg: EntryConfig, d: Desk, intent: Intent, ack: Option<string>, now: int)
    requires d.book.Iterable() && Moves(m, d.counters, EntryMetrics)
    ensures Moves(m, Enter(cfg, d, intent, ack, now).counters, EntryMetrics)
  {
    var d1 := TrackEntry(d, intent);
    MovesOn(m, d.counters, OrderIntents, 1, EntryMetrics);
    SubmittingMoves(m, d1, intent, ack, now, EntryMetrics);
  }

  lemma EnactingMoves(m: Counters, cfg: EntryConfig, d: Desk, w: Surroundings, c: Candidate, ruling: Ruling)
    requires d.book.Iterable() && Moves(m, d.counters, EntryMetrics)
    ensures Moves(m, Enact(cfg, d, w, c, ruling).counters, EntryMetrics)
  {
    var held := HeldQty(w.portfolio, c.signal.symbol);
    var d1 := if ReachesGuard(ruling) then NoteReentry(cfg, d, c.signal.symbol, held) else d;
    MovesOn(m, d.counters, ReentryAllowedFlatStaleExit, 1, EntryMetrics);
    match ruling
    case GuardHeld(reason) => HoldingMoves(m, d1.counters, reason);
    case Accepted(intent) => EnteringMoves(m, cfg, d1, intent, c.ack, c.now);
    case _ =>
  }

  lemma {:induction false} DecisionsMove(cfg: EntryConfig, d: Desk, w: Surroundings, cs: seq<Candidate>)
    requires d.book.Iterable() && w.portfolio.positions.Listed()
    ensures Moves(d.counters, DecideAll(cfg, d, w, cs).counters, EntryMetrics)
  {
    if cs != [] {
      DecisionsMove(cfg, d, w, cs[..|cs| - 1]);
      var d1, c := DecideAll(cfg, d, w, cs[..|cs| - 1]), cs[|cs| - 1];
      EnactingMoves(d.counters, cfg, d1, w, c, Judge(cfg, d1.book, w, c));
    }
  }
}
