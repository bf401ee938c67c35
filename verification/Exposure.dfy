// What one entry decision, one fill, one reduction or one cancellation does to a symbol's exposure, with position adds
// off.
module Exposure {
  import opened Common
  import opened Entries
  import opened Fills
  import opened OrderBook
  import Risk
  import opened Rounding

  // An entry order as the exchange holds it: remaining is what may still fill.
  datatype LiveEntry = LiveEntry(symbol: string, side: Side, remaining: real)

  // The runtime's desk, and what is true at the exchange: signed positions and live entry orders by link id.
  datatype World = World(desk: Desk, position: map<string, real>, live: map<string, LiveEntry>) {
    function PositionOf(symbol: string): real { if symbol in position then position[symbol] else 0.0 }
  }

  datatype WorldEvent =
    | Decided(around: Surroundings, candidate: Candidate, reachedExchange: bool)
    | EntryFilled(link: string, qty: real)
    | PositionReduced(symbol: string, qty: real)
    | EntryGone(link: string)

  function Toward(side: Side, qty: real): real { if side == Buy then qty else -qty }

  function Reduced(position: real, qty: real): real { if position >= 0.0 then position - qty else position + qty }

  function AfterDecision(cfg: EntryConfig, w: World, e: WorldEvent): World
    requires w.desk.book.Iterable() && e.Decided? && e.around.portfolio.positions.Listed()
  {
    var ruling := Judge(cfg, w.desk.book, e.around, e.candidate);
    var w1 := w.(desk := Decide(cfg, w.desk, e.around, e.candidate));
    if ruling.Accepted? && e.reachedExchange then
      var i := ruling.intent;
      w1.(live := w.live[i.linkId := LiveEntry(i.symbol, i.side, i.qty)])
    else w1
  }

  function AfterFill(w: World, link: string, qty: real): World
    requires link in w.live
  {
    var o := w.live[link];
    w.(position := w.position[o.symbol := w.PositionOf(o.symbol) + Toward(o.side, qty)],
       live := if o.remaining == qty then w.live - {link} else w.live[link := o.(remaining := o.remaining - qty)])
  }

  function Step(cfg: EntryConfig, w: World, e: WorldEvent): World
    requires w.desk.book.Iterable() && Fair(cfg, w, e)
  {
    match e
    case Decided(_, _, _) => AfterDecision(cfg, w, e)
    case EntryFilled(link, qty) => AfterFill(w, link, qty)
    case PositionReduced(symbol, qty) => w.(position := w.position[symbol := Reduced(w.PositionOf(symbol), qty)])
    case EntryGone(link) => w.(live := w.live - {link})
  }

  ghost predicate InWholeSteps(cfg: EntryConfig, symbol: string, qty: real) {
    symbol in cfg.specs && cfg.specs[symbol].qtyStep > 0.0 && WholeSteps(qty, cfg.specs[symbol].qtyStep)
  }

  // What is assumed of an event: decisions see the position as it is and use a new link id, and quantities fill in
  // whole steps.
  ghost predicate Fair(cfg: EntryConfig, w: World, e: WorldEvent)
    requires w.desk.book.Iterable()
  {
    match e
    case Decided(around, c, _) =>
      && around.portfolio.positions.Listed()
      && around.portfolio.Signed(c.signal.symbol) == w.PositionOf(c.signal.symbol)
      && c.linkId !in w.desk.book.byLink.entries
    case EntryFilled(link, qty) =>
      link in w.live && 0.0 < qty <= w.live[link].remaining && InWholeSteps(cfg, w.live[link].symbol, qty)
    case PositionReduced(symbol, qty) =>
      0.0 < qty <= Risk.Abs(w.PositionOf(symbol)) && InWholeSteps(cfg, symbol, qty)
    case EntryGone(_) => true
  }

  // Every live entry is one of the open entries the guard counts.
  ghost predicate LiveTracked(b: Book, live: map<string, LiveEntry>)
    requires b.Iterable()
  {
    forall k | k in live :: Working(b, live[k].symbol, false, k)
  }

  // The symbol's position and its one live entry, filled in full, stay within the position limit.
  ghost predicate Contained(cfg: EntryConfig, w: World, symbol: string) {
    symbol in cfg.limits.perSymbol ==>
      && Risk.Abs(w.PositionOf(symbol)) <= cfg.limits.perSymbol[symbol].maxPositionAbs
      && forall k | k in w.live && w.live[k].symbol == symbol ::
           Risk.Abs(w.PositionOf(symbol)) + w.live[k].remaining <= cfg.limits.perSymbol[symbol].maxPositionAbs
  }

  ghost predicate WithinLimits(cfg: EntryConfig, w: World) {
    && w.desk.book.Iterable()
    && LiveTracked(w.desk.book, w.live)
    && (forall k | k in w.live :: w.live[k].remaining > 0.0)
    && (forall k, l | k in w.live && l in w.live && w.live[k].symbol == w.live[l].symbol :: k == l)
    && AllWholeSteps(cfg, w)
    && (forall s :: Contained(cfg, w, s))
  }

  ghost predicate AllWholeSteps(cfg: EntryConfig, w: World) {
    forall s {:trigger InWholeSteps(cfg, s, w.PositionOf(s))} | s in cfg.specs :: InWholeSteps(cfg, s, w.PositionOf(s))
  }

  lemma {:induction false} NoneWorking(b: Book, symbol: string, reduceOnly: bool, n: nat)
    requires b.Iterable() && n <= |b.byLink.keys| && WorkingAmong(b, symbol, reduceOnly, n) == 0
    ensures forall k | k in b.byLink.keys[..n] :: !Working(b, symbol, reduceOnly, k)
  {
    if n > 0 {
      NoneWorking(b, symbol, reduceOnly, n - 1);
      assert b.byLink.keys[..n] == b.byLink.keys[..n - 1] + [b.byLink.keys[n - 1]];
    }
  }

  lemma StepsAreFar(k: int, step: real)
    requires step > 0.0 && k != 0
    ensures Risk.Abs(Steps(k, step)) >= step
  {
    if k >= 1 { ScaleMonotone(1.0, k as real, step); } else { ScaleMonotone(k as real, -1.0, step); }
  }

  lemma FlatMeansZero(qty: real, step: real)
    requires step > 0.0 && WholeSteps(qty, step) && Risk.Abs(qty) <= step / 2.0
    ensures qty == 0.0
  {
    var k: int :| qty == Steps(k, step);
    if k != 0 { StepsAreFar(k, step); }
  }

  lemma StepsSum(i: int, j: int, step: real)
    ensures Steps(i + j, step) == Steps(i, step) + Steps(j, step)
  {
    Distribute(i as real, j as real, step);
  }

  lemma StepsAddUp(a: real, b: real, step: real)
    requires WholeSteps(a, step) && WholeSteps(b, step)
    ensures WholeSteps(a + b, step) && WholeSteps(a - b, step)
  {
    var i: int, j: int :| a == Steps(i, step) && b == Steps(j, step);
    StepsSum(i, j, step);
    StepsSum(i, -j, step);
    StepsSum(j, -j, step);
    assert Steps(0, step) == 0.0;
    assert a + b == Steps(i + j, step) && a - b == Steps(i + -j, step);
  }

  // A flat symbol without working entries has no exposure at all.
  lemma FlatAndFree(cfg: EntryConfig, w: World, symbol: string, held: real)
    requires WithinLimits(cfg, w) && symbol in cfg.specs && EffectivelyFlat(cfg, symbol, held)
    requires Risk.Abs(held) == Risk.Abs(w.PositionOf(symbol)) && WorkingCount(w.desk.book, symbol, false) == 0
    ensures w.PositionOf(symbol) == 0.0 && forall k | k in w.live :: w.live[k].symbol != symbol
  {
    var b := w.desk.book;
    NoneWorking(b, symbol, false, |b.byLink.keys|);
    assert b.byLink.keys[..|b.byLink.keys|] == b.byLink.keys;
    assert InWholeSteps(cfg, symbol, w.PositionOf(symbol));
    FlatMeansZero(w.PositionOf(symbol), cfg.specs[symbol].qtyStep);
  }

  // Acceptance means: flat, nothing working, and the new order alone fits the limit.
  lemma AcceptedOrderFits(cfg: EntryConfig, w: World, e: WorldEvent)
    requires !cfg.allowAdds && WithinLimits(cfg, w) && e.Decided? && Fair(cfg, w, e)
    requires Judge(cfg, w.desk.book, e.around, e.candidate).Accepted?
    ensures var i := Judge(cfg, w.desk.book, e.around, e.candidate).intent;
            && i.symbol == e.candidate.signal.symbol && i.linkId == e.candidate.linkId && i.qty > 0.0 && !i.reduceOnly
            && "drill" !in i.metadata && i.purpose == Entry
            && w.PositionOf(i.symbol) == 0.0
            && (forall k | k in w.live :: w.live[k].symbol != i.symbol)
            && (i.symbol in cfg.limits.perSymbol ==> i.qty <= cfg.limits.perSymbol[i.symbol].maxPositionAbs)
  {
    AcceptedWasApproved(cfg, w.desk.book, e.around, e.candidate);
    var s := e.candidate.signal;
    var i := Judge(cfg, w.desk.book, e.around, e.candidate).intent;
    FlatAndFree(cfg, w, s.symbol, HeldQty(e.around.portfolio, s.symbol));
    if s.symbol in cfg.limits.perSymbol {
      Risk.ApprovedQtyFitsPosition(cfg.limits, e.around.tripped, s, e.around.portfolio, i.qty, NotionalOf(s, i.qty));
    }
  }

  lemma DecisionKeepsLimits(cfg: EntryConfig, w: World, e: WorldEvent)
    requires !cfg.allowAdds && WithinLimits(cfg, w) && e.Decided? && Fair(cfg, w, e)
    ensures WithinLimits(cfg, AfterDecision(cfg, w, e))
  {
    DecisionKeepsTracked(cfg, w, e);
    if Judge(cfg, w.desk.book, e.around, e.candidate).Accepted? && e.reachedExchange {
      AcceptedOrderFits(cfg, w, e);
      EntryKeepsLimits(cfg, w, AfterDecision(cfg, w, e), Judge(cfg, w.desk.book, e.around, e.candidate).intent);
    } else {
      SamePositionsKeepLimits(cfg, w, AfterDecision(cfg, w, e));
    }
  }

  // A new order of a symbol that was free is that symbol's only exposure.
  lemma EntryKeepsLimits(cfg: EntryConfig, w: World, w': World, i: Intent)
    requires WithinLimits(cfg, w) && w'.position == w.position
    requires w'.live == w.live[i.linkId := LiveEntry(i.symbol, i.side, i.qty)]
    requires w'.desk.book.Iterable() && LiveTracked(w'.desk.book, w'.live)
    requires i.qty > 0.0 && w.PositionOf(i.symbol) == 0.0 && forall k | k in w.live :: w.live[k].symbol != i.symbol
    requires i.symbol in cfg.limits.perSymbol ==> i.qty <= cfg.limits.perSymbol[i.symbol].maxPositionAbs
    ensures WithinLimits(cfg, w')
  {
    forall s | s in cfg.specs ensures InWholeSteps(cfg, s, w'.PositionOf(s)) {
      assert InWholeSteps(cfg, s, w.PositionOf(s));
    }
    forall s ensures Contained(cfg, w', s) { assert Contained(cfg, w, s); }
  }

  // Whatever happens to the desk: if the live orders are still tracked and none was added, the limits are kept.
  lemma SamePositionsKeepLimits(cfg: EntryConfig, w: World, w': World)
    requires WithinLimits(cfg, w) && w'.position == w.position && w'.live == w.live - (w.live.Keys - w'.live.Keys)
    requires w'.desk.book.Iterable() && LiveTracked(w'.desk.book, w'.live)
    ensures WithinLimits(cfg, w')
  {
    forall s | s in cfg.specs ensures InWholeSteps(cfg, s, w'.PositionOf(s)) {
      assert InWholeSteps(cfg, s, w.PositionOf(s));
    }
    forall s ensures Contained(cfg, w', s) { assert Contained(cfg, w, s); }
  }

  lemma RegisteringKeepsTracked(b: Book, live: map<string, LiveEntry>, i: Intent)
    requires b.Iterable() && LiveTracked(b, live)
    ensures LiveTracked(Register(b, i), live)
    ensures i.linkId !in b.byLink.entries && !i.reduceOnly && "drill" !in i.metadata && i.purpose == Entry
            ==> Working(Register(b, i), i.symbol, false, i.linkId)
  {
    forall k | k in live ensures Working(Register(b, i), live[k].symbol, false, k) {
      assert Working(b, live[k].symbol, false, k);
    }
  }

  lemma SubmittingKeepsTracked(d: Desk, live: map<string, LiveEntry>, i: Intent, ack: Option<string>, now: int)
    requires d.book.Iterable() && LiveTracked(d.book, live)
    ensures LiveTracked(SubmitIntent(d, i, ack, now).book, live)
  {
    forall k | k in live ensures Working(SubmitIntent(d, i, ack, now).book, live[k].symbol, false, k) {
      assert Working(d.book, live[k].symbol, false, k);
    }
  }

  lemma DecisionKeepsTracked(cfg: EntryConfig, w: World, e: WorldEvent)
    requires !cfg.allowAdds && WithinLimits(cfg, w) && e.Decided? && Fair(cfg, w, e)
    ensures LiveTracked(AfterDecision(cfg, w, e).desk.book, AfterDecision(cfg, w, e).live)
  {
    var ruling := Judge(cfg, w.desk.book, e.around, e.candidate);
    if ruling.Accepted? {
      AcceptedOrderFits(cfg, w, e);
      RegisteredEntryIsTracked(w.desk.book, w.live, ruling.intent);
      EnteringKeepsTracked(cfg, e, w.desk, ruling.intent, AfterDecision(cfg, w, e).live);
    } else {
      RefusingKeepsBook(cfg, w.desk, e.around, e.candidate, ruling);
    }
  }

  lemma RegisteredEntryIsTracked(b: Book, live: map<string, LiveEntry>, i: Intent)
    requires b.Iterable() && LiveTracked(b, live)
    requires i.linkId !in b.byLink.entries && !i.reduceOnly && "drill" !in i.metadata && i.purpose == Entry
    ensures LiveTracked(Register(b, i), live)
    ensures LiveTracked(Register(b, i), live[i.linkId := LiveEntry(i.symbol, i.side, i.qty)])
  {
    RegisteringKeepsTracked(b, live, i);
  }

  lemma RefusingKeepsBook(cfg: EntryConfig, d: Desk, w: Surroundings, c: Candidate, ruling: Ruling)
    requires d.book.Iterable() && !ruling.Accepted?
    ensures Enact(cfg, d, w, c, ruling).book == d.book
  {
  }

  lemma EnteringKeepsTracked(cfg: EntryConfig, e: WorldEvent, d: Desk, i: Intent, live: map<string, LiveEntry>)
    requires d.book.Iterable() && e.Decided? && LiveTracked(Register(d.book, i), live)
    ensures LiveTracked(Enact(cfg, d, e.around, e.candidate, Accepted(i)).book, live)
  {
    var d1 := NoteReentry(cfg, d, e.candidate.signal.symbol, HeldQty(e.around.portfolio, e.candidate.signal.symbol));
    EnactAccepted(cfg, d, e.around, e.candidate, i);
    SubmittingKeepsTracked(TrackEntry(d1, i), live, i, e.candidate.ack, e.candidate.now);
  }

  lemma FillKeepsLimits(cfg: EntryConfig, w: World, link: string, qty: real)
    requires WithinLimits(cfg, w) && Fair(cfg, w, EntryFilled(link, qty))
    ensures WithinLimits(cfg, AfterFill(w, link, qty))
  {
    var o := w.live[link];
    var w' := AfterFill(w, link, qty);
    forall s | s in cfg.specs ensures InWholeSteps(cfg, s, w'.PositionOf(s)) {
      assert InWholeSteps(cfg, s, w.PositionOf(s));
      if s == o.symbol { StepsAddUp(w.PositionOf(s), qty, cfg.specs[s].qtyStep); }
    }
    forall s ensures Contained(cfg, w', s) { assert Contained(cfg, w, s); }
  }

  lemma ReductionKeepsLimits(cfg: EntryConfig, w: World, symbol: string, qty: real)
    requires WithinLimits(cfg, w) && Fair(cfg, w, PositionReduced(symbol, qty))
    ensures WithinLimits(cfg, Step(cfg, w, PositionReduced(symbol, qty)))
  {
    var w' := Step(cfg, w, PositionReduced(symbol, qty));
    forall s | s in cfg.specs ensures InWholeSteps(cfg, s, w'.PositionOf(s)) {
      assert InWholeSteps(cfg, s, w.PositionOf(s));
      if s == symbol {
        StepsAddUp(w.PositionOf(s), qty, cfg.specs[s].qtyStep);
      }
    }
    forall s ensures Contained(cfg, w', s) { assert Contained(cfg, w, s); }
  }

  lemma MarketKeepsLimits(cfg: EntryConfig, w: World, e: WorldEvent)
    requires WithinLimits(cfg, w) && !e.Decided? && Fair(cfg, w, e)
    ensures WithinLimits(cfg, Step(cfg, w, e))
  {
    match e
    case EntryFilled(link, qty) => FillKeepsLimits(cfg, w, link, qty);
    case PositionReduced(symbol, qty) => ReductionKeepsLimits(cfg, w, symbol, qty);
    case EntryGone(link) => SamePositionsKeepLimits(cfg, w, Step(cfg, w, e));
  }
}
