// The hard-limits-first risk check.
module Risk {
  import opened Common
  import opened OrderBook
  import opened Execution
  import Rounding

  datatype PositionView = PositionView(side: PositionSide, qty: real, markPrice: real, liquidationPrice: Option<real>) {

    function Notional(): real { Abs(qty) * markPrice }

    // Long positions count positive, all others negative.
    function Signed(): real { if side == Long then qty else -qty }

    function DistanceToLiquidationBps(): Option<real> {
      if liquidationPrice.None? || markPrice <= 0.0 then None
      else if side == Long then Some((markPrice - liquidationPrice.value) / markPrice * 10000.0)
      else if side == Short then Some((liquidationPrice.value - markPrice) / markPrice * 10000.0)
      else None
    }
  }

  datatype Portfolio = Portfolio(equity: real, realizedToday: real, safeMode: bool, positions: Dict<PositionView>) {

    function TotalNotional(n: nat): real
      requires positions.Listed() && n <= |positions.keys|
    {
      if n == 0 then 0.0 else TotalNotional(n - 1) + positions.entries[positions.keys[n - 1]].Notional()
    }

    // The position of a symbol as a signed quantity, flat when there is none.
    function Signed(symbol: string): real {
      if symbol in positions.entries then positions.entries[symbol].Signed() else 0.0
    }
  }

  datatype SymbolLimit = SymbolLimit(maxNotional: real, maxPositionAbs: real)

  datatype Limits = Limits(
    maxTotalNotional: real, maxLeverage: real, dailyLoss: real, liquidationBufferBps: real,
    perSymbol: map<string, SymbolLimit>)

  datatype Reason =
    | Approved | CircuitBreakerTripped | SafeModeEnabled | DailyLossLimitReached | MaxTotalNotionalExceeded
    | PortfolioMaxLeverageExceeded | PositionMaxLeverageExceeded | LiquidationBufferViolation
    | SymbolMaxNotionalExceeded | SymbolMaxPositionExceeded | ConfidenceBelowThreshold

  const MinConfidence := 0.15

  function Abs(x: real): real { if x >= 0.0 then x else -x }

  function Total(p: Portfolio): real
    requires p.positions.Listed()
  {
    p.TotalNotional(|p.positions.keys|)
  }

  function EffectiveLeverage(p: Portfolio): real
    requires p.positions.Listed()
  {
    if p.equity <= 0.0 then 0.0 else Total(p) / p.equity
  }

  // The signed position once an order of the given notional has filled in full.
  function ProjectedPosition(s: Signal, p: Portfolio, notional: real): real
    requires s.referencePrice > 0.0 && s.side.Some?
  {
    var qty := notional / s.referencePrice;
    p.Signed(s.symbol) + if s.side.value == Buy then qty else -qty
  }

  function CheckSymbol(limit: SymbolLimit, s: Signal, p: Portfolio, notional: real): Reason {
    var held := if s.symbol in p.positions.entries then p.positions.entries[s.symbol].Notional() else 0.0;
    if held + notional > limit.maxNotional then SymbolMaxNotionalExceeded
    else if s.side.Some? && s.referencePrice > 0.0 && Abs(ProjectedPosition(s, p, notional)) > limit.maxPositionAbs then
      SymbolMaxPositionExceeded
    else Approved
  }

  function CheckPosition(limits: Limits, view: PositionView, equity: real): Reason {
    if equity > 0.0 && view.Notional() / equity > limits.maxLeverage then PositionMaxLeverageExceeded
    else
      match view.DistanceToLiquidationBps()
      case Some(d) => if d < limits.liquidationBufferBps then LiquidationBufferViolation else Approved
      case None => Approved
  }

  function ScaledConfidence(limits: Limits, s: Signal, projected: real): real {
    var clamped := if s.confidence < 0.0 then 0.0 else if s.confidence > 1.0 then 1.0 else s.confidence;
    if projected > limits.maxTotalNotional * 0.85 then clamped * 0.75 else clamped
  }

  // The cascade, hard limits first; the confidence threshold comes last.
  function Evaluate(limits: Limits, tripped: bool, s: Signal, p: Portfolio, notional: real): Reason
    requires p.positions.Listed()
  {
    var projected := Total(p) + notional;
    var position := if s.symbol in p.positions.entries then
                      CheckPosition(limits, p.positions.entries[s.symbol], p.equity)
                    else Approved;
    var symbol := if s.symbol in limits.perSymbol then CheckSymbol(limits.perSymbol[s.symbol], s, p, notional)
                  else Approved;
    if tripped then CircuitBreakerTripped
    else if p.safeMode then SafeModeEnabled
    else if p.realizedToday <= -limits.dailyLoss then DailyLossLimitReached
    else if projected > limits.maxTotalNotional then MaxTotalNotionalExceeded
    else if EffectiveLeverage(p) > limits.maxLeverage then PortfolioMaxLeverageExceeded
    else if position != Approved then position
    else if symbol != Approved then symbol
    else if ScaledConfidence(limits, s, projected) < MinConfidence then ConfidenceBelowThreshold
    else Approved
  }

  // An approved order keeps the symbol's position within its limit even when it fills in full.
  lemma ApprovedOrderFitsPosition(limits: Limits, tripped: bool, s: Signal, p: Portfolio, notional: real)
    requires p.positions.Listed() && s.side.Some? && s.referencePrice > 0.0 && s.symbol in limits.perSymbol
    requires Evaluate(limits, tripped, s, p, notional) == Approved
    ensures Abs(ProjectedPosition(s, p, notional)) <= limits.perSymbol[s.symbol].maxPositionAbs
  {
  }

  lemma ProjectedByQty(s: Signal, p: Portfolio, qty: real, notional: real)
    requires s.side.Some? && s.referencePrice > 0.0 && notional == qty * s.referencePrice
    ensures ProjectedPosition(s, p, notional) == p.Signed(s.symbol) + if s.side.value == Buy then qty else -qty
  {
    Rounding.QuotientOfProduct(qty, s.referencePrice);
  }

  lemma ApprovedQtyFitsPosition(limits: Limits, tripped: bool, s: Signal, p: Portfolio, qty: real, notional: real)
    requires p.positions.Listed() && s.side.Some? && s.referencePrice > 0.0 && s.symbol in limits.perSymbol
    requires notional == qty * s.referencePrice && Evaluate(limits, tripped, s, p, notional) == Approved
    ensures Abs(p.Signed(s.symbol) + if s.side.value == Buy then qty else -qty)
         <= limits.perSymbol[s.symbol].maxPositionAbs
  {
    ApprovedOrderFitsPosition(limits, tripped, s, p, notional);
    ProjectedByQty(s, p, qty, notional);
  }

  // ---------------------------------------------------------------------------------------------
  // What approval means, limit by limit.

  // No hard limit stands in the way: the breaker and safe mode, the daily loss, the total notional, the leverage of the
  // portfolio and of the symbol's position, its distance to liquidation, and the symbol's notional and position.
  ghost predicate WithinHardLimits(limits: Limits, tripped: bool, s: Signal, p: Portfolio, notional: real)
    requires p.positions.Listed()
  {
    && !tripped && !p.safeMode && -limits.dailyLoss < p.realizedToday
    && Total(p) + notional <= limits.maxTotalNotional
    && (if p.equity > 0.0 then Total(p) / p.equity <= limits.maxLeverage else 0.0 <= limits.maxLeverage)
    && (s.symbol in p.positions.entries ==> PositionWithin(limits, p.positions.entries[s.symbol], p.equity))
    && (s.symbol in limits.perSymbol ==> SymbolWithin(limits.perSymbol[s.symbol], s, p, notional))
  }

  ghost predicate PositionWithin(limits: Limits, v: PositionView, equity: real) {
    && (equity > 0.0 ==> (if v.qty < 0.0 then -v.qty else v.qty) * v.markPrice / equity <= limits.maxLeverage)
    && (v.liquidationPrice.Some? && v.markPrice > 0.0 && v.side == Long ==>
         (v.markPrice - v.liquidationPrice.value) / v.markPrice * 10000.0 >= limits.liquidationBufferBps)
    && (v.liquidationPrice.Some? && v.markPrice > 0.0 && v.side == Short ==>
         (v.liquidationPrice.value - v.markPrice) / v.markPrice * 10000.0 >= limits.liquidationBufferBps)
  }

  ghost predicate SymbolWithin(limit: SymbolLimit, s: Signal, p: Portfolio, notional: real) {
    var v := if s.symbol in p.positions.entries then p.positions.entries[s.symbol]
             else PositionView(Flat, 0.0, 0.0, None);
    var signed := if v.side == Long then v.qty else -v.qty;
    && (if v.qty < 0.0 then -v.qty else v.qty) * v.markPrice + notional <= limit.maxNotional
    && (s.side == Some(Buy) && s.referencePrice > 0.0 ==>
         -limit.maxPositionAbs <= signed + notional / s.referencePrice <= limit.maxPositionAbs)
    && (s.side == Some(Sell) && s.referencePrice > 0.0 ==>
         -limit.maxPositionAbs <= signed - notional / s.referencePrice <= limit.maxPositionAbs)
  }

  // The confidence still counts for enough, at three quarters once 85 percent of the total notional is used.
  ghost predicate ConfidentEnough(limits: Limits, s: Signal, p: Portfolio, notional: real)
    requires p.positions.Listed()
  {
    if 100.0 * (Total(p) + notional) > 85.0 * limits.maxTotalNotional then s.confidence >= 0.2
    else s.confidence >= 0.15
  }

  ghost predicate Permitted(limits: Limits, tripped: bool, s: Signal, p: Portfolio, notional: real)
    requires p.positions.Listed()
  {
    WithinHardLimits(limits, tripped, s, p, notional) && ConfidentEnough(limits, s, p, notional)
  }

  lemma SymbolCheckMeans(limit: SymbolLimit, s: Signal, p: Portfolio, notional: real)
    ensures CheckSymbol(limit, s, p, notional) == Approved <==> SymbolWithin(limit, s, p, notional)
  {
  }

  lemma PositionCheckMeans(limits: Limits, v: PositionView, equity: real)
    ensures CheckPosition(limits, v, equity) == Approved <==> PositionWithin(limits, v, equity)
  {
  }

  lemma ConfidenceMeans(limits: Limits, s: Signal, p: Portfolio, notional: real)
    requires p.positions.Listed()
    ensures ScaledConfidence(limits, s, Total(p) + notional) >= MinConfidence
       <==> ConfidentEnough(limits, s, p, notional)
  {
  }

  // An order is approved exactly when no hard limit stands in the way and the confidence suffices, and the confidence
  // is the reason of a refusal only when no hard limit is.
  lemma ApprovedIff(limits: Limits, tripped: bool, s: Signal, p: Portfolio, notional: real)
    requires p.positions.Listed()
    ensures Evaluate(limits, tripped, s, p, notional) == Approved <==> Permitted(limits, tripped, s, p, notional)
    ensures Evaluate(limits, tripped, s, p, notional) == ConfidenceBelowThreshold
       <==> WithinHardLimits(limits, tripped, s, p, notional) && !ConfidentEnough(limits, s, p, notional)
  {
    ConfidenceMeans(limits, s, p, notional);
    if s.symbol in p.positions.entries { PositionCheckMeans(limits, p.positions.entries[s.symbol], p.equity); }
    if s.symbol in limits.perSymbol { SymbolCheckMeans(limits.perSymbol[s.symbol], s, p, notional); }
  }

  // The reason given is the first limit that does not hold, hard limits first and in their order.
  lemma ReasonIsFirst(limits: Limits, tripped: bool, s: Signal, p: Portfolio, notional: real)
    requires p.positions.Listed()
    ensures var reason := Evaluate(limits, tripped, s, p, notional);
            var on := !tripped && !p.safeMode;
            var solvent := on && p.realizedToday > -limits.dailyLoss;
            var room := solvent && Total(p) + notional <= limits.maxTotalNotional;
            && (reason == CircuitBreakerTripped <==> tripped)
            && (reason == SafeModeEnabled <==> !tripped && p.safeMode)
            && (reason == DailyLossLimitReached <==> on && !solvent)
            && (reason == MaxTotalNotionalExceeded <==> solvent && !room)
            && (reason == PortfolioMaxLeverageExceeded <==> room && EffectiveLeverage(p) > limits.maxLeverage)
            && (reason in {PositionMaxLeverageExceeded, LiquidationBufferViolation} ==>
                 && room && EffectiveLeverage(p) <= limits.maxLeverage && s.symbol in p.positions.entries
                 && !PositionWithin(limits, p.positions.entries[s.symbol], p.equity))
            && (reason in {SymbolMaxNotionalExceeded, SymbolMaxPositionExceeded} ==>
                 && room && EffectiveLeverage(p) <= limits.maxLeverage
                 && (s.symbol in p.positions.entries ==>
                      PositionWithin(limits, p.positions.entries[s.symbol], p.equity))
                 && s.symbol in limits.perSymbol && !SymbolWithin(limits.perSymbol[s.symbol], s, p, notional))
  {
    if s.symbol in p.positions.entries { PositionCheckMeans(limits, p.positions.entries[s.symbol], p.equity); }
    if s.symbol in limits.perSymbol { SymbolCheckMeans(limits.perSymbol[s.symbol], s, p, notional); }
  }

  // The total is the sum over the positions: nothing for an empty portfolio, and a position put under a symbol adds its
  // notional in place of the one it replaces.
  lemma TotalIsSum(p: Portfolio, symbol: string, v: PositionView)
    requires p.positions.Listed()
    ensures p.positions.keys == [] ==> Total(p) == 0.0
    ensures Total(p.(positions := p.positions.Put(symbol, v)))
         == Total(p) + v.Notional()
            - if symbol in p.positions.entries then p.positions.entries[symbol].Notional() else 0.0
  {
    var n := |p.positions.keys|;
    var p' := p.(positions := p.positions.Put(symbol, v));
    SumAfterPut(p, symbol, v, n);
    assert p.positions.keys[..n] == p.positions.keys;
    if symbol !in p.positions.entries { assert p'.TotalNotional(n + 1) == p'.TotalNotional(n) + v.Notional(); }
  }

  // Among the first n positions.
  lemma {:induction false} SumAfterPut(p: Portfolio, symbol: string, v: PositionView, n: nat)
    requires p.positions.Listed() && n <= |p.positions.keys|
    ensures p.(positions := p.positions.Put(symbol, v)).TotalNotional(n)
         == p.TotalNotional(n)
            + if symbol in p.positions.keys[..n] then v.Notional() - p.positions.entries[symbol].Notional() else 0.0
  {
    if n > 0 {
      SumAfterPut(p, symbol, v, n - 1);
      assert p.positions.keys[..n] == p.positions.keys[..n - 1] + [p.positions.keys[n - 1]];
    }
  }
}
