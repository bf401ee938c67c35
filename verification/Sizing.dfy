// Volatility-aware order sizing.
module Sizing {
  import opened Common
  import opened Rounding

  datatype Inputs = Inputs(equity: real, confidence: real, volatilityBps: real, referencePrice: real, maxLeverage: real)

  datatype SymbolSpec = SymbolSpec(qtyStep: real, minQty: real, priceTick: real, maxLeverage: real)

  datatype Config = Config(baseRisk: real, minConfidence: real, floorNotional: Option<real>, floorEquityFraction: real)

  datatype FloorDetails = FloorDetails(originalNotional: real, effectiveNotional: real, qty: real)

  datatype Rejection = PriceOrEquityZero | ConfidenceBelowMin | QtyBelowMinAfterRounding

  function Max(a: real, b: real): real { if a >= b then a else b }

  function Min(a: real, b: real): real { if a <= b then a else b }

  function Budget(cfg: Config, i: Inputs, s: SymbolSpec): real {
    var volFactor := 1.0 / Max(1.0, i.volatilityBps / 100.0);
    var confidenceFactor := Max(0.1, Min(1.0, i.confidence));
    i.equity * cfg.baseRisk * confidenceFactor * volFactor * Min(i.maxLeverage, s.maxLeverage)
  }

  predicate Eligible(cfg: Config, i: Inputs) {
    i.referencePrice > 0.0 && i.equity > 0.0 && i.confidence >= cfg.minConfidence
  }

  // The notional the floor path sizes for: at least the floor, at most the equity cap.
  function FloorNotional(cfg: Config, i: Inputs, s: SymbolSpec, floor: real): real {
    Min(Max(Budget(cfg, i, s), floor), i.equity * cfg.floorEquityFraction)
  }

  // The size, and the details of the floor when it was what produced the size.
  function Size(cfg: Config, i: Inputs, s: SymbolSpec): (real, Option<FloorDetails>) {
    if !Eligible(cfg, i) then (0.0, None)
    else
      var budget := Budget(cfg, i, s);
      var qty := DownToStep(budget / i.referencePrice, s.qtyStep);
      if qty >= s.minQty then (qty, None)
      else if cfg.floorNotional.None? then (0.0, None)
      else
        var effective := FloorNotional(cfg, i, s, cfg.floorNotional.value);
        var floorQty := DownToStep(effective / i.referencePrice, s.qtyStep);
        if floorQty >= s.minQty then (floorQty, Some(FloorDetails(budget, effective, floorQty))) else (0.0, None)
  }

  function RejectReason(cfg: Config, i: Inputs, s: SymbolSpec): Option<Rejection> {
    if i.referencePrice <= 0.0 || i.equity <= 0.0 then Some(PriceOrEquityZero)
    else if i.confidence < cfg.minConfidence then Some(ConfidenceBelowMin)
    else if DownToStep(Budget(cfg, i, s) / i.referencePrice, s.qtyStep) < s.minQty then Some(QtyBelowMinAfterRounding)
    else None
  }

  class VolatilityAwareSizer {
    const cfg: Config
    var lastFloorApplied: bool
    var lastFloorDetails: Option<FloorDetails>

    constructor (cfg: Config)
      ensures this.cfg == cfg && !lastFloorApplied && lastFloorDetails == None
    {
      this.cfg, lastFloorApplied, lastFloorDetails := cfg, false, None;
    }

    method SizeQty(i: Inputs, s: SymbolSpec) returns (qty: real)
      modifies this
      ensures (qty, lastFloorDetails) == Size(cfg, i, s)
      ensures lastFloorApplied == lastFloorDetails.Some?
    {
      lastFloorApplied, lastFloorDetails := false, None;
      if i.referencePrice <= 0.0 || i.equity <= 0.0 { return 0.0; }
      if i.confidence < cfg.minConfidence { return 0.0; }
      var budget := Budget(cfg, i, s);
      qty := DownToStep(budget / i.referencePrice, s.qtyStep);
      if qty >= s.minQty { return; }
      if cfg.floorNotional.Some? {
        var effective := FloorNotional(cfg, i, s, cfg.floorNotional.value);
        var floorQty := DownToStep(effective / i.referencePrice, s.qtyStep);
        if floorQty >= s.minQty {
          lastFloorApplied := true;
          lastFloorDetails := Some(FloorDetails(budget, effective, floorQty));
          return floorQty;
        }
      }
      return 0.0;
    }
  }

  // The largest tradable size for a notional: whole steps, at least the minimum, within the notional, and one step
  // more would exceed it.
  ghost predicate LargestWithin(qty: real, notional: real, price: real, s: SymbolSpec) {
    && WholeSteps(qty, s.qtyStep) && qty >= s.minQty
    && qty * price <= notional < (qty + s.qtyStep) * price
  }

  lemma SteppedQtyIsLargest(notional: real, price: real, s: SymbolSpec)
    requires price > 0.0 && s.qtyStep > 0.0 && s.minQty > 0.0
    requires DownToStep(notional / price, s.qtyStep) >= s.minQty
    ensures LargestWithin(DownToStep(notional / price, s.qtyStep), notional, price, s)
  {
    var raw := notional / price;
    var qty := DownToStep(raw, s.qtyStep);
    if raw < 0.0 { NegativeRoundsToNoMoreThanZero(raw, s.qtyStep); }
    DownToStepIsMaximal(raw, s.qtyStep);
    QuotientTimesStep(notional, price);
    ScaleMonotone(qty, raw, price);
    ScaleMonotone(raw, qty + s.qtyStep, price);
  }

  lemma NegativeRoundsToNoMoreThanZero(value: real, step: real)
    requires step > 0.0 && value < 0.0
    ensures DownToStep(value, step) <= 0.0
  {
    QuotientTimesStep(value, step);
    ScaleMonotone(0.0, value / step, step);
    ScaleMonotone(Truncate(value / step) as real, 0.0, step);
  }

  // A non-zero size is the largest within the risk budget, or, when the floor produced it, the largest within the
  // floor notional, which respects the equity cap.
  lemma NonZeroSizeIsLargest(cfg: Config, i: Inputs, s: SymbolSpec)
    requires s.qtyStep > 0.0 && s.minQty > 0.0 && Size(cfg, i, s).0 != 0.0
    ensures var (qty, floor) := Size(cfg, i, s);
            && qty > 0.0
            && (floor.None? ==> LargestWithin(qty, Budget(cfg, i, s), i.referencePrice, s))
            && (floor.Some? ==> floor.value.effectiveNotional <= i.equity * cfg.floorEquityFraction
                                && LargestWithin(qty, floor.value.effectiveNotional, i.referencePrice, s))
  {
    var budget := Budget(cfg, i, s);
    if DownToStep(budget / i.referencePrice, s.qtyStep) >= s.minQty {
      SteppedQtyIsLargest(budget, i.referencePrice, s);
    } else {
      SteppedQtyIsLargest(FloorNotional(cfg, i, s, cfg.floorNotional.value), i.referencePrice, s);
      FloorKeepsCap(cfg, i, s, cfg.floorNotional.value);
    }
  }

  lemma FloorKeepsCap(cfg: Config, i: Inputs, s: SymbolSpec, floor: real)
    ensures FloorNotional(cfg, i, s, floor) <= i.equity * cfg.floorEquityFraction
  {
  }

  // The budget alone does not reach the minimum quantity, but the floor does.
  predicate FloorRescues(cfg: Config, i: Inputs, s: SymbolSpec) {
    && Eligible(cfg, i) && cfg.floorNotional.Some?
    && DownToStep(Budget(cfg, i, s) / i.referencePrice, s.qtyStep) < s.minQty
    && DownToStep(FloorNotional(cfg, i, s, cfg.floorNotional.value) / i.referencePrice, s.qtyStep) >= s.minQty
  }

  // No rejection is reported exactly for a positive size, unless the floor rescues the size: then a reason is reported
  // although the size is positive.
  lemma RejectionMatchesSize(cfg: Config, i: Inputs, s: SymbolSpec)
    requires s.minQty > 0.0
    ensures (RejectReason(cfg, i, s).None? <==> Size(cfg, i, s).0 > 0.0) <==> !FloorRescues(cfg, i, s)
    ensures FloorRescues(cfg, i, s) ==>
              RejectReason(cfg, i, s) == Some(QtyBelowMinAfterRounding) && Size(cfg, i, s).0 >= s.minQty
  {
  }

  // The reason names the first of the checks that fails.
  lemma RejectReasonMeans(cfg: Config, i: Inputs, s: SymbolSpec)
    requires s.qtyStep > 0.0 && s.minQty > 0.0
    ensures match RejectReason(cfg, i, s)
            case Some(PriceOrEquityZero) => i.referencePrice <= 0.0 || i.equity <= 0.0
            case Some(ConfidenceBelowMin) =>
              i.referencePrice > 0.0 && i.equity > 0.0 && i.confidence < cfg.minConfidence
            case Some(QtyBelowMinAfterRounding) =>
              && i.referencePrice > 0.0 && i.equity > 0.0 && i.confidence >= cfg.minConfidence
              && !Affordable(Budget(cfg, i, s), i.referencePrice, s)
            case None =>
              && i.referencePrice > 0.0 && i.equity > 0.0 && i.confidence >= cfg.minConfidence
              && Affordable(Budget(cfg, i, s), i.referencePrice, s)
  {
    if i.referencePrice > 0.0 { StepsReachIff(Budget(cfg, i, s), i.referencePrice, s); }
  }

  // A budget of 5 buys no unit at a price of 10, the floor of 50 buys five: rejected, and sized all the same.
  lemma RejectedYetSized()
    ensures var cfg, i := Config(0.01, 0.2, Some(50.0), 0.1), Inputs(1000.0, 0.5, 100.0, 10.0, 1.0);
            var s := SymbolSpec(1.0, 2.0, 0.1, 1.0);
            RejectReason(cfg, i, s) == Some(QtyBelowMinAfterRounding) && Size(cfg, i, s).0 == 5.0
  {
  }

  // ---------------------------------------------------------------------------------------------
  // What the size is for.

  // The risk budget: equity times base risk at full confidence, in calm markets, at the smaller of the two leverages.
  // It is proportional to the confidence between a tenth and one, and above 100 basis points inversely so to the
  // volatility.
  lemma BudgetMeans(cfg: Config, i: Inputs, s: SymbolSpec)
    ensures var share := if i.confidence <= 0.1 then 0.1 else if i.confidence >= 1.0 then 1.0 else i.confidence;
            var leverage := if i.maxLeverage <= s.maxLeverage then i.maxLeverage else s.maxLeverage;
            var calm := i.equity * cfg.baseRisk * share * leverage;
            if i.volatilityBps <= 100.0 then Budget(cfg, i, s) == calm
            else Budget(cfg, i, s) * i.volatilityBps == calm * 100.0
  {
    var share := Max(0.1, Min(1.0, i.confidence));
    var leverage := Min(i.maxLeverage, s.maxLeverage);
    var base := i.equity * cfg.baseRisk * share;
    if i.volatilityBps > 100.0 {
      var v := i.volatilityBps / 100.0;
      ProductOfInverse(base, leverage, v);
      assert i.volatilityBps == v * 100.0;
    }
  }

  lemma ProductOfInverse(base: real, leverage: real, v: real)
    requires v > 0.0
    ensures base * (1.0 / v) * leverage * v == base * leverage
  {
    var inverse := 1.0 / v;
    assert inverse * v == 1.0;
    calc {
      base * inverse * leverage * v;
      base * leverage * (inverse * v);
      base * leverage;
    }
  }

  // Some size in whole steps, and at least the minimum, is affordable at the price.
  ghost predicate Affordable(notional: real, price: real, s: SymbolSpec) {
    exists k: int :: Steps(k, s.qtyStep) >= s.minQty && Steps(k, s.qtyStep) * price <= notional
  }

  // The size is zero exactly when the inputs are not eligible, or neither the budget nor the floor notional, when there
  // is one, affords a tradable size; and the floor decides only when the budget affords none.
  lemma ZeroSizeIff(cfg: Config, i: Inputs, s: SymbolSpec)
    requires s.qtyStep > 0.0 && s.minQty > 0.0
    ensures var eligible := i.referencePrice > 0.0 && i.equity > 0.0 && i.confidence >= cfg.minConfidence;
            var byBudget := Affordable(Budget(cfg, i, s), i.referencePrice, s);
            var byFloor := cfg.floorNotional.Some?
                           && Affordable(FloorNotional(cfg, i, s, cfg.floorNotional.value), i.referencePrice, s);
            && (Size(cfg, i, s).0 == 0.0 <==> !eligible || (!byBudget && !byFloor))
            && (Size(cfg, i, s).1.Some? <==> eligible && !byBudget && byFloor)
  {
    if Eligible(cfg, i) {
      StepsReachIff(Budget(cfg, i, s), i.referencePrice, s);
      if cfg.floorNotional.Some? {
        StepsReachIff(FloorNotional(cfg, i, s, cfg.floorNotional.value), i.referencePrice, s);
      }
    }
  }

  lemma StepsReachIff(notional: real, price: real, s: SymbolSpec)
    requires price > 0.0 && s.qtyStep > 0.0 && s.minQty > 0.0
    ensures DownToStep(notional / price, s.qtyStep) >= s.minQty <==> Affordable(notional, price, s)
  {
    if DownToStep(notional / price, s.qtyStep) >= s.minQty {
      SteppedIsAffordable(notional, price, s);
    } else if Affordable(notional, price, s) {
      var k: int :| Steps(k, s.qtyStep) >= s.minQty && Steps(k, s.qtyStep) * price <= notional;
      AffordableReaches(notional, price, s, k);
    }
  }

  lemma SteppedIsAffordable(notional: real, price: real, s: SymbolSpec)
    requires price > 0.0 && s.qtyStep > 0.0 && s.minQty > 0.0
    requires DownToStep(notional / price, s.qtyStep) >= s.minQty
    ensures Affordable(notional, price, s)
  {
    var qty := DownToStep(notional / price, s.qtyStep);
    SteppedQtyIsLargest(notional, price, s);
    var k: int :| qty == Steps(k, s.qtyStep);
    assert Steps(k, s.qtyStep) >= s.minQty && Steps(k, s.qtyStep) * price <= notional;
  }

  lemma AffordableReaches(notional: real, price: real, s: SymbolSpec, k: int)
    requires price > 0.0 && s.qtyStep > 0.0 && s.minQty > 0.0
    requires Steps(k, s.qtyStep) >= s.minQty && Steps(k, s.qtyStep) * price <= notional
    ensures DownToStep(notional / price, s.qtyStep) >= Steps(k, s.qtyStep)
  {
    var raw := notional / price;
    QuotientTimesStep(notional, price);
    ScaleMonotone(Steps(k, s.qtyStep), raw, price);
    DownToStepIsMaximal(raw, s.qtyStep);
    var j: int :| DownToStep(raw, s.qtyStep) == Steps(j, s.qtyStep);
    NextStep(j, k, s.qtyStep);
  }

  lemma NextStep(j: int, k: int, step: real)
    requires step > 0.0 && Steps(k, step) < Steps(j, step) + step
    ensures Steps(k, step) <= Steps(j, step)
  {
    var x, y, next := k as real, j as real, (j + 1) as real;
    assert next == y + 1.0;
    assert next * step == y * step + step by { Distribute(y, 1.0, step); }
    assert x < next by { ScaleMonotone(x, next, step); }
    assert x <= y by { assert k <= j; }
    ScaleMonotone(x, y, step);
  }

  // The floor notional: the larger of budget and floor, cut at the equity cap.
  lemma FloorNotionalMeans(cfg: Config, i: Inputs, s: SymbolSpec, floor: real)
    ensures var notional, cap := FloorNotional(cfg, i, s, floor), i.equity * cfg.floorEquityFraction;
            && notional <= cap && (notional == cap || (notional >= floor && notional >= Budget(cfg, i, s)))
            && (notional == cap || notional == floor || notional == Budget(cfg, i, s))
            && (floor <= cap && Budget(cfg, i, s) <= cap ==> notional >= floor && notional >= Budget(cfg, i, s))
  {
  }
}
