// The execution engine's intents for entries and for the resting take-profit exit.
module Execution {
  import opened Common
  import opened OrderBook
  import opened Rounding

  datatype PositionSide = Long | Short | Flat

  datatype Action = EnterLong | EnterShort | Hold

  datatype Signal = Signal(
    symbol: string, action: Action, side: Option<Side>, referencePrice: real, confidence: real, reason: string)

  function ActionName(a: Action): string {
    match a case EnterLong => "enter_long" case EnterShort => "enter_short" case Hold => "hold"
  }

  function EntryPrice(side: Side, reference: real, offsetBps: real): real {
    var offset := reference * offsetBps / 10000.0;
    if side == Buy then (if reference - offset >= 0.0 then reference - offset else 0.0) else reference + offset
  }

  function BuildEntryIntent(signal: Signal, qty: real, offsetBps: real, linkId: string, now: int, marketable: bool)
    : Option<Intent>
  {
    if signal.action == Hold || signal.side.None? || qty <= 0.0 then None
    else
      var price := if marketable then None else Some(EntryPrice(signal.side.value, signal.referencePrice, offsetBps));
      Some(Intent(signal.symbol, signal.side.value, qty, price, false, linkId, Entry, now,
                  map["signal_action" := ActionName(signal.action), "reason" := signal.reason]))
  }

  function TargetPrice(side: PositionSide, entry: real, pct: real): real {
    if side == Long then entry * (1.0 + pct) else entry * (1.0 - pct)
  }

  // A reduce-only limit order that takes profit: above the entry for a long position, below it for a short one.
  function BuildProtectiveExit(
    symbol: string, side: PositionSide, qty: real, entry: real, tick: real, step: real, pct: real, linkId: string,
    now: int): Option<Intent>
  {
    if qty <= 0.0 || entry <= 0.0 || side == Flat then None
    else
      var price := NearestStep(TargetPrice(side, entry, pct), tick);
      var stepped := NearestStep(qty, step);
      if stepped <= 0.0 then None
      else
        Some(Intent(symbol, if side == Long then Sell else Buy, stepped, Some(price), true, linkId, Exit, now,
                    map["reason" := "protective_take_profit", "reduce_only" := "true"]))
  }

  // For a fill in whole steps the exit covers exactly the filled quantity, within half a tick of the target, and it
  // takes a profit whenever the profit distance exceeds half a tick.
  lemma ProtectiveExitCoversFill(
    symbol: string, side: PositionSide, qty: real, entry: real, tick: real, step: real, pct: real, linkId: string,
    now: int)
    requires side != Flat && qty > 0.0 && entry > 0.0 && tick > 0.0 && step > 0.0 && WholeSteps(qty, step)
    ensures var exit := BuildProtectiveExit(symbol, side, qty, entry, tick, step, pct, linkId, now);
            && exit.Some? && exit.value.reduceOnly && exit.value.qty == qty && exit.value.price.Some?
            && exit.value.side == (if side == Long then Sell else Buy)
            && WholeSteps(exit.value.price.value, tick)
            && (var target := TargetPrice(side, entry, pct);
                target - tick / 2.0 <= exit.value.price.value <= target + tick / 2.0)
            && (entry * pct > tick / 2.0 ==>
                 if side == Long then exit.value.price.value > entry else exit.value.price.value < entry)
  {
    NearestStepFixesWholeSteps(qty, step);
    NearestStepIsClose(TargetPrice(side, entry, pct), tick);
    Distribute(1.0, pct, entry);
    Distribute(1.0, -pct, entry);
    assert entry * (1.0 + pct) == entry + entry * pct;
    assert entry * (1.0 - pct) == entry - entry * pct;
  }
}
