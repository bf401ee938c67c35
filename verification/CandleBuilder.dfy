// Building candles from trades. Candle bounds are in whole minutes.
module CandleBuilder {
  import opened Common

  datatype Candle = Candle(
    symbol: string, start: int, end: int, open: real, high: real, low: real, close: real, volume: real, turnover: real)

  datatype Bar = Bar(candle: Candle, confirmed: bool)

  const MicrosPerMinute := 60_000_000

  function MinuteOf(time: int): int { time / MicrosPerMinute }

  // The minute of the hour rounded down to the timeframe; the hour is kept.
  function BucketStart(time: int, timeframe: int): int
    requires timeframe > 0
  {
    var m := MinuteOf(time);
    m / 60 * 60 + m % 60 / timeframe * timeframe
  }

  function Opened(t: Trade, start: int, timeframe: int): Candle {
    Candle(t.symbol, start, start + timeframe, t.price, t.price, t.price, t.price, t.size, t.price * t.size)
  }

  function Absorbed(c: Candle, t: Trade): Candle {
    c.(high := if t.price > c.high then t.price else c.high, low := if t.price < c.low then t.price else c.low,
       close := t.price, volume := c.volume + t.size, turnover := c.turnover + t.price * t.size)
  }

  // What one trade makes of its symbol's working candle, and the bar it closes. A trade of an earlier bucket is
  // absorbed by the working candle.
  function Advance(working: Option<Candle>, t: Trade, start: int, timeframe: int): (Candle, Option<Bar>) {
    match working
    case None => (Opened(t, start, timeframe), None)
    case Some(c) =>
      if start > c.start then (Opened(t, start, timeframe), Some(Bar(c, true))) else (Absorbed(c, t), None)
  }

  class CandleBuilder {
    const timeframe: int
    var working: map<string, Candle>

    constructor (timeframe: int)
      requires timeframe > 0
      ensures this.timeframe == timeframe && working == map[]
    {
      this.timeframe, working := timeframe, map[];
    }

    function WorkingOf(symbol: string): Option<Candle>
      reads this
    {
      if symbol in working then Some(working[symbol]) else None
    }

    method OnTrade(t: Trade) returns (closed: Option<Bar>)
      requires timeframe > 0
      modifies this
      ensures var (next, bar) := Advance(old(WorkingOf(t.symbol)), t, BucketStart(t.time, timeframe), timeframe);
              working == old(working)[t.symbol := next] && closed == bar
    {
      var start := BucketStart(t.time, timeframe);
      if t.symbol !in working || start > working[t.symbol].start {
        closed := if t.symbol in working then Some(Bar(working[t.symbol], true)) else None;
        var value := t.price * t.size;
        var candle := Candle(t.symbol, start, start + timeframe, t.price, t.price, t.price, t.price, t.size, value);
        assert candle == Opened(t, start, timeframe);
        working := working[t.symbol := candle];
        return;
      }
      working := working[t.symbol := Absorbed(working[t.symbol], t)];
      return None;
    }

    method FlushOpenCandle(symbol: string) returns (flushed: Option<Bar>)
      modifies this
      ensures working == old(working) - {symbol}
      ensures flushed == if symbol in old(working) then Some(Bar(old(working)[symbol], false)) else None
    {
      flushed := if symbol in working then Some(Bar(working[symbol], false)) else None;
      working := working - {symbol};
    }
  }

  // ---------------------------------------------------------------------------------------------
  // A symbol's whole history of trades, for any way of assigning times to buckets.

  datatype Built = Built(bars: seq<Bar>, working: Option<Candle>)

  function BuildStep(b: Built, t: Trade, bucket: int -> int, timeframe: int): Built {
    var (next, bar) := Advance(b.working, t, bucket(t.time), timeframe);
    Built(if bar.Some? then b.bars + [bar.value] else b.bars, Some(next))
  }

  function Build(ts: seq<Trade>, bucket: int -> int, timeframe: int): Built {
    if ts == [] then Built([], None)
    else BuildStep(Build(ts[..|ts| - 1], bucket, timeframe), ts[|ts| - 1], bucket, timeframe)
  }

  function SizeSum(ts: seq<Trade>): real {
    if ts == [] then 0.0 else SizeSum(ts[..|ts| - 1]) + ts[|ts| - 1].size
  }

  function ValueSum(ts: seq<Trade>): real {
    if ts == [] then 0.0 else ValueSum(ts[..|ts| - 1]) + ts[|ts| - 1].price * ts[|ts| - 1].size
  }

  function BarVolume(bars: seq<Bar>): real {
    if bars == [] then 0.0 else BarVolume(bars[..|bars| - 1]) + bars[|bars| - 1].candle.volume
  }

  function BarTurnover(bars: seq<Bar>): real {
    if bars == [] then 0.0 else BarTurnover(bars[..|bars| - 1]) + bars[|bars| - 1].candle.turnover
  }

  lemma BarSumsOneMore(bars: seq<Bar>, bar: Bar)
    ensures BarVolume(bars + [bar]) == BarVolume(bars) + bar.candle.volume
    ensures BarTurnover(bars + [bar]) == BarTurnover(bars) + bar.candle.turnover
  {
    assert (bars + [bar])[..|bars|] == bars;
  }

  function WorkingVolume(b: Built): real { if b.working.Some? then b.working.value.volume else 0.0 }

  function WorkingTurnover(b: Built): real { if b.working.Some? then b.working.value.turnover else 0.0 }

  lemma AdvanceConserves(working: Option<Candle>, t: Trade, start: int, timeframe: int)
    ensures var (next, bar) := Advance(working, t, start, timeframe);
            && (bar.Some? ==> working == Some(bar.value.candle)
                              && next.volume == t.size && next.turnover == t.price * t.size)
            && (bar.None? && working.Some? ==> next.volume == working.value.volume + t.size
                                               && next.turnover == working.value.turnover + t.price * t.size)
            && (working.None? ==> bar.None? && next.volume == t.size && next.turnover == t.price * t.size)
  {
  }

  // Nothing traded is lost or counted twice, in whatever order trades arrive.
  lemma {:induction false} VolumeIsConserved(ts: seq<Trade>, bucket: int -> int, timeframe: int)
    ensures BarVolume(Build(ts, bucket, timeframe).bars) + WorkingVolume(Build(ts, bucket, timeframe)) == SizeSum(ts)
    ensures BarTurnover(Build(ts, bucket, timeframe).bars) + WorkingTurnover(Build(ts, bucket, timeframe))
            == ValueSum(ts)
  {
    if ts != [] {
      var before, t := Build(ts[..|ts| - 1], bucket, timeframe), ts[|ts| - 1];
      VolumeIsConserved(ts[..|ts| - 1], bucket, timeframe);
      AdvanceConserves(before.working, t, bucket(t.time), timeframe);
      var (next, bar) := Advance(before.working, t, bucket(t.time), timeframe);
      if bar.Some? { BarSumsOneMore(before.bars, bar.value); }
    }
  }

  ghost predicate Shaped(c: Candle) { c.low <= c.open <= c.high && c.low <= c.close <= c.high }

  // Every bar and every working candle has its open and close between low and high.
  lemma {:induction false} CandlesAreShaped(ts: seq<Trade>, bucket: int -> int, timeframe: int)
    ensures var b := Build(ts, bucket, timeframe);
            && (forall i | 0 <= i < |b.bars| :: Shaped(b.bars[i].candle))
            && (b.working.Some? ==> Shaped(b.working.value))
  {
    if ts != [] { CandlesAreShaped(ts[..|ts| - 1], bucket, timeframe); }
  }

  // ---------------------------------------------------------------------------------------------
  // Against the direct aggregate of each bucket.

  ghost predicate InOrder(ts: seq<Trade>) { forall i, j | 0 <= i <= j < |ts| :: ts[i].time <= ts[j].time }

  // The trades of one bucket, in arrival order.
  function Bucket(ts: seq<Trade>, start: int, bucket: int -> int): seq<Trade>
  {
    if ts == [] then []
    else
      var last := ts[|ts| - 1];
      Bucket(ts[..|ts| - 1], start, bucket) + if bucket(last.time) == start then [last] else []
  }

  // The candle says of the trades: first and last price, highest and lowest, total size and value.
  ghost predicate Summarises(c: Candle, ts: seq<Trade>) {
    ts != [] && SummarisesPrices(c, ts) && SummarisesAmounts(c, ts)
  }

  ghost predicate SummarisesPrices(c: Candle, ts: seq<Trade>)
    requires ts != []
  {
    && c.open == ts[0].price && c.close == ts[|ts| - 1].price
    && (forall i | 0 <= i < |ts| :: c.low <= ts[i].price <= c.high)
    && Traded(ts, c.high) && Traded(ts, c.low)
  }

  ghost predicate SummarisesAmounts(c: Candle, ts: seq<Trade>) {
    c.volume == SizeSum(ts) && c.turnover == ValueSum(ts)
  }

  lemma OpenedSummarises(t: Trade, start: int, timeframe: int)
    ensures Summarises(Opened(t, start, timeframe), [t])
  {
    OpenedSums(t, start, timeframe);
    assert Traded([t], t.price) by { assert [t][0] == t; }
  }

  lemma OpenedSums(t: Trade, start: int, timeframe: int)
    ensures SummarisesAmounts(Opened(t, start, timeframe), [t])
  {
    assert [t][..0] == [];
    assert SizeSum([t]) == SizeSum([]) + t.size;
    assert ValueSum([t]) == ValueSum([]) + t.price * t.size;
  }

  lemma SumsOneMore(ts: seq<Trade>, t: Trade)
    ensures SizeSum(ts + [t]) == SizeSum(ts) + t.size && ValueSum(ts + [t]) == ValueSum(ts) + t.price * t.size
  {
    assert (ts + [t])[..|ts|] == ts;
  }

  // Some trade was made at the price.
  ghost predicate Traded(ts: seq<Trade>, price: real) { exists i :: 0 <= i < |ts| && ts[i].price == price }

  lemma TradedOneMore(ts: seq<Trade>, t: Trade, price: real)
    ensures Traded(ts, price) || price == t.price ==> Traded(ts + [t], price)
  {
    assert (ts + [t])[|ts|] == t;
    if i :| 0 <= i < |ts| && ts[i].price == price { assert (ts + [t])[i] == ts[i]; }
  }

  lemma AbsorbedSummarises(c: Candle, ts: seq<Trade>, t: Trade)
    requires Summarises(c, ts)
    ensures Summarises(Absorbed(c, t), ts + [t])
  {
    SumsOneMore(ts, t);
    TradedOneMore(ts, t, Absorbed(c, t).high);
    TradedOneMore(ts, t, Absorbed(c, t).low);
  }

  // What holds of the bars and the working candle built from trades in time order.
  ghost predicate Faithful(b: Built, ts: seq<Trade>, bucket: int -> int, timeframe: int)
  {
    && (b.working.None? <==> ts == [])
    && (b.working.Some? ==> && Summarises(b.working.value, Bucket(ts, b.working.value.start, bucket))
                            && b.working.value.end == b.working.value.start + timeframe
                            && b.working.value.start == bucket(ts[|ts| - 1].time))
    && (forall i | 0 <= i < |b.bars| :: FaithfulBar(b.bars[i], b, ts, bucket, timeframe))
    && (forall i, j | 0 <= i < j < |b.bars| :: b.bars[i].candle.start < b.bars[j].candle.start)
    && AllCovered(b, ts, bucket)
  }

  ghost predicate FaithfulBar(bar: Bar, b: Built, ts: seq<Trade>, bucket: int -> int, timeframe: int)
  {
    && bar.confirmed && Summarises(bar.candle, Bucket(ts, bar.candle.start, bucket))
    && bar.candle.end == bar.candle.start + timeframe
    && b.working.Some? && bar.candle.start < b.working.value.start
  }

  // The bucket is that of a bar or of the working candle.
  ghost predicate Covered(start: int, b: Built) {
    || (b.working.Some? && b.working.value.start == start)
    || exists i :: 0 <= i < |b.bars| && b.bars[i].candle.start == start
  }

  lemma {:induction false} LaterBucketIsEmpty(ts: seq<Trade>, start: int, bucket: int -> int)
    requires forall i | 0 <= i < |ts| :: bucket(ts[i].time) < start
    ensures Bucket(ts, start, bucket) == []
  {
    if ts != [] { LaterBucketIsEmpty(ts[..|ts| - 1], start, bucket); }
  }

  lemma BucketOneMore(ts: seq<Trade>, t: Trade, start: int, bucket: int -> int)
    ensures Bucket(ts + [t], start, bucket)
         == if bucket(t.time) == start then Bucket(ts, start, bucket) + [t] else Bucket(ts, start, bucket)
  {
    assert (ts + [t])[..|ts|] == ts;
  }

  lemma CoveredStays(start: int, a: Built, b: Built)
    requires Covered(start, a) && a.bars <= b.bars
    requires a.working.Some? ==> Covered(a.working.value.start, b)
    ensures Covered(start, b)
  {
    if i :| 0 <= i < |a.bars| && a.bars[i].candle.start == start { assert b.bars[i] == a.bars[i]; }
  }

  lemma NewBucket(ts: seq<Trade>, t: Trade, bucket: int -> int)
    requires forall k | 0 <= k < |ts| :: bucket(ts[k].time) < bucket(t.time)
    ensures Bucket(ts + [t], bucket(t.time), bucket) == [t]
  {
    LaterBucketIsEmpty(ts, bucket(t.time), bucket);
    BucketOneMore(ts, t, bucket(t.time), bucket);
    assert [] + [t] == [t];
  }

  ghost predicate AllCovered(b: Built, ts: seq<Trade>, bucket: int -> int) {
    forall k | 0 <= k < |ts| :: Covered(bucket(ts[k].time), b)
  }

  lemma AllCoveredStays(a: Built, b: Built, ts: seq<Trade>, t: Trade, bucket: int -> int)
    requires AllCovered(a, ts, bucket) && a.bars <= b.bars && Covered(bucket(t.time), b)
    requires a.working.Some? ==> Covered(a.working.value.start, b)
    ensures AllCovered(b, ts + [t], bucket)
  {
    var all := ts + [t];
    forall k | 0 <= k < |all| ensures Covered(bucket(all[k].time), b) {
      if k < |ts| { CoveredStays(bucket(ts[k].time), a, b); }
    }
  }

  // A trade of a later bucket closes the working candle.
  lemma ClosingIsFaithful(a: Built, ts: seq<Trade>, t: Trade, bucket: int -> int, timeframe: int)
    requires ts != [] && Faithful(a, ts, bucket, timeframe)
    requires forall k | 0 <= k < |ts| :: bucket(ts[k].time) < bucket(t.time)
    ensures Faithful(Built(a.bars + [Bar(a.working.value, true)], Some(Opened(t, bucket(t.time), timeframe))),
                     ts + [t], bucket, timeframe)
  {
    var c, start, all := a.working.value, bucket(t.time), ts + [t];
    var b := Built(a.bars + [Bar(c, true)], Some(Opened(t, bucket(t.time), timeframe)));
    NewBucket(ts, t, bucket);
    OpenedSummarises(t, start, timeframe);
    ClosedBarsAreFaithful(a, ts, t, bucket, timeframe, b);
    assert b.bars[|a.bars|].candle.start == c.start;
    AllCoveredStays(a, b, ts, t, bucket);
  }

  lemma ClosedBarsAreFaithful(a: Built, ts: seq<Trade>, t: Trade, bucket: int -> int, timeframe: int, b: Built)
    requires ts != [] && Faithful(a, ts, bucket, timeframe) && a.working.value.start < bucket(t.time)
    requires b == Built(a.bars + [Bar(a.working.value, true)], Some(Opened(t, bucket(t.time), timeframe)))
    ensures forall i | 0 <= i < |b.bars| :: FaithfulBar(b.bars[i], b, ts + [t], bucket, timeframe)
    ensures forall i, j | 0 <= i < j < |b.bars| :: b.bars[i].candle.start < b.bars[j].candle.start
  {
    forall i | 0 <= i < |b.bars| ensures FaithfulBar(b.bars[i], b, ts + [t], bucket, timeframe) {
      BucketOneMore(ts, t, b.bars[i].candle.start, bucket);
      if i < |a.bars| { assert FaithfulBar(a.bars[i], a, ts, bucket, timeframe); }
    }
    forall i, j | 0 <= i < j < |b.bars| ensures b.bars[i].candle.start < b.bars[j].candle.start {
      assert FaithfulBar(a.bars[i], a, ts, bucket, timeframe);
    }
  }

  // A trade of the working candle's bucket is absorbed.
  lemma AbsorbingIsFaithful(a: Built, ts: seq<Trade>, t: Trade, bucket: int -> int, timeframe: int)
    requires ts != [] && Faithful(a, ts, bucket, timeframe)
    requires bucket(t.time) == a.working.value.start
    ensures Faithful(Built(a.bars, Some(Absorbed(a.working.value, t))), ts + [t], bucket, timeframe)
  {
    var c, all := a.working.value, ts + [t];
    var b := Built(a.bars, Some(Absorbed(c, t)));
    BucketOneMore(ts, t, c.start, bucket);
    AbsorbedSummarises(c, Bucket(ts, c.start, bucket), t);
    forall i | 0 <= i < |b.bars| ensures FaithfulBar(b.bars[i], b, all, bucket, timeframe) {
      assert FaithfulBar(a.bars[i], a, ts, bucket, timeframe);
      BucketOneMore(ts, t, b.bars[i].candle.start, bucket);
    }
    AllCoveredStays(a, b, ts, t, bucket);
  }

  lemma FirstTradeIsFaithful(t: Trade, bucket: int -> int, timeframe: int)
    ensures Faithful(Built([], Some(Opened(t, bucket(t.time), timeframe))), [t], bucket, timeframe)
  {
    OpenedSummarises(t, bucket(t.time), timeframe);
    BucketOneMore([], t, bucket(t.time), bucket);
    assert [] + [t] == [t];
  }

  ghost predicate Monotone(bucket: int -> int) {
    forall a, b {:trigger bucket(a), bucket(b)} | a <= b :: bucket(a) <= bucket(b)
  }

  // For trades in time order every closed bar summarises exactly the trades of its bucket, bars come in strictly
  // increasing order, and every traded bucket has its bar or is the one being built.
  lemma {:induction false} BuildIsFaithful(ts: seq<Trade>, bucket: int -> int, timeframe: int)
    requires InOrder(ts) && Monotone(bucket)
    ensures Faithful(Build(ts, bucket, timeframe), ts, bucket, timeframe)
  {
    if ts != [] {
      var n := |ts| - 1;
      var before, t := ts[..n], ts[n];
      BuildIsFaithful(before, bucket, timeframe);
      assert ts == before + [t];
      if n == 0 {
        FirstTradeIsFaithful(t, bucket, timeframe);
        assert before == [] && ts == [t];
      } else {
        assert forall k | 0 <= k < n :: bucket(before[k].time) <= bucket(before[n - 1].time) <= bucket(t.time);
        if bucket(t.time) > Build(before, bucket, timeframe).working.value.start {
          ClosingIsFaithful(Build(before, bucket, timeframe), before, t, bucket, timeframe);
        } else {
          AbsorbingIsFaithful(Build(before, bucket, timeframe), before, t, bucket, timeframe);
        }
      }
    }
  }

  lemma BucketStartsAscend(a: int, b: int, timeframe: int)
    requires timeframe > 0 && a <= b
    ensures BucketStart(a, timeframe) <= BucketStart(b, timeframe)
  {
    var m, n := MinuteOf(a), MinuteOf(b);
    assert m <= n && m / 60 <= n / 60;
    FloorToMultiple(m % 60, timeframe);
    FloorToMultiple(n % 60, timeframe);
    if m / 60 == n / 60 { FloorAscends(m % 60, n % 60, timeframe); }
  }

  lemma FloorToMultiple(m: int, timeframe: int)
    requires timeframe > 0 && m >= 0
    ensures 0 <= m / timeframe * timeframe <= m < m / timeframe * timeframe + timeframe
  {
  }

  lemma FloorAscends(m: int, n: int, timeframe: int)
    requires timeframe > 0 && 0 <= m <= n
    ensures m / timeframe * timeframe <= n / timeframe * timeframe
  {
    QuotientAscends(m, n, timeframe);
    TimesAscends(m / timeframe, n / timeframe, timeframe);
  }

  lemma QuotientAscends(m: int, n: int, d: int)
    requires d > 0 && 0 <= m <= n
    ensures m / d <= n / d
  {
    var p, q := m / d, n / d;
    assert p * d <= m && n < q * d + d;
    assert p * d < (q + 1) * d;
    CancelLess(p, q + 1, d);
  }

  lemma TimesAscends(a: int, b: int, c: int)
    requires c > 0 && a <= b
    ensures a * c <= b * c
  {
  }

  // ---------------------------------------------------------------------------------------------
  // Many symbols through one builder.

  // The builder's working candles after any trades, and all bars it closed.
  datatype Session = Session(working: map<string, Candle>, closed: seq<Bar>) {
    function WorkingOf(symbol: string): Option<Candle> {
      if symbol in working then Some(working[symbol]) else None
    }
  }

  function ReplayStep(s: Session, t: Trade, bucket: int -> int, timeframe: int): Session {
    var (next, bar) := Advance(s.WorkingOf(t.symbol), t, bucket(t.time), timeframe);
    Session(s.working[t.symbol := next], if bar.Some? then s.closed + [bar.value] else s.closed)
  }

  function Replay(ts: seq<Trade>, bucket: int -> int, timeframe: int): Session {
    if ts == [] then Session(map[], [])
    else ReplayStep(Replay(ts[..|ts| - 1], bucket, timeframe), ts[|ts| - 1], bucket, timeframe)
  }

  function TradesOf(ts: seq<Trade>, symbol: string): seq<Trade> {
    if ts == [] then []
    else TradesOf(ts[..|ts| - 1], symbol) + if ts[|ts| - 1].symbol == symbol then [ts[|ts| - 1]] else []
  }

  function BarsOf(bars: seq<Bar>, symbol: string): seq<Bar> {
    if bars == [] then []
    else
      var last := bars[|bars| - 1];
      BarsOf(bars[..|bars| - 1], symbol) + if last.candle.symbol == symbol then [last] else []
  }

  lemma BarsOfOneMore(bars: seq<Bar>, bar: Bar, symbol: string)
    ensures BarsOf(bars + [bar], symbol) == BarsOf(bars, symbol) + if bar.candle.symbol == symbol then [bar] else []
  {
    assert (bars + [bar])[..|bars|] == bars;
  }

  // What the session holds of a symbol is what was built for it.
  ghost predicate HoldsBuilt(s: Session, b: Built, symbol: string) {
    && s.WorkingOf(symbol) == b.working && BarsOf(s.closed, symbol) == b.bars
    && (b.working.Some? ==> b.working.value.symbol == symbol)
  }

  lemma OwnTrade(s: Session, b: Built, t: Trade, bucket: int -> int, timeframe: int)
    requires HoldsBuilt(s, b, t.symbol)
    ensures HoldsBuilt(ReplayStep(s, t, bucket, timeframe), BuildStep(b, t, bucket, timeframe), t.symbol)
  {
    var (_, bar) := Advance(s.WorkingOf(t.symbol), t, bucket(t.time), timeframe);
    if bar.Some? { BarsOfOneMore(s.closed, bar.value, t.symbol); }
  }

  lemma OtherTrade(s: Session, b: Built, own: Built, t: Trade, symbol: string, bucket: int -> int, timeframe: int)
    requires HoldsBuilt(s, b, symbol) && HoldsBuilt(s, own, t.symbol) && symbol != t.symbol
    ensures HoldsBuilt(ReplayStep(s, t, bucket, timeframe), b, symbol)
  {
    var (_, bar) := Advance(s.WorkingOf(t.symbol), t, bucket(t.time), timeframe);
    if bar.Some? {
      BarsOfOneMore(s.closed, bar.value, symbol);
      assert BarsOf(s.closed, symbol) + [] == BarsOf(s.closed, symbol);
    }
  }

  lemma TradesOfOneMore(ts: seq<Trade>, symbol: string)
    requires ts != []
    ensures var before, t := TradesOf(ts[..|ts| - 1], symbol), ts[|ts| - 1];
            TradesOf(ts, symbol) == if t.symbol == symbol then before + [t] else before
  {
    assert TradesOf(ts[..|ts| - 1], symbol) + [] == TradesOf(ts[..|ts| - 1], symbol);
  }

  lemma BuildOneMore(ts: seq<Trade>, t: Trade, bucket: int -> int, timeframe: int)
    ensures Build(ts + [t], bucket, timeframe) == BuildStep(Build(ts, bucket, timeframe), t, bucket, timeframe)
  {
    assert (ts + [t])[..|ts|] == ts;
  }

  // A symbol's bars and working candle depend on its own trades alone.
  lemma {:induction false} SymbolsAreIndependent(ts: seq<Trade>, symbol: string, bucket: int -> int, timeframe: int)
    ensures HoldsBuilt(Replay(ts, bucket, timeframe), Build(TradesOf(ts, symbol), bucket, timeframe), symbol)
  {
    if ts != [] {
      var before, t := ts[..|ts| - 1], ts[|ts| - 1];
      var s := Replay(before, bucket, timeframe);
      var b := Build(TradesOf(before, symbol), bucket, timeframe);
      var own := Build(TradesOf(before, t.symbol), bucket, timeframe);
      SymbolsAreIndependent(before, symbol, bucket, timeframe);
      SymbolsAreIndependent(before, t.symbol, bucket, timeframe);
      TradesOfOneMore(ts, symbol);
      if symbol == t.symbol {
        BuildOneMore(TradesOf(before, symbol), t, bucket, timeframe);
        OwnTrade(s, b, t, bucket, timeframe);
      } else {
        OtherTrade(s, b, own, t, symbol, bucket, timeframe);
      }
    }
  }

  // The buckets the builder uses.
  function Buckets(timeframe: int): int -> int
    requires timeframe > 0
  {
    time => BucketStart(time, timeframe)
  }

  lemma BuilderIsFaithful(ts: seq<Trade>, timeframe: int)
    requires timeframe > 0 && InOrder(ts)
    ensures Faithful(Build(ts, Buckets(timeframe), timeframe), ts, Buckets(timeframe), timeframe)
  {
    forall a, b | a <= b ensures Buckets(timeframe)(a) <= Buckets(timeframe)(b) { BucketStartsAscend(a, b, timeframe); }
    BuildIsFaithful(ts, Buckets(timeframe), timeframe);
  }

  // ---------------------------------------------------------------------------------------------
  // Overlap.

  ghost predicate NeverOverlap(timeframe: int)
    requires timeframe > 0
  {
    forall s, t {:trigger BucketStart(s, timeframe), BucketStart(t, timeframe)} ::
      BucketStart(s, timeframe) < BucketStart(t, timeframe) ==>
        BucketStart(s, timeframe) + timeframe <= BucketStart(t, timeframe)
  }

  // Bars of different buckets keep clear of each other exactly when the timeframe divides the hour.
  lemma OverlapIff(timeframe: int)
    requires timeframe > 0
    ensures NeverOverlap(timeframe) <==> 60 % timeframe == 0
  {
    if 60 % timeframe == 0 {
      forall s, t | BucketStart(s, timeframe) < BucketStart(t, timeframe)
        ensures BucketStart(s, timeframe) + timeframe <= BucketStart(t, timeframe)
      {
        StartIsMultiple(s, timeframe);
        StartIsMultiple(t, timeframe);
        MultiplesApart(StartFactor(s, timeframe), StartFactor(t, timeframe), timeframe);
      }
    } else {
      LastBucketOverruns(timeframe);
    }
  }

  function StartFactor(time: int, timeframe: int): int
    requires timeframe > 0
  {
    MinuteOf(time) / 60 * (60 / timeframe) + MinuteOf(time) % 60 / timeframe
  }

  lemma StartIsMultiple(time: int, timeframe: int)
    requires timeframe > 0 && 60 % timeframe == 0
    ensures BucketStart(time, timeframe) == StartFactor(time, timeframe) * timeframe
  {
    var h, k, q := MinuteOf(time) / 60, 60 / timeframe, MinuteOf(time) % 60 / timeframe;
    assert k * timeframe == 60;
    Regroup(h, k, q, timeframe);
  }

  lemma Regroup(h: int, k: int, q: int, d: int)
    ensures (h * k + q) * d == h * (k * d) + q * d
  {
  }

  lemma MultiplesApart(p: int, q: int, d: int)
    requires d > 0 && p * d < q * d
    ensures p * d + d <= q * d
  {
    CancelLess(p, q, d);
    TimesAscends(p + 1, q, d);
  }

  // Otherwise the last bucket of an hour runs into the next hour's first.
  lemma LastBucketOverruns(timeframe: int)
    requires timeframe > 0 && 60 % timeframe != 0
    ensures !NeverOverlap(timeframe)
  {
    var m := 60 / timeframe * timeframe;
    FloorToMultiple(60, timeframe);
    assert 60 == m + 60 % timeframe;
    ExactQuotient(60 / timeframe, timeframe);
    StartInFirstHour(m, timeframe);
    StartOfSecondHour(timeframe);
    assert BucketStart(m * MicrosPerMinute, timeframe) == m && BucketStart(60 * MicrosPerMinute, timeframe) == 60;
  }

  lemma StartInFirstHour(m: int, timeframe: int)
    requires timeframe > 0 && 0 <= m < 60
    ensures BucketStart(m * MicrosPerMinute, timeframe) == m / timeframe * timeframe
  {
    assert MinuteOf(m * MicrosPerMinute) == m && m % 60 == m && m / 60 == 0;
  }

  lemma StartOfSecondHour(timeframe: int)
    requires timeframe > 0
    ensures BucketStart(60 * MicrosPerMinute, timeframe) == 60
  {
    ExactQuotient(0, timeframe);
    assert MinuteOf(60 * MicrosPerMinute) == 60;
  }

  lemma ExactQuotient(q: int, d: int)
    requires d > 0
    ensures q * d / d == q
  {
    var p, r := q * d / d, q * d % d;
    assert p * d + r == q * d && 0 <= r < d;
    CancelLess(p, q + 1, d);
    CancelLess(q, p + 1, d);
  }
}
