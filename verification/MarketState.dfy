// The in-memory market state: folds of the event stream, and what each of them says of the whole history.
module MarketState {
  import opened Common

  // The fields of a payload; None is null. A field the payload does not have reads as null.
  type Fields = map<string, Option<string>>

  datatype Kline = Kline(symbol: string, interval: string, confirmed: bool, fields: Fields)

  datatype Event =
    | TickerSeen(symbol: string, ticker: Fields)
    | TradeSeen(trade: Trade)
    | KlineSeen(kline: Kline)
    | OrderSeen(orderId: string, order: Fields)
    | ExecutionSeen(execId: string, execution: Fields)
    | WalletSeen(wallet: Fields)
    | PositionSeen(position: string, details: Fields)

  function Get(u: Fields, field: string): Option<string> { if field in u then u[field] else None }

  function Present(u: Fields): set<string> { set k | k in u && u[k].Some? }

  // What an update makes of the entry before it: nulls change nothing. Where the raw payload is kept it is always the
  // latest one.
  function Merged(before: Option<Fields>, u: Fields, latestRaw: bool): Fields {
    if before.None? then u
    else
      map k | k in before.value.Keys + Present(u) + (if latestRaw then {"raw"} else {}) ::
        if latestRaw && k == "raw" then Get(u, "raw")
        else if Get(u, k).Some? then Get(u, k) else Get(before.value, k)
  }

  // The newest at most n elements.
  function Newest<T>(s: seq<T>, n: nat): seq<T> { if |s| <= n then s else s[|s| - n..] }

  datatype Snapshot = Snapshot(
    tickers: map<string, Fields>, lastTrade: map<string, Trade>, confirmed: map<(string, string), Kline>,
    orders: map<string, Fields>, executions: map<string, Fields>, wallet: Option<Fields>,
    positions: map<string, Fields>, buffers: map<string, seq<Trade>>, queue: seq<Kline>)

  const Empty := Snapshot(map[], map[], map[], map[], map[], None, map[], map[], [])

  function Lookup<K, V>(m: map<K, V>, k: K): Option<V> { if k in m then Some(m[k]) else None }

  function BufferOf(s: Snapshot, symbol: string): seq<Trade> { if symbol in s.buffers then s.buffers[symbol] else [] }

  function Apply(s: Snapshot, e: Event, limit: nat): Snapshot {
    match e
    case TickerSeen(symbol, t) => s.(tickers := s.tickers[symbol := t])
    case TradeSeen(t) =>
      s.(lastTrade := s.lastTrade[t.symbol := t],
         buffers := s.buffers[t.symbol := Newest(BufferOf(s, t.symbol) + [t], limit)])
    case KlineSeen(k) =>
      if k.confirmed then s.(confirmed := s.confirmed[(k.symbol, k.interval) := k], queue := s.queue + [k]) else s
    case OrderSeen(id, u) =>
      if id == "" then s else s.(orders := s.orders[id := Merged(Lookup(s.orders, id), u, false)])
    case ExecutionSeen(id, u) => if id == "" then s else s.(executions := s.executions[id := u])
    case WalletSeen(u) => s.(wallet := Some(Merged(s.wallet, u, true)))
    case PositionSeen(symbol, u) =>
      if symbol == "" then s else s.(positions := s.positions[symbol := Merged(Lookup(s.positions, symbol), u, true)])
  }

  // ---------------------------------------------------------------------------------------------
  // The state as it is held.

  class MarketState {
    const limit: nat
    var tickers: map<string, Fields>
    var lastTrade: map<string, Trade>
    var confirmed: map<(string, string), Kline>
    var orders: map<string, Fields>
    var executions: map<string, Fields>
    var wallet: Option<Fields>
    var positions: map<string, Fields>
    var buffers: map<string, seq<Trade>>
    var queue: seq<Kline>

    function View(): Snapshot
      reads this
    {
      Snapshot(tickers, lastTrade, confirmed, orders, executions, wallet, positions, buffers, queue)
    }

    constructor (limit: nat)
      ensures View() == Empty && this.limit == limit
    {
      this.limit := limit;
      tickers, lastTrade, confirmed, orders, executions := map[], map[], map[], map[], map[];
      wallet, positions, buffers, queue := None, map[], map[], [];
    }

    method ApplyEvent(e: Event)
      modifies this
      ensures View() == Apply(old(View()), e, limit)
    {
      match e
      case TickerSeen(symbol, t) => tickers := tickers[symbol := t];
      case TradeSeen(t) =>
        lastTrade := lastTrade[t.symbol := t];
        var buffer := Append(if t.symbol in buffers then buffers[t.symbol] else [], t, limit);
        buffers := buffers[t.symbol := buffer];
      case KlineSeen(k) =>
        if k.confirmed { confirmed, queue := confirmed[(k.symbol, k.interval) := k], queue + [k]; }
      case OrderSeen(id, u) =>
        if id != "" {
          var entry := MergeUpdate(Lookup(orders, id), u, false);
          orders := orders[id := entry];
        }
      case ExecutionSeen(id, u) => if id != "" { executions := executions[id := u]; }
      case WalletSeen(u) =>
        var entry := MergeUpdate(wallet, u, true);
        wallet := Some(entry);
      case PositionSeen(symbol, u) =>
        if symbol != "" {
          var entry := MergeUpdate(Lookup(positions, symbol), u, true);
          positions := positions[symbol := entry];
        }
    }

    // Appending to a bounded deque drops entries from its front.
    static method Append(buffer: seq<Trade>, t: Trade, limit: nat) returns (r: seq<Trade>)
      ensures r == Newest(buffer + [t], limit)
    {
      r := buffer + [t];
      while |r| > limit
        invariant Newest(r, limit) == Newest(buffer + [t], limit)
      {
        r := r[1..];
      }
    }

    method ApplyEvents(es: seq<Event>)
      modifies this
      ensures View() == Replay(old(View()), es, limit)
    {
      for i := 0 to |es|
        invariant View() == Replay(old(View()), es[..i], limit)
      {
        assert es[..i + 1][..i] == es[..i];
        ApplyEvent(es[i]);
      }
      assert es[..|es|] == es;
    }

    // The consumer takes klines from the front; it waits while there is none.
    method NextConfirmedKline() returns (k: Kline)
      requires queue != []
      modifies `queue
      ensures [k] + queue == old(queue)
    {
      k := queue[0];
      queue := queue[1..];
    }
  }

  // The three merge helpers: copy the entry, overwrite what the update has, and keep the latest raw payload.
  method MergeUpdate(before: Option<Fields>, u: Fields, latestRaw: bool) returns (merged: Fields)
    ensures merged == Merged(before, u, latestRaw)
  {
    if before.None? { return u; }
    merged := before.value;
    var left := u.Keys;
    while left != {}
      invariant left <= u.Keys && MergedExcept(before.value, u, latestRaw, left, merged)
      decreases |left|
    {
      var key :| key in left;
      MergedOneMore(before.value, u, latestRaw, left, merged, key);
      left := left - {key};
      if latestRaw && key == "raw" { continue; }
      if u[key].Some? { merged := merged[key := u[key]]; }
    }
    MergedFully(before.value, u, latestRaw, merged);
    if latestRaw { merged := merged["raw" := Get(u, "raw")]; }
  }

  // Merged at the fields already visited, the raw payload not yet among them.
  ghost predicate MergedExcept(before: Fields, u: Fields, latestRaw: bool, left: set<string>, merged: Fields) {
    && (forall k :: k in merged <==> k in before || Taken(u, latestRaw, left, k))
    && (forall k | k in merged :: merged[k] == if Taken(u, latestRaw, left, k) then u[k] else Get(before, k))
  }

  ghost predicate Taken(u: Fields, latestRaw: bool, left: set<string>, k: string) {
    k in u && k !in left && u[k].Some? && !(latestRaw && k == "raw")
  }

  lemma MergedOneMore(before: Fields, u: Fields, latestRaw: bool, left: set<string>, merged: Fields, key: string)
    requires MergedExcept(before, u, latestRaw, left, merged) && key in left && key in u
    ensures MergedExcept(before, u, latestRaw, left - {key},
                         if u[key].Some? && !(latestRaw && key == "raw") then merged[key := u[key]] else merged)
  {
  }

  lemma MergedFully(before: Fields, u: Fields, latestRaw: bool, merged: Fields)
    requires MergedExcept(before, u, latestRaw, {}, merged)
    ensures (if latestRaw then merged["raw" := Get(u, "raw")] else merged) == Merged(Some(before), u, latestRaw)
  {
  }

  function Replay(s: Snapshot, es: seq<Event>, limit: nat): Snapshot {
    if es == [] then s else Apply(Replay(s, es[..|es| - 1], limit), es[|es| - 1], limit)
  }

  // ---------------------------------------------------------------------------------------------
  // What the state says of the whole history.

  // The payloads an entry was merged from, oldest first.
  function Payloads(es: seq<Event>, entry: Entry): seq<Fields> {
    if es == [] then []
    else Payloads(es[..|es| - 1], entry) + PayloadOf(es[|es| - 1], entry)
  }

  datatype Entry = OrderEntry(orderId: string) | WalletEntry | PositionEntry(symbol: string)

  function PayloadOf(e: Event, entry: Entry): seq<Fields> {
    match e
    case OrderSeen(id, u) => if id != "" && entry == OrderEntry(id) then [u] else []
    case WalletSeen(u) => if entry == WalletEntry then [u] else []
    case PositionSeen(symbol, u) => if symbol != "" && entry == PositionEntry(symbol) then [u] else []
    case _ => []
  }

  function EntryOf(s: Snapshot, entry: Entry): Option<Fields> {
    match entry
    case OrderEntry(id) => Lookup(s.orders, id)
    case WalletEntry => s.wallet
    case PositionEntry(symbol) => Lookup(s.positions, symbol)
  }

  function KeepsLatestRaw(entry: Entry): bool { !entry.OrderEntry? }

  // The last value of a field that is not null.
  function LastValue(us: seq<Fields>, field: string): Option<string> {
    if us == [] then None
    else if Get(us[|us| - 1], field).Some? then Get(us[|us| - 1], field)
    else LastValue(us[..|us| - 1], field)
  }

  lemma LastValueOneMore(us: seq<Fields>, u: Fields, field: string)
    ensures LastValue(us + [u], field) == if Get(u, field).Some? then Get(u, field) else LastValue(us, field)
  {
    assert (us + [u])[..|us|] == us;
  }

  lemma StepOfEntry(s: Snapshot, e: Event, limit: nat, entry: Entry)
    ensures EntryOf(Apply(s, e, limit), entry)
         == if PayloadOf(e, entry) == [] then EntryOf(s, entry)
            else Some(Merged(EntryOf(s, entry), PayloadOf(e, entry)[0], KeepsLatestRaw(entry)))
    ensures |PayloadOf(e, entry)| <= 1
  {
  }

  // What an entry should hold of a field after the given payloads.
  ghost predicate HoldsLast(held: Option<Fields>, us: seq<Fields>, latestRaw: bool, field: string) {
    && (held.Some? <==> us != [])
    && (held.Some? ==> Get(held.value, field)
                       == if latestRaw && field == "raw" then Get(us[|us| - 1], field) else LastValue(us, field))
  }

  lemma MergeHoldsLast(held: Option<Fields>, us: seq<Fields>, u: Fields, latestRaw: bool, field: string)
    requires HoldsLast(held, us, latestRaw, field)
    ensures HoldsLast(Some(Merged(held, u, latestRaw)), us + [u], latestRaw, field)
  {
    LastValueOneMore(us, u, field);
    MergedField(held, u, latestRaw, field);
  }

  // Every order, wallet and position entry exists once a payload for it was seen, and each of its fields is the last
  // value seen that was not null; the raw payload of wallet and positions is the latest one, null or not.
  lemma {:induction false} EntriesAreLastValues(es: seq<Event>, limit: nat, entry: Entry, field: string)
    ensures HoldsLast(EntryOf(Replay(Empty, es, limit), entry), Payloads(es, entry), KeepsLatestRaw(entry), field)
  {
    if es != [] {
      var before, e := es[..|es| - 1], es[|es| - 1];
      var held, us := EntryOf(Replay(Empty, before, limit), entry), Payloads(before, entry);
      EntriesAreLastValues(before, limit, entry, field);
      StepOfEntry(Replay(Empty, before, limit), e, limit, entry);
      if PayloadOf(e, entry) == [] {
        assert us + [] == us;
      } else {
        assert PayloadOf(e, entry) == [PayloadOf(e, entry)[0]];
        MergeHoldsLast(held, us, PayloadOf(e, entry)[0], KeepsLatestRaw(entry), field);
      }
    }
  }

  lemma MergedField(before: Option<Fields>, u: Fields, latestRaw: bool, field: string)
    ensures Get(Merged(before, u, latestRaw), field)
         == if before.None? || (latestRaw && field == "raw") || Get(u, field).Some? then Get(u, field)
            else Get(before.value, field)
  {
  }

  function TradeIn(e: Event, symbol: string): seq<Trade> {
    if e.TradeSeen? && e.trade.symbol == symbol then [e.trade] else []
  }

  function TradesOf(es: seq<Event>, symbol: string): seq<Trade> {
    if es == [] then [] else TradesOf(es[..|es| - 1], symbol) + TradeIn(es[|es| - 1], symbol)
  }

  lemma NewestOneMore<T>(s: seq<T>, x: T, n: nat)
    ensures Newest(Newest(s, n) + [x], n) == Newest(s + [x], n)
  {
  }

  lemma StepOfTrades(s: Snapshot, e: Event, limit: nat, symbol: string)
    ensures BufferOf(Apply(s, e, limit), symbol)
         == if TradeIn(e, symbol) == [] then BufferOf(s, symbol)
            else Newest(BufferOf(s, symbol) + TradeIn(e, symbol), limit)
    ensures Lookup(Apply(s, e, limit).lastTrade, symbol)
         == if TradeIn(e, symbol) == [] then Lookup(s.lastTrade, symbol) else Some(TradeIn(e, symbol)[0])
    ensures TradeIn(e, symbol) == [] || TradeIn(e, symbol) == [TradeIn(e, symbol)[0]]
  {
  }

  // What a buffer and the last trade should be after the given trades of the symbol.
  ghost predicate Buffered(s: Snapshot, ts: seq<Trade>, limit: nat, symbol: string) {
    && BufferOf(s, symbol) == Newest(ts, limit)
    && Lookup(s.lastTrade, symbol) == if ts == [] then None else Some(ts[|ts| - 1])
  }

  lemma StepKeepsBuffered(s: Snapshot, ts: seq<Trade>, e: Event, limit: nat, symbol: string)
    requires Buffered(s, ts, limit, symbol)
    ensures Buffered(Apply(s, e, limit), ts + TradeIn(e, symbol), limit, symbol)
  {
    StepOfTrades(s, e, limit, symbol);
    if TradeIn(e, symbol) == [] {
      assert ts + [] == ts;
    } else {
      NewestOneMore(ts, TradeIn(e, symbol)[0], limit);
    }
  }

  lemma {:induction false} BuffersFollowTrades(es: seq<Event>, limit: nat, symbol: string)
    ensures Buffered(Replay(Empty, es, limit), TradesOf(es, symbol), limit, symbol)
  {
    if es != [] {
      var before, e := es[..|es| - 1], es[|es| - 1];
      BuffersFollowTrades(before, limit, symbol);
      StepKeepsBuffered(Replay(Empty, before, limit), TradesOf(before, symbol), e, limit, symbol);
    }
  }

  // Each trade buffer is exactly the last trades of its symbol, at most the limit, and the last trade is the newest.
  lemma BuffersAreNewestTrades(es: seq<Event>, limit: nat, symbol: string)
    ensures var s, ts := Replay(Empty, es, limit), TradesOf(es, symbol);
            var buffer := if symbol in s.buffers then s.buffers[symbol] else [];
            && |buffer| == (if |ts| <= limit then |ts| else limit) && buffer == ts[|ts| - |buffer|..]
            && (symbol in s.lastTrade <==> ts != []) && (ts != [] ==> s.lastTrade[symbol] == ts[|ts| - 1])
  {
    BuffersFollowTrades(es, limit, symbol);
  }

  // What is kept whole: the ticker of a symbol, the confirmed kline of a symbol and interval, an execution.
  datatype Slot = TickerSlot(symbol: string) | KlineSlot(symbol: string, interval: string) | ExecutionSlot(id: string)

  datatype Held = HeldFields(fields: Fields) | HeldKline(kline: Kline)

  ghost function Shown(s: Snapshot, slot: Slot): Option<Held> {
    match slot
    case TickerSlot(symbol) => if symbol in s.tickers then Some(HeldFields(s.tickers[symbol])) else None
    case KlineSlot(symbol, interval) =>
      if (symbol, interval) in s.confirmed then Some(HeldKline(s.confirmed[(symbol, interval)])) else None
    case ExecutionSlot(id) => if id in s.executions then Some(HeldFields(s.executions[id])) else None
  }

  ghost function Brought(e: Event, slot: Slot): Option<Held> {
    match slot
    case TickerSlot(symbol) => if e.TickerSeen? && e.symbol == symbol then Some(HeldFields(e.ticker)) else None
    case KlineSlot(symbol, interval) =>
      if e.KlineSeen? && e.kline.confirmed && e.kline.symbol == symbol && e.kline.interval == interval
      then Some(HeldKline(e.kline)) else None
    case ExecutionSlot(id) =>
      if e.ExecutionSeen? && e.execId == id && id != "" then Some(HeldFields(e.execution)) else None
  }

  // Each shows the last event that brought something for it, and nothing before the first.
  lemma {:induction false} SlotsAreLatest(es: seq<Event>, limit: nat, slot: Slot)
    ensures var shown := Shown(Replay(Empty, es, limit), slot);
            && ((forall n | 0 <= n < |es| :: Brought(es[n], slot).None?) ==> shown.None?)
            && (forall n | 0 <= n < |es| && Brought(es[n], slot).Some?
                  && (forall m | n < m < |es| :: Brought(es[m], slot).None?) :: shown == Brought(es[n], slot))
  {
    if es != [] {
      var before, e := es[..|es| - 1], es[|es| - 1];
      SlotsAreLatest(before, limit, slot);
      StepOfSlot(Replay(Empty, before, limit), e, limit, slot);
      assert forall n | 0 <= n < |before| :: before[n] == es[n];
    }
  }

  lemma StepOfSlot(s: Snapshot, e: Event, limit: nat, slot: Slot)
    ensures Shown(Apply(s, e, limit), slot)
         == if Brought(e, slot).Some? then Brought(e, slot) else Shown(s, slot)
  {
  }

  function QueuedBy(e: Event): seq<Kline> { if e.KlineSeen? && e.kline.confirmed then [e.kline] else [] }

  function ConfirmedKlines(es: seq<Event>): seq<Kline> {
    if es == [] then [] else ConfirmedKlines(es[..|es| - 1]) + QueuedBy(es[|es| - 1])
  }

  // What the stream and a consumer do to the queue, in any interleaving.
  datatype QueueStep = Arrives(event: Event) | Consumed

  function Arrived(steps: seq<QueueStep>): seq<Event> {
    if steps == [] then []
    else
      var last := steps[|steps| - 1];
      Arrived(steps[..|steps| - 1]) + if last.Arrives? then [last.event] else []
  }

  // The state the steps leave, and the klines consumed so far.
  function Interleaved(steps: seq<QueueStep>, limit: nat): (Snapshot, seq<Kline>) {
    if steps == [] then (Empty, [])
    else
      var (s, taken) := Interleaved(steps[..|steps| - 1], limit);
      match steps[|steps| - 1]
      case Arrives(e) => (Apply(s, e, limit), taken)
      case Consumed => if s.queue == [] then (s, taken) else (s.(queue := s.queue[1..]), taken + [s.queue[0]])
  }

  lemma ConfirmedOneMore(es: seq<Event>, e: Event)
    ensures ConfirmedKlines(es + [e]) == ConfirmedKlines(es) + QueuedBy(e)
  {
    assert (es + [e])[..|es|] == es;
  }

  lemma StepOfQueue(s: Snapshot, e: Event, limit: nat)
    ensures Apply(s, e, limit).queue == s.queue + QueuedBy(e)
  {
  }

  // Consumed and queued klines together are exactly the confirmed klines seen, in order: none lost, none repeated.
  lemma {:induction false} KlinesAreConserved(steps: seq<QueueStep>, limit: nat)
    ensures var (s, taken) := Interleaved(steps, limit); taken + s.queue == ConfirmedKlines(Arrived(steps))
  {
    if steps != [] {
      var before, last := steps[..|steps| - 1], steps[|steps| - 1];
      KlinesAreConserved(before, limit);
      var (s, taken) := Interleaved(before, limit);
      if last.Arrives? {
        ConfirmedOneMore(Arrived(before), last.event);
        StepOfQueue(s, last.event, limit);
        Reassociate(taken, s.queue, QueuedBy(last.event));
      } else {
        assert Arrived(before) + [] == Arrived(before);
        if s.queue != [] { Reassociate(taken, [s.queue[0]], s.queue[1..]); }
      }
    }
  }
}
