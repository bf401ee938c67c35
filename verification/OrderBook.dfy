// The order store as a value. The store keeps two indexes over shared, mutable order objects; here an object is a cell
// index, so that aliasing between the two indexes stays visible.
module OrderBook {
  import opened Common

  datatype OrderStatus = New | PartiallyFilled | Filled | Cancelled | Rejected

  predicate IsOpen(status: OrderStatus) { status == New || status == PartiallyFilled }

  datatype Order = Order(
    orderId: Option<string>, linkId: string, symbol: string, status: OrderStatus, qty: real, filledQty: real,
    avgPrice: Option<real>, reduceOnly: bool, createdAt: int, updatedAt: int, metadata: map<string, string>)

  datatype Side = Buy | Sell

  datatype Purpose = Entry | Exit

  datatype Intent = Intent(
    symbol: string, side: Side, qty: real, price: Option<real>, reduceOnly: bool, linkId: string, purpose: Purpose,
    createdAt: int, metadata: map<string, string>)

  // One event of the private order stream; absent fields were null in the payload.
  datatype Update = Update(
    orderId: Option<string>, linkId: Option<string>, status: Option<OrderStatus>, filledQty: Option<real>,
    avgPrice: Option<real>, updatedAt: int)

  // One order of an exchange snapshot.
  datatype RemoteOrder = RemoteOrder(
    orderId: string, linkId: string, symbol: string, status: OrderStatus, price: real, qty: real, filledQty: real,
    reduceOnly: bool, updatedTime: int)

  datatype Book = Book(cells: seq<Order>, byLink: Dict<nat>, byOrderId: map<string, nat>) {

    // Both indexes point at allocated cells.
    ghost predicate WellFormed() {
      && (forall k | k in byLink.entries :: byLink.entries[k] < |cells|)
      && (forall o | o in byOrderId :: byOrderId[o] < |cells|)
    }

    // Moreover the link index can be iterated: its key order lists each link id once.
    ghost predicate Iterable() { WellFormed() && byLink.Listed() }

    // The order tracked under a link id.
    function At(link: string): Order
      requires WellFormed() && link in byLink.entries
    {
      cells[byLink.entries[link]]
    }

    predicate OpenAt(link: string)
      requires WellFormed()
    {
      link in byLink.entries && IsOpen(At(link).status)
    }
  }

  const EmptyBook := Book([], EmptyDict(), map[])

  const TerminalReasonKey := "reconcile_terminal_reason"
  const ClosedMissing := "closed_missing_on_exchange"

  function SideName(side: Side): string {
    match side case Buy => "Buy" case Sell => "Sell"
  }

  function IntentMetadata(intent: Intent): map<string, string> {
    if intent.purpose == Entry && "entry_side" !in intent.metadata then
      intent.metadata["entry_side" := SideName(intent.side)]
    else
      intent.metadata
  }

  function OrderOfIntent(intent: Intent): Order {
    Order(None, intent.linkId, intent.symbol, New, intent.qty, 0.0, None, intent.reduceOnly,
          intent.createdAt, intent.createdAt, IntentMetadata(intent))
  }

  // The two shapes a change takes: a new order tracked, or one order rewritten in place; either may bind an order id.
  function Track(b: Book, o: Order, orderId: Option<string>): Book {
    Book(b.cells + [o], b.byLink.Put(o.linkId, |b.cells|),
         if orderId.Some? then b.byOrderId[orderId.value := |b.cells|] else b.byOrderId)
  }

  function Rewrite(b: Book, c: nat, o: Order, orderId: Option<string>): Book
    requires c < |b.cells|
  {
    b.(cells := b.cells[c := o],
       byOrderId := if orderId.Some? then b.byOrderId[orderId.value := c] else b.byOrderId)
  }

  function Register(b: Book, intent: Intent): (b': Book)
    requires b.WellFormed()
    ensures b'.WellFormed() && (b.byLink.Listed() ==> b'.byLink.Listed())
  {
    if intent.linkId in b.byLink.entries then b else Track(b, OrderOfIntent(intent), None)
  }

  function Ack(b: Book, link: string, orderId: string, when: int): (b': Book)
    requires b.WellFormed()
    ensures b'.WellFormed() && (b.byLink.Listed() ==> b'.byLink.Listed())
  {
    if link !in b.byLink.entries then b
    else
      Rewrite(b, b.byLink.entries[link], b.At(link).(orderId := Some(orderId), updatedAt := when), Some(orderId))
  }

  // The cell an update addresses: by order id first, then by link id.
  function Target(b: Book, u: Update): (c: Option<nat>)
    requires b.WellFormed()
    ensures c.Some? ==> c.value < |b.cells|
  {
    if u.orderId.Some? && u.orderId.value in b.byOrderId then Some(b.byOrderId[u.orderId.value])
    else if u.linkId.Some? then b.byLink.Get(u.linkId.value)
    else None
  }

  function Updated(o: Order, u: Update): Order {
    o.(status := if u.status.Some? then u.status.value else o.status,
       filledQty := if u.filledQty.Some? then u.filledQty.value else o.filledQty,
       avgPrice := if u.avgPrice.Some? then u.avgPrice else o.avgPrice,
       updatedAt := u.updatedAt,
       orderId := if u.orderId.Some? then u.orderId else o.orderId)
  }

  function ApplyUpdate(b: Book, u: Update): (b': Book)
    requires b.WellFormed()
    ensures b'.WellFormed() && (b.byLink.Listed() ==> b'.byLink.Listed())
  {
    match Target(b, u)
    case None => b
    case Some(c) => Rewrite(b, c, Updated(b.cells[c], u), u.orderId)
  }

  function Closed(o: Order, when: int): Order {
    o.(status := Cancelled, updatedAt := when, metadata := o.metadata[TerminalReasonKey := ClosedMissing])
  }

  function Close(b: Book, link: string, when: int): (b': Book)
    requires b.WellFormed()
    ensures b'.WellFormed() && (b.byLink.Listed() ==> b'.byLink.Listed())
  {
    if !b.OpenAt(link) then b
    else Rewrite(b, b.byLink.entries[link], Closed(b.At(link), when), None)
  }

  function OrderOfRemote(r: RemoteOrder): Order {
    Order(Some(r.orderId), r.linkId, r.symbol, r.status, r.qty, r.filledQty, Some(r.price), r.reduceOnly,
          r.updatedTime, r.updatedTime, map["source" := "reconciler_snapshot"])
  }

  // What a snapshot order makes of an order already tracked; creation time and metadata survive.
  function Overwritten(o: Order, r: RemoteOrder): Order {
    OrderOfRemote(r).(createdAt := o.createdAt, metadata := o.metadata)
  }

  // The tracked order a snapshot order overwrites: by link id first, then by order id.
  function Existing(b: Book, r: RemoteOrder): (c: Option<nat>)
    requires b.WellFormed()
    ensures c.Some? ==> c.value < |b.cells|
  {
    if r.linkId in b.byLink.entries then b.byLink.Get(r.linkId)
    else if r.orderId in b.byOrderId then Some(b.byOrderId[r.orderId])
    else None
  }

  function Upsert(b: Book, r: RemoteOrder): (b': Book)
    requires b.WellFormed()
    ensures b'.WellFormed() && (b.byLink.Listed() ==> b'.byLink.Listed())
  {
    match Existing(b, r)
    case None => Track(b, OrderOfRemote(r), Some(r.orderId))
    case Some(c) =>
      Rewrite(b, c, Overwritten(b.cells[c], r), Some(r.orderId)).(byLink := b.byLink.Put(r.linkId, c))
  }

  // Whether an index entry is an open order, of the given symbol when one is given.
  predicate Matches(b: Book, symbol: Option<string>, link: string)
    requires b.WellFormed()
  {
    b.OpenAt(link) && (symbol.Some? ==> b.At(link).symbol == symbol.value)
  }

  // The listed link ids among the first n index entries, in dict order.
  function OpenLinks(b: Book, symbol: Option<string>, n: nat): seq<string>
    requires b.Iterable() && n <= |b.byLink.keys|
  {
    if n == 0 then []
    else OpenLinks(b, symbol, n - 1) + if Matches(b, symbol, b.byLink.keys[n - 1]) then [b.byLink.keys[n - 1]] else []
  }

  lemma {:induction false} OpenLinksExact(b: Book, symbol: Option<string>, n: nat)
    requires b.Iterable() && n <= |b.byLink.keys|
    ensures forall k :: k in OpenLinks(b, symbol, n) <==> k in b.byLink.keys[..n] && Matches(b, symbol, k)
    ensures Distinct(OpenLinks(b, symbol, n))
  {
    if n > 0 {
      OpenLinksExact(b, symbol, n - 1);
      assert b.byLink.keys[..n] == b.byLink.keys[..n - 1] + [b.byLink.keys[n - 1]];
    }
  }

  // Every way the store changes.
  datatype BookEvent =
    | Registered(intent: Intent)
    | Acked(link: string, orderId: string, when: int)
    | Streamed(update: Update)
    | ClosedLocally(link: string, when: int)
    | Upserted(remote: RemoteOrder)

  function Apply(b: Book, e: BookEvent): (b': Book)
    requires b.WellFormed()
    ensures b'.WellFormed() && (b.byLink.Listed() ==> b'.byLink.Listed())
  {
    match e
    case Registered(i) => Register(b, i)
    case Acked(l, o, t) => Ack(b, l, o, t)
    case Streamed(u) => ApplyUpdate(b, u)
    case ClosedLocally(l, t) => Close(b, l, t)
    case Upserted(r) => Upsert(b, r)
  }

  function Replay(b: Book, events: seq<BookEvent>): (b': Book)
    requires b.WellFormed()
    ensures b'.WellFormed() && (b.byLink.Listed() ==> b'.byLink.Listed())
    decreases |events|
  {
    if events == [] then b else Replay(Apply(b, events[0]), events[1..])
  }

  // ---------------------------------------------------------------------------------------------
  // Structure kept by every event, whatever the exchange sends.

  // Every order reachable by order id is also reachable by link id.
  ghost predicate OrderIndexCovered(b: Book)
    requires b.WellFormed()
  {
    forall o | o in b.byOrderId :: exists k :: k in b.byLink.entries && b.byLink.entries[k] == b.byOrderId[o]
  }

  // No link id is forgotten or handed to another order object, and iteration order only grows.
  ghost predicate LinksGrow(b: Book, b': Book) {
    && b.byLink.keys <= b'.byLink.keys
    && (forall k | k in b.byLink.entries :: k in b'.byLink.entries && b'.byLink.entries[k] == b.byLink.entries[k])
  }

  lemma CoverageSurvives(b: Book, b': Book, orderId: Option<string>, link: string)
    requires b.WellFormed() && b'.WellFormed() && OrderIndexCovered(b) && LinksGrow(b, b')
    requires orderId.None? ==> b'.byOrderId == b.byOrderId
    requires orderId.Some? ==> link in b'.byLink.entries
                               && b'.byOrderId == b.byOrderId[orderId.value := b'.byLink.entries[link]]
    ensures OrderIndexCovered(b')
  {
    forall o | o in b'.byOrderId
      ensures exists k :: k in b'.byLink.entries && b'.byLink.entries[k] == b'.byOrderId[o]
    {
      if orderId == Some(o) {
        assert b'.byLink.entries[link] == b'.byOrderId[o];
      } else {
        var k :| k in b.byLink.entries && b.byLink.entries[k] == b.byOrderId[o];
        assert b'.byLink.entries[k] == b'.byOrderId[o];
      }
    }
  }

  lemma StreamedKeepsStructure(b: Book, u: Update)
    requires b.WellFormed() && OrderIndexCovered(b)
    ensures OrderIndexCovered(ApplyUpdate(b, u)) && LinksGrow(b, ApplyUpdate(b, u))
  {
    if Target(b, u).Some? {
      if u.orderId.Some? {
        var link :| link in b.byLink.entries && b.byLink.entries[link] == Target(b, u).value by {
          if u.orderId.value in b.byOrderId {
            assert exists k :: k in b.byLink.entries && b.byLink.entries[k] == b.byOrderId[u.orderId.value];
          } else {
            assert b.byLink.entries[u.linkId.value] == Target(b, u).value;
          }
        }
        CoverageSurvives(b, ApplyUpdate(b, u), u.orderId, link);
      } else {
        CoverageSurvives(b, ApplyUpdate(b, u), None, "");
      }
    }
  }

  lemma RegisteredKeepsStructure(b: Book, i: Intent)
    requires b.WellFormed() && OrderIndexCovered(b)
    ensures OrderIndexCovered(Register(b, i)) && LinksGrow(b, Register(b, i))
  {
    CoverageSurvives(b, Register(b, i), None, i.linkId);
  }

  lemma UpsertedKeepsStructure(b: Book, r: RemoteOrder)
    requires b.WellFormed() && OrderIndexCovered(b)
    ensures OrderIndexCovered(Upsert(b, r)) && LinksGrow(b, Upsert(b, r))
  {
    var b' := Upsert(b, r);
    assert LinksGrow(b, b');
    CoverageSurvives(b, b', Some(r.orderId), r.linkId);
  }

  lemma ApplyKeepsStructure(b: Book, e: BookEvent)
    requires b.WellFormed() && OrderIndexCovered(b)
    ensures OrderIndexCovered(Apply(b, e)) && LinksGrow(b, Apply(b, e))
  {
    match e
    case Registered(i) => RegisteredKeepsStructure(b, i);
    case Acked(l, o, t) =>
      if l in b.byLink.entries { CoverageSurvives(b, Ack(b, l, o, t), Some(o), l); }
    case Streamed(u) => StreamedKeepsStructure(b, u);
    case ClosedLocally(l, t) => CoverageSurvives(b, Close(b, l, t), None, l);
    case Upserted(r) => UpsertedKeepsStructure(b, r);
  }

  lemma {:induction false} ReplayKeepsStructure(b: Book, events: seq<BookEvent>)
    requires b.WellFormed() && OrderIndexCovered(b)
    ensures OrderIndexCovered(Replay(b, events)) && LinksGrow(b, Replay(b, events))
    decreases |events|
  {
    if events != [] {
      ApplyKeepsStructure(b, events[0]);
      ReplayKeepsStructure(Apply(b, events[0]), events[1..]);
    }
  }

  // ---------------------------------------------------------------------------------------------
  // Coherence: what holds when the exchange pairs link ids with order ids one to one.

  type Pairing = map<string, string>

  ghost predicate Injective(pairs: Pairing) {
    forall k, l {:trigger pairs[k], pairs[l]} | k in pairs && l in pairs && pairs[k] == pairs[l] :: k == l
  }

  ghost predicate Paired(pairs: Pairing, link: string, orderId: string) {
    link in pairs && pairs[link] == orderId
  }

  // The update's two ids, if it names both, are a pair. An empty link id is the exchange's "no client id".
  ghost predicate UpdatePaired(pairs: Pairing, u: Update) {
    u.orderId.Some? && u.linkId.Some? && u.linkId.value != "" ==> Paired(pairs, u.linkId.value, u.orderId.value)
  }

  // What the event binds, in the book as it is, agrees with the pairing; an event that binds nothing always does.
  ghost predicate Conforms(pairs: Pairing, b: Book, e: BookEvent)
    requires b.WellFormed()
  {
    match e
    case Registered(i) => i.linkId in b.byLink.entries || i.linkId != ""
    case Acked(l, o, _) => l in b.byLink.entries ==> Paired(pairs, l, o)
    case Streamed(u) =>
      Target(b, u).Some? && u.orderId.Some? ==> Paired(pairs, b.cells[Target(b, u).value].linkId, u.orderId.value)
    case ClosedLocally(_, _) => true
    case Upserted(r) => r.linkId != "" && Paired(pairs, r.linkId, r.orderId)
  }

  // Each index key is the corresponding field of the order it maps to, and each order is found under its own ids.
  ghost predicate Coherent(pairs: Pairing, b: Book) {
    && Injective(pairs)
    && b.WellFormed()
    && (forall k {:trigger LinkKeyed(b, k)} | k in b.byLink.entries :: LinkKeyed(b, k))
    && (forall o {:trigger OrderIdKeyed(b, o)} | o in b.byOrderId :: OrderIdKeyed(b, o))
    && (forall c {:trigger CellIndexed(pairs, b, c)} | 0 <= c < |b.cells| :: CellIndexed(pairs, b, c))
  }

  ghost predicate LinkKeyed(b: Book, k: string)
    requires b.WellFormed() && k in b.byLink.entries
  {
    k != "" && b.At(k).linkId == k
  }

  ghost predicate OrderIdKeyed(b: Book, o: string)
    requires b.WellFormed() && o in b.byOrderId
  {
    b.cells[b.byOrderId[o]].orderId == Some(o)
  }

  ghost predicate CellIndexed(pairs: Pairing, b: Book, c: nat)
    requires c < |b.cells|
  {
    var o := b.cells[c];
    && o.linkId in b.byLink.entries && b.byLink.entries[o.linkId] == c
    && (o.orderId.Some? ==> Paired(pairs, o.linkId, o.orderId.value))
  }

  lemma TrackKeepsCoherence(pairs: Pairing, b: Book, o: Order, orderId: Option<string>)
    requires Coherent(pairs, b) && o.linkId != "" && o.linkId !in b.byLink.entries
    requires o.orderId == orderId && (orderId.Some? ==> Paired(pairs, o.linkId, orderId.value))
    ensures Coherent(pairs, Track(b, o, orderId))
  {
    // By injectivity no tracked order carries the new order id, so no index entry is redirected.
    var b' := Track(b, o, orderId);
    forall k | k in b'.byLink.entries ensures LinkKeyed(b', k) {
      if k != o.linkId { assert LinkKeyed(b, k); }
    }
    forall i | i in b'.byOrderId ensures OrderIdKeyed(b', i) {
      if orderId != Some(i) { assert OrderIdKeyed(b, i); }
    }
    forall c | 0 <= c < |b'.cells| ensures CellIndexed(pairs, b', c) {
      if c < |b.cells| { assert CellIndexed(pairs, b, c); }
    }
  }

  lemma RewriteKeepsCoherence(pairs: Pairing, b: Book, c: nat, o: Order, orderId: Option<string>)
    requires Coherent(pairs, b) && c < |b.cells| && o.linkId == b.cells[c].linkId
    requires o.orderId == if orderId.Some? then orderId else b.cells[c].orderId
    requires orderId.Some? ==> Paired(pairs, o.linkId, orderId.value)
    ensures Coherent(pairs, Rewrite(b, c, o, orderId))
  {
    var b' := Rewrite(b, c, o, orderId);
    assert CellIndexed(pairs, b, c);
    forall k | k in b'.byLink.entries ensures LinkKeyed(b', k) { assert LinkKeyed(b, k); }
    forall i | i in b'.byOrderId ensures OrderIdKeyed(b', i) {
      if orderId != Some(i) { assert OrderIdKeyed(b, i); }
    }
    forall d | 0 <= d < |b'.cells| ensures CellIndexed(pairs, b', d) { assert CellIndexed(pairs, b, d); }
  }

  // The order a paired update addresses carries the link id paired with the update's order id.
  lemma TargetIsOwn(pairs: Pairing, b: Book, u: Update)
    requires Coherent(pairs, b) && UpdatePaired(pairs, u)
    ensures Conforms(pairs, b, Streamed(u))
  {
    if Target(b, u).Some? && u.orderId.Some? {
      if u.orderId.value in b.byOrderId {
        assert OrderIdKeyed(b, u.orderId.value);
        assert CellIndexed(pairs, b, b.byOrderId[u.orderId.value]);
      } else {
        assert LinkKeyed(b, u.linkId.value);
      }
    }
  }

  lemma ApplyKeepsCoherence(pairs: Pairing, b: Book, e: BookEvent)
    requires Coherent(pairs, b) && Conforms(pairs, b, e)
    ensures Coherent(pairs, Apply(b, e))
  {
    match e
    case Registered(i) =>
      if i.linkId !in b.byLink.entries { TrackKeepsCoherence(pairs, b, OrderOfIntent(i), None); }
    case Acked(l, o, t) =>
      if l in b.byLink.entries {
        assert LinkKeyed(b, l);
        RewriteKeepsCoherence(pairs, b, b.byLink.entries[l], b.At(l).(orderId := Some(o), updatedAt := t), Some(o));
      }
    case Streamed(u) =>
      if Target(b, u).Some? {
        var c := Target(b, u).value;
        RewriteKeepsCoherence(pairs, b, c, Updated(b.cells[c], u), u.orderId);
      }
    case ClosedLocally(l, t) =>
      if b.OpenAt(l) {
        RewriteKeepsCoherence(pairs, b, b.byLink.entries[l], Closed(b.At(l), t), None);
      }
    case Upserted(r) => UpsertByLink(pairs, b, r);
  }

  // An event keeps the book coherent exactly when what it binds agrees with the pairing.
  lemma CoherentIffConforms(pairs: Pairing, b: Book, e: BookEvent)
    requires Coherent(pairs, b)
    ensures Coherent(pairs, Apply(b, e)) <==> Conforms(pairs, b, e)
  {
    if Conforms(pairs, b, e) {
      ApplyKeepsCoherence(pairs, b, e);
    } else if Coherent(pairs, Apply(b, e)) {
      CoherentMeansConforming(pairs, b, e);
    }
  }

  lemma CoherentMeansConforming(pairs: Pairing, b: Book, e: BookEvent)
    requires Coherent(pairs, b) && Coherent(pairs, Apply(b, e))
    ensures Conforms(pairs, b, e)
  {
    var b' := Apply(b, e);
    match e
    case Registered(i) =>
      if i.linkId !in b.byLink.entries { assert LinkKeyed(b', i.linkId); }
    case Acked(l, o, t) =>
      if l in b.byLink.entries {
        assert LinkKeyed(b, l);
        assert CellIndexed(pairs, b', b.byLink.entries[l]);
      }
    case Streamed(u) =>
      if Target(b, u).Some? { assert CellIndexed(pairs, b', Target(b, u).value); }
    case ClosedLocally(_, _) =>
    case Upserted(r) =>
      assert LinkKeyed(b', r.linkId) && CellIndexed(pairs, b', b'.byLink.entries[r.linkId]);
  }

  lemma OwnerOfOrderId(pairs: Pairing, b: Book, r: RemoteOrder)
    requires Coherent(pairs, b) && Paired(pairs, r.linkId, r.orderId) && r.orderId in b.byOrderId
    ensures r.linkId in b.byLink.entries
  {
    assert OrderIdKeyed(b, r.orderId);
    assert CellIndexed(pairs, b, b.byOrderId[r.orderId]);
  }

  // On a coherent book a conforming snapshot order never meets a foreign order through its order id.
  lemma UpsertByLink(pairs: Pairing, b: Book, r: RemoteOrder)
    requires Coherent(pairs, b) && Conforms(pairs, b, Upserted(r))
    ensures Coherent(pairs, Upsert(b, r))
    ensures r.linkId !in b.byLink.entries ==> r.orderId !in b.byOrderId
  {
    if r.linkId in b.byLink.entries {
      var c := b.byLink.entries[r.linkId];
      assert LinkKeyed(b, r.linkId);
      assert b.byLink.entries[r.linkId := c] == b.byLink.entries;
      RewriteKeepsCoherence(pairs, b, c, Overwritten(b.cells[c], r), Some(r.orderId));
    } else {
      if r.orderId in b.byOrderId { OwnerOfOrderId(pairs, b, r); }
      TrackKeepsCoherence(pairs, b, OrderOfRemote(r), Some(r.orderId));
    }
  }

  // Each event of a replay, met by the book as it then is, agrees with the pairing.
  ghost predicate AllConform(pairs: Pairing, b: Book, events: seq<BookEvent>)
    requires b.WellFormed()
    decreases |events|
  {
    events != [] ==> Conforms(pairs, b, events[0]) && AllConform(pairs, Apply(b, events[0]), events[1..])
  }

  // The book is coherent after every prefix of a run exactly when every event of it conforms.
  lemma {:induction false} ReplayKeepsCoherence(pairs: Pairing, b: Book, events: seq<BookEvent>)
    requires Coherent(pairs, b)
    ensures AllConform(pairs, b, events) ==> Coherent(pairs, Replay(b, events))
    ensures AllConform(pairs, b, events)
       <==> forall n | 0 <= n <= |events| :: Coherent(pairs, Replay(b, events[..n]))
    decreases |events|
  {
    if events != [] {
      var b1, rest := Apply(b, events[0]), events[1..];
      CoherentIffConforms(pairs, b, events[0]);
      if Conforms(pairs, b, events[0]) { ReplayKeepsCoherence(pairs, b1, rest); }
      forall n | 0 <= n <= |rest| ensures Replay(b, events[..n + 1]) == Replay(b1, rest[..n]) {
        ReplayPrefix(b, events, n);
      }
      assert Replay(b, events[..1]) == Replay(b1, rest[..0]) == b1;
      forall n | 1 <= n <= |events| ensures Replay(b, events[..n]) == Replay(b1, rest[..n - 1]) {
        ReplayPrefix(b, events, n - 1);
      }
      assert Replay(b, events[..0]) == b;
      if !AllConform(pairs, b, events) && Conforms(pairs, b, events[0]) {
        var n :| 0 <= n <= |rest| && !Coherent(pairs, Replay(b1, rest[..n]));
        assert !Coherent(pairs, Replay(b, events[..n + 1]));
      }
    }
  }

  lemma ReplayPrefix(b: Book, events: seq<BookEvent>, n: nat)
    requires b.WellFormed() && n < |events|
    ensures Replay(b, events[..n + 1]) == Replay(Apply(b, events[0]), events[1..][..n])
  {
    assert events[..n + 1][1..] == events[1..][..n];
  }

  // ---------------------------------------------------------------------------------------------
  // Keyed indexes: what an index key says of the order it maps to, with no pairing in the background.

  // Each key of either index is the corresponding field of its order, and each order is found under its own link id.
  ghost predicate Keyed(b: Book) {
    && b.WellFormed()
    && (forall k {:trigger LinkNames(b, k)} | k in b.byLink.entries :: LinkNames(b, k))
    && (forall o {:trigger OrderIdKeyed(b, o)} | o in b.byOrderId :: OrderIdKeyed(b, o))
    && (forall c {:trigger FoundByLink(b, c)} | 0 <= c < |b.cells| :: FoundByLink(b, c))
  }

  ghost predicate LinkNames(b: Book, k: string)
    requires b.WellFormed() && k in b.byLink.entries
  {
    b.At(k).linkId == k
  }

  ghost predicate FoundByLink(b: Book, c: nat)
    requires c < |b.cells|
  {
    b.cells[c].linkId in b.byLink.entries && b.byLink.entries[b.cells[c].linkId] == c
  }

  // No order id but this one leads to the order.
  ghost predicate OnlyKey(b: Book, c: nat, orderId: string) {
    forall o | o in b.byOrderId && b.byOrderId[o] == c :: o == orderId
  }

  // An event that gives an order an order id finds it under no other one, and one that brings a new link id finds its
  // order id unknown.
  ghost predicate Separate(b: Book, e: BookEvent)
    requires b.WellFormed()
  {
    match e
    case Registered(_) => true
    case Acked(l, o, _) => l in b.byLink.entries ==> OnlyKey(b, b.byLink.entries[l], o)
    case Streamed(u) =>
      Target(b, u).Some? && u.orderId.Some? ==> OnlyKey(b, Target(b, u).value, u.orderId.value)
    case ClosedLocally(_, _) => true
    case Upserted(r) =>
      if r.linkId in b.byLink.entries then OnlyKey(b, b.byLink.entries[r.linkId], r.orderId)
      else r.orderId !in b.byOrderId
  }

  // Rewriting an order under its own link id, with the order id it is now bound to.
  lemma RewriteKeyedIff(b: Book, c: nat, o: Order, orderId: Option<string>)
    requires Keyed(b) && c < |b.cells| && o.linkId == b.cells[c].linkId
    requires o.orderId == if orderId.Some? then orderId else b.cells[c].orderId
    ensures Keyed(Rewrite(b, c, o, orderId)) <==> (orderId.Some? ==> OnlyKey(b, c, orderId.value))
  {
    var b' := Rewrite(b, c, o, orderId);
    assert FoundByLink(b, c);
    forall k | k in b'.byLink.entries ensures LinkNames(b', k) { assert LinkNames(b, k); }
    forall d | 0 <= d < |b'.cells| ensures FoundByLink(b', d) { assert FoundByLink(b, d); }
    if orderId.Some? ==> OnlyKey(b, c, orderId.value) {
      forall i | i in b'.byOrderId ensures OrderIdKeyed(b', i) {
        if orderId != Some(i) { assert OrderIdKeyed(b, i); }
      }
    } else {
      var i :| i in b.byOrderId && b.byOrderId[i] == c && i != orderId.value;
      assert !OrderIdKeyed(b', i);
    }
  }

  lemma TrackKeepsKeyed(b: Book, o: Order, orderId: Option<string>)
    requires Keyed(b) && o.linkId !in b.byLink.entries && o.orderId == orderId
    requires orderId.Some? ==> orderId.value !in b.byOrderId
    ensures Keyed(Track(b, o, orderId))
  {
    var b' := Track(b, o, orderId);
    forall k | k in b'.byLink.entries ensures LinkNames(b', k) {
      if k != o.linkId { assert LinkNames(b, k); }
    }
    forall i | i in b'.byOrderId ensures OrderIdKeyed(b', i) {
      if orderId != Some(i) { assert OrderIdKeyed(b, i); }
    }
    forall c | 0 <= c < |b'.cells| ensures FoundByLink(b', c) {
      if c < |b.cells| { assert FoundByLink(b, c); }
    }
  }

  lemma UpsertKeyedIff(b: Book, r: RemoteOrder)
    requires Keyed(b)
    ensures Keyed(Upsert(b, r)) <==> Separate(b, Upserted(r))
  {
    if r.linkId in b.byLink.entries {
      var c := b.byLink.entries[r.linkId];
      assert LinkNames(b, r.linkId) && b.byLink.entries[r.linkId := c] == b.byLink.entries;
      RewriteKeyedIff(b, c, Overwritten(b.cells[c], r), Some(r.orderId));
    } else if r.orderId in b.byOrderId {
      // The order found by order id takes the new link id, and its old one leads to an order of another name.
      var c := b.byOrderId[r.orderId];
      assert FoundByLink(b, c);
      assert !LinkNames(Upsert(b, r), b.cells[c].linkId);
    } else {
      TrackKeepsKeyed(b, OrderOfRemote(r), Some(r.orderId));
    }
  }

  // An event keeps the indexes keyed exactly when it is separate, which is plain before it happens.
  lemma KeyedIffSeparate(b: Book, e: BookEvent)
    requires Keyed(b)
    ensures Keyed(Apply(b, e)) <==> Separate(b, e)
  {
    match e
    case Registered(i) =>
      if i.linkId !in b.byLink.entries { TrackKeepsKeyed(b, OrderOfIntent(i), None); }
    case Acked(l, o, t) =>
      if l in b.byLink.entries {
        RewriteKeyedIff(b, b.byLink.entries[l], b.At(l).(orderId := Some(o), updatedAt := t), Some(o));
      }
    case Streamed(u) =>
      if Target(b, u).Some? {
        RewriteKeyedIff(b, Target(b, u).value, Updated(b.cells[Target(b, u).value], u), u.orderId);
      }
    case ClosedLocally(l, t) =>
      if b.OpenAt(l) { RewriteKeyedIff(b, b.byLink.entries[l], Closed(b.At(l), t), None); }
    case Upserted(r) => UpsertKeyedIff(b, r);
  }

  ghost predicate AllSeparate(b: Book, events: seq<BookEvent>)
    requires b.WellFormed()
    decreases |events|
  {
    events != [] ==> Separate(b, events[0]) && AllSeparate(Apply(b, events[0]), events[1..])
  }

  // The indexes are keyed after every prefix of a run exactly when every event of it is separate as it happens.
  lemma {:induction false} ReplayKeyedIff(b: Book, events: seq<BookEvent>)
    requires Keyed(b)
    ensures AllSeparate(b, events) <==> forall n | 0 <= n <= |events| :: Keyed(Replay(b, events[..n]))
    decreases |events|
  {
    if events != [] {
      var b1, rest := Apply(b, events[0]), events[1..];
      KeyedIffSeparate(b, events[0]);
      if Separate(b, events[0]) { ReplayKeyedIff(b1, rest); }
      assert Replay(b, events[..1]) == b1 by { ReplayPrefix(b, events, 0); }
      forall n | 1 <= n <= |events| ensures Replay(b, events[..n]) == Replay(b1, rest[..n - 1]) {
        ReplayPrefix(b, events, n - 1);
      }
      assert Replay(b, events[..0]) == b;
      if !AllSeparate(b, events) && Separate(b, events[0]) {
        var n :| 0 <= n <= |rest| && !Keyed(Replay(b1, rest[..n]));
        assert Replay(b, events[..n + 1]) == Replay(b1, rest[..n]);
      }
    }
  }

  // Ids that pair up one to one suffice.
  lemma CoherentIsKeyed(pairs: Pairing, b: Book)
    requires Coherent(pairs, b)
    ensures Keyed(b)
  {
    forall k | k in b.byLink.entries ensures LinkNames(b, k) { assert LinkKeyed(b, k); }
    forall c | 0 <= c < |b.cells| ensures FoundByLink(b, c) { assert CellIndexed(pairs, b, c); }
  }

  lemma ConformingIsSeparate(pairs: Pairing, b: Book, e: BookEvent)
    requires Coherent(pairs, b) && Conforms(pairs, b, e)
    ensures Separate(b, e)
  {
    ApplyKeepsCoherence(pairs, b, e);
    CoherentIsKeyed(pairs, b);
    CoherentIsKeyed(pairs, Apply(b, e));
    KeyedIffSeparate(b, e);
  }

  // Without a one-to-one pairing keyed indexes are lost: two snapshot orders sharing an order id under different
  // link ids leave the first link id pointing at an order that now names the second.
  lemma SharedOrderIdBreaksCoherence(r: RemoteOrder, link: string)
    requires link != r.linkId
    ensures var b := Replay(EmptyBook, [Upserted(r), Upserted(r.(linkId := link))]);
            && b.byLink.entries == map[r.linkId := 0, link := 0] && b.At(r.linkId).linkId == link
            && !Keyed(b)
  {
    var r2 := r.(linkId := link);
    var b1 := Upsert(EmptyBook, r);
    assert b1.byLink.entries == map[r.linkId := 0];
    assert [Upserted(r), Upserted(r2)][1..] == [Upserted(r2)];
    assert Replay(b1, [Upserted(r2)]) == Upsert(b1, r2);
    assert !LinkNames(Upsert(b1, r2), r.linkId);
  }
}
