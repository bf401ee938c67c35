// What the store says of one order, told by the events that name it: the reference the store's operations are held
// against, field by field.
module OrderHistory {
  import opened Common
  import opened OrderBook
  import opened ReconcileReports
  import opened Reconciliation

  // What an event makes of the order under link id k, None while it is untracked. Only events naming k matter.
  function Told(o: Option<Order>, e: BookEvent, k: string): Option<Order> {
    match e
    case Registered(i) =>
      if o.Some? || i.linkId != k then o
      else
        var noted := if i.purpose == Entry && "entry_side" !in i.metadata then
                       i.metadata["entry_side" := if i.side == Buy then "Buy" else "Sell"]
                     else i.metadata;
        Some(Order(None, k, i.symbol, New, i.qty, 0.0, None, i.reduceOnly, i.createdAt, i.createdAt, noted))
    case Acked(l, id, t) => if o.None? || l != k then o else Some(o.value.(orderId := Some(id), updatedAt := t))
    case Streamed(u) =>
      if o.None? || u.linkId != Some(k) then o
      else
        var was := o.value;
        var status := if u.status == None then was.status else u.status.value;
        var filled := if u.filledQty == None then was.filledQty else u.filledQty.value;
        var price := if u.avgPrice == None then was.avgPrice else u.avgPrice;
        var id := if u.orderId == None then was.orderId else u.orderId;
        Some(Order(id, k, was.symbol, status, was.qty, filled, price, was.reduceOnly, was.createdAt, u.updatedAt,
                   was.metadata))
    case ClosedLocally(l, t) =>
      if o.None? || l != k || (o.value.status != New && o.value.status != PartiallyFilled) then o
      else
        var was := o.value;
        Some(Order(was.orderId, k, was.symbol, Cancelled, was.qty, was.filledQty, was.avgPrice, was.reduceOnly,
                   was.createdAt, t, was.metadata["reconcile_terminal_reason" := "closed_missing_on_exchange"]))
    case Upserted(r) =>
      if r.linkId != k then o
      else
        Some(Order(Some(r.orderId), k, r.symbol, r.status, r.qty, r.filledQty, Some(r.price), r.reduceOnly,
                   if o.Some? then o.value.createdAt else r.updatedTime, r.updatedTime,
                   if o.Some? then o.value.metadata else map["source" := "reconciler_snapshot"]))
  }

  function Life(o: Option<Order>, events: seq<BookEvent>, k: string): Option<Order> {
    if events == [] then o else Told(Life(o, events[..|events| - 1], k), events[|events| - 1], k)
  }

  // The event names an order by its link id, and whatever order id it brings is the one paired with that.
  ghost predicate Named(pairs: Pairing, e: BookEvent) {
    match e
    case Registered(i) => i.linkId != ""
    case Acked(l, id, _) => l == "" || Paired(pairs, l, id)
    case Streamed(u) => u.linkId.Some? && u.linkId.value != "" && UpdatePaired(pairs, u)
    case ClosedLocally(_, _) => true
    case Upserted(r) => r.linkId != "" && Paired(pairs, r.linkId, r.orderId)
  }

  ghost function Found(b: Book, k: string): Option<Order>
    requires b.WellFormed()
  {
    if k in b.byLink.entries then Some(b.At(k)) else None
  }

  // ---------------------------------------------------------------------------------------------
  // A stream update.

  // The update reaches the order under a link id it names, or whose order id it names and the index knows.
  ghost predicate Reaches(b: Book, u: Update, k: string)
    requires b.WellFormed() && k in b.byLink.entries
  {
    u.linkId == Some(k) || (u.orderId.Some? && u.orderId.value in b.byOrderId && b.At(k).orderId == u.orderId)
  }

  lemma ReachedIsTarget(pairs: Pairing, b: Book, u: Update, k: string)
    requires Coherent(pairs, b) && UpdatePaired(pairs, u) && k in b.byLink.entries && Reaches(b, u, k)
    ensures Target(b, u) == Some(b.byLink.entries[k])
  {
    assert LinkKeyed(b, k);
    assert CellIndexed(pairs, b, b.byLink.entries[k]);
    if u.orderId.Some? && u.orderId.value in b.byOrderId {
      assert OrderIdKeyed(b, u.orderId.value);
      assert CellIndexed(pairs, b, b.byOrderId[u.orderId.value]);
    }
  }

  // An update that reaches an order sets what it gives and nothing else: status, filled quantity and average price are
  // the update's when it has them and the old ones otherwise; no other order changes.
  lemma UpdateSetsWhatItGives(pairs: Pairing, b: Book, u: Update, k: string)
    requires Coherent(pairs, b) && UpdatePaired(pairs, u) && k in b.byLink.entries && Reaches(b, u, k)
    ensures var t, t' := Tracked(b), Tracked(ApplyUpdate(b, u));
            && t'.Keys == t.Keys && (forall l | l in t && l != k :: t'[l] == t[l])
            && t'[k].status == (if u.status.Some? then u.status.value else t[k].status)
            && t'[k].filledQty == (if u.filledQty.Some? then u.filledQty.value else t[k].filledQty)
            && t'[k].avgPrice == (if u.avgPrice.Some? then u.avgPrice else t[k].avgPrice)
            && t'[k].orderId == (if u.orderId.Some? then u.orderId else t[k].orderId)
            && t'[k].updatedAt == u.updatedAt
            && t'[k].linkId == k && t'[k].symbol == t[k].symbol && t'[k].qty == t[k].qty
            && t'[k].reduceOnly == t[k].reduceOnly && t'[k].createdAt == t[k].createdAt
            && t'[k].metadata == t[k].metadata
  {
    ReachedIsTarget(pairs, b, u, k);
    assert LinkKeyed(b, k);
    TrackedAfterRewrite(pairs, b, k, Updated(b.At(k), u), u.orderId);
  }

  // The update lands in the given cell and in no other, and the order id it brings then leads there.
  ghost predicate LandsIn(b: Book, b': Book, u: Update, c: nat)
    requires c < |b.cells|
  {
    && |b'.cells| == |b.cells| && b'.cells[c].updatedAt == u.updatedAt
    && (forall d | 0 <= d < |b.cells| && d != c :: b'.cells[d] == b.cells[d])
    && b'.byLink == b.byLink
    && b'.byOrderId == if u.orderId.Some? then b.byOrderId[u.orderId.value := c] else b.byOrderId
  }

  // On any store, coherent or not: the order id decides when the index knows it, and the link id otherwise.
  lemma OrderIdComesFirst(b: Book, u: Update)
    requires b.WellFormed()
    ensures u.orderId.Some? && u.orderId.value in b.byOrderId ==>
              LandsIn(b, ApplyUpdate(b, u), u, b.byOrderId[u.orderId.value])
    ensures (u.orderId.Some? ==> u.orderId.value !in b.byOrderId)
            && u.linkId.Some? && u.linkId.value in b.byLink.entries ==>
              LandsIn(b, ApplyUpdate(b, u), u, b.byLink.entries[u.linkId.value])
  {
  }

  // An update that names neither a tracked link id nor an indexed order id changes nothing.
  lemma StrayUpdateChangesNothing(b: Book, u: Update)
    requires b.WellFormed()
    requires u.linkId.Some? ==> u.linkId.value !in b.byLink.entries
    requires u.orderId.Some? ==> u.orderId.value !in b.byOrderId
    ensures ApplyUpdate(b, u) == b
  {
  }

  // A terminal status takes the order off the open ones, New and PartiallyFilled put it there; other orders stay.
  lemma UpdateMovesOpenLinks(pairs: Pairing, b: Book, u: Update, k: string)
    requires b.Iterable() && Coherent(pairs, b) && UpdatePaired(pairs, u) && k in b.byLink.entries && Reaches(b, u, k)
    requires u.status.Some?
    ensures var open := OpenLinks(b, None, |b.byLink.keys|);
            var open' := OpenLinks(ApplyUpdate(b, u), None, |b.byLink.keys|);
            && (forall l | l != k :: l in open' <==> l in open)
            && (k in open' <==> u.status.value == New || u.status.value == PartiallyFilled)
  {
    ReachedIsTarget(pairs, b, u, k);
    UpdateSetsWhatItGives(pairs, b, u, k);
    OpenAreListed(b);
    OpenAreListed(ApplyUpdate(b, u));
  }

  // ---------------------------------------------------------------------------------------------
  // Every event, and whole runs.

  lemma RewrittenIsFound(pairs: Pairing, b: Book, l: string, o: Order, orderId: Option<string>, k: string)
    requires Coherent(pairs, b) && l in b.byLink.entries
    ensures Found(Rewrite(b, b.byLink.entries[l], o, orderId), k) == if k == l then Some(o) else Found(b, k)
  {
    assert LinkKeyed(b, l);
    if k in b.byLink.entries { assert LinkKeyed(b, k); }
  }

  lemma KnownByBothIds(pairs: Pairing, b: Book, link: string, orderId: string)
    requires Coherent(pairs, b) && Paired(pairs, link, orderId) && orderId in b.byOrderId
    ensures link in b.byLink.entries
  {
    assert OrderIdKeyed(b, orderId);
    assert CellIndexed(pairs, b, b.byOrderId[orderId]);
  }

  lemma StreamedIsTold(pairs: Pairing, b: Book, u: Update, k: string)
    requires Coherent(pairs, b) && Named(pairs, Streamed(u))
    ensures Found(ApplyUpdate(b, u), k) == Told(Found(b, k), Streamed(u), k)
  {
    var l := u.linkId.value;
    if u.orderId.Some? && u.orderId.value in b.byOrderId { KnownByBothIds(pairs, b, l, u.orderId.value); }
    if l in b.byLink.entries {
      ReachedIsTarget(pairs, b, u, l);
      assert LinkKeyed(b, l);
      RewrittenIsFound(pairs, b, l, Updated(b.At(l), u), u.orderId, k);
    } else {
      StrayUpdateChangesNothing(b, u);
    }
  }

  // On a coherent store an event changes the order it names, to what it tells of it, and no other.
  lemma AppliedIsTold(pairs: Pairing, b: Book, e: BookEvent, k: string)
    requires Coherent(pairs, b) && Named(pairs, e)
    ensures Coherent(pairs, Apply(b, e)) && Found(Apply(b, e), k) == Told(Found(b, k), e, k)
  {
    if e.Streamed? { TargetIsOwn(pairs, b, e.update); }
    if e.Acked? && e.link in b.byLink.entries { assert LinkKeyed(b, e.link); }
    ApplyKeepsCoherence(pairs, b, e);
    match e
    case Registered(i) =>
    case Acked(l, id, t) =>
      if l in b.byLink.entries {
        RewrittenIsFound(pairs, b, l, b.At(l).(orderId := Some(id), updatedAt := t), Some(id), k);
      }
    case Streamed(u) => StreamedIsTold(pairs, b, u, k);
    case ClosedLocally(l, t) =>
      if b.OpenAt(l) {
        assert LinkKeyed(b, l);
        RewrittenIsFound(pairs, b, l, Closed(b.At(l), t), None, k);
      }
    case Upserted(r) =>
      UpsertByLink(pairs, b, r);
      if r.linkId in b.byLink.entries {
        var c := b.byLink.entries[r.linkId];
        assert b.byLink.Put(r.linkId, c) == b.byLink;
        RewrittenIsFound(pairs, b, r.linkId, Overwritten(b.cells[c], r), Some(r.orderId), k);
      }
  }

  // Over any run of events that name their orders, each order tracked is what the events naming it tell, whatever the
  // other orders go through.
  lemma {:induction false} ReplayIsLife(pairs: Pairing, b: Book, events: seq<BookEvent>, k: string)
    requires Coherent(pairs, b) && forall e | e in events :: Named(pairs, e)
    ensures Coherent(pairs, Replay(b, events)) && Found(Replay(b, events), k) == Life(Found(b, k), events, k)
  {
    if events != [] {
      var before, e := events[..|events| - 1], events[|events| - 1];
      ReplayIsLife(pairs, b, before, k);
      ReplayLast(b, events);
      AppliedIsTold(pairs, Replay(b, before), e, k);
    }
  }

  lemma {:induction false} ReplayLast(b: Book, events: seq<BookEvent>)
    requires b.WellFormed() && events != []
    ensures Replay(b, events) == Apply(Replay(b, events[..|events| - 1]), events[|events| - 1])
    decreases |events|
  {
    if |events| > 1 {
      ReplayLast(Apply(b, events[0]), events[1..]);
      assert events[1..][..|events| - 2] == events[..|events| - 1][1..];
    } else {
      assert events[1..] == [];
    }
  }

  // The last value given, or the one from before.
  function Last<T>(before: T, given: seq<Option<T>>): T {
    if given == [] then before
    else if given[|given| - 1].Some? then given[|given| - 1].value else Last(before, given[..|given| - 1])
  }

  // What the updates naming an order give for one of its fields, in order.
  function GivenBy<T>(us: seq<Update>, k: string, field: Update -> Option<T>): (r: seq<Option<T>>)
    ensures |r| == |us| && forall i | 0 <= i < |us| :: r[i] == if us[i].linkId == Some(k) then field(us[i]) else None
  {
    seq(|us|, i requires 0 <= i < |us| => if us[i].linkId == Some(k) then field(us[i]) else None)
  }

  function AsEvents(us: seq<Update>): (r: seq<BookEvent>)
    ensures |r| == |us| && forall i | 0 <= i < |us| :: r[i] == Streamed(us[i])
  {
    seq(|us|, i requires 0 <= i < |us| => Streamed(us[i]))
  }

  function StatusGiven(u: Update): Option<OrderStatus> { u.status }

  function FillGiven(u: Update): Option<real> { u.filledQty }

  function PriceGiven(u: Update): Option<Option<real>> { if u.avgPrice.Some? then Some(u.avgPrice) else None }

  function IdGiven(u: Update): Option<Option<string>> { if u.orderId.Some? then Some(u.orderId) else None }

  lemma GivenOneMore<T>(before: T, us: seq<Update>, k: string, field: Update -> Option<T>)
    requires us != []
    ensures var u, was := us[|us| - 1], Last(before, GivenBy(us[..|us| - 1], k, field));
            Last(before, GivenBy(us, k, field))
            == if u.linkId == Some(k) && field(u).Some? then field(u).value else was
  {
    assert GivenBy(us, k, field)[..|us| - 1] == GivenBy(us[..|us| - 1], k, field);
  }

  // After any stream of updates the fields that updates carry are the last values given for them, nulls skipped, and
  // the other fields are as they were.
  lemma {:induction false} FieldsAreLastValues(o: Order, us: seq<Update>, k: string)
    requires o.linkId == k
    ensures var o' := Life(Some(o), AsEvents(us), k);
            && o'.Some?
            && o'.value == o.(status := Last(o.status, GivenBy(us, k, StatusGiven)),
                              filledQty := Last(o.filledQty, GivenBy(us, k, FillGiven)),
                              avgPrice := Last(o.avgPrice, GivenBy(us, k, PriceGiven)),
                              orderId := Last(o.orderId, GivenBy(us, k, IdGiven)),
                              updatedAt := o'.value.updatedAt)
  {
    if us != [] {
      FieldsAreLastValues(o, us[..|us| - 1], k);
      assert AsEvents(us)[..|us| - 1] == AsEvents(us[..|us| - 1]);
      GivenOneMore(o.status, us, k, StatusGiven);
      GivenOneMore(o.filledQty, us, k, FillGiven);
      GivenOneMore(o.avgPrice, us, k, PriceGiven);
      GivenOneMore(o.orderId, us, k, IdGiven);
    }
  }

  // The same of the store: on a coherent one, after any stream of updates that name their orders.
  lemma StreamLeavesLastValues(pairs: Pairing, b: Book, us: seq<Update>, k: string)
    requires Coherent(pairs, b) && k in b.byLink.entries
    requires forall u | u in us :: u.linkId.Some? && u.linkId.value != "" && UpdatePaired(pairs, u)
    ensures var b' := Replay(b, AsEvents(us));
            && k in b'.byLink.entries
            && b'.At(k).status == Last(b.At(k).status, GivenBy(us, k, StatusGiven))
            && b'.At(k).filledQty == Last(b.At(k).filledQty, GivenBy(us, k, FillGiven))
            && b'.At(k).avgPrice == Last(b.At(k).avgPrice, GivenBy(us, k, PriceGiven))
            && b'.At(k).symbol == b.At(k).symbol && b'.At(k).qty == b.At(k).qty
            && b'.At(k).reduceOnly == b.At(k).reduceOnly && b'.At(k).metadata == b.At(k).metadata
  {
    assert LinkKeyed(b, k);
    ReplayIsLife(pairs, b, AsEvents(us), k);
    FieldsAreLastValues(b.At(k), us, k);
  }
}
