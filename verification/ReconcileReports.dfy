// What the two reports of a reconcile cycle say, written out per link id and per position.
module ReconcileReports {
  import opened Common
  import opened OrderBook
  import opened Reconciliation

  // Of several snapshot orders with one link id the last counts.
  lemma {:induction false} SnapshotTakesLast(remotes: seq<RemoteOrder>, n: nat)
    requires n < |remotes| && remotes[n].linkId != ""
    requires forall m | n < m < |remotes| :: remotes[m].linkId != remotes[n].linkId
    ensures ExchangeDict(remotes).Get(remotes[n].linkId) == Some(remotes[n])
  {
    var rest := remotes[..|remotes| - 1];
    if n < |rest| {
      assert remotes[|rest|].linkId != remotes[n].linkId;
      SnapshotTakesLast(rest, n);
    }
  }

  // The issue is owed for its link id, given the orders tracked and the snapshot's orders by link id.
  ghost predicate Due(t: Table, exchange: Dict<RemoteOrder>, i: Issue) {
    && i.linkId.Some? && i.positionSize == None && i.positionSide == None
    && var k := i.linkId.value;
       var open := k in t && (t[k].status == New || t[k].status == PartiallyFilled);
       match i.kind
       case MissingOnExchange =>
         && open && k !in exchange.entries
         && i.symbol == t[k].symbol && i.orderId == t[k].orderId && i.reduceOnly == None && i.qty == None
       case QtyMismatch =>
         && open && k in exchange.entries && t[k].qty != exchange.entries[k].qty
         && i.symbol == t[k].symbol && Quotes(i, exchange.entries[k])
       case MissingLocally =>
         !open && k in exchange.entries && i.symbol == exchange.entries[k].symbol && Quotes(i, exchange.entries[k])
       case MissingReduceOnlyExit => false
  }

  // The issue carries the snapshot order's id, quantity and reduce-only flag.
  ghost predicate Quotes(i: Issue, r: RemoteOrder) {
    i.orderId == Some(r.orderId) && i.qty == Some(r.qty) && i.reduceOnly == Some(r.reduceOnly)
  }

  ghost predicate OncePerLink(issues: seq<Issue>) {
    forall m, n | 0 <= m < n < |issues| :: issues[m].linkId != issues[n].linkId
  }

  // The issues are those due for the given links, of untracked orders or of tracked ones, one per link at most.
  ghost predicate Reports(
    t: Table, exchange: Dict<RemoteOrder>, untracked: bool, links: seq<string>, issues: seq<Issue>)
  {
    && (forall i :: i in issues <==> DueAmong(t, exchange, untracked, links, i))
    && OncePerLink(issues)
  }

  ghost predicate DueAmong(t: Table, exchange: Dict<RemoteOrder>, untracked: bool, links: seq<string>, i: Issue) {
    Due(t, exchange, i) && (i.kind == MissingLocally) == untracked && i.linkId.value in links
  }

  lemma ReportsOneMore(
    t: Table, exchange: Dict<RemoteOrder>, untracked: bool, links: seq<string>, link: string, issues: seq<Issue>,
    found: seq<Issue>)
    requires Reports(t, exchange, untracked, links, issues) && link !in links && |found| <= 1
    requires forall i :: i in found <==> DueAmong(t, exchange, untracked, [link], i)
    ensures Reports(t, exchange, untracked, links + [link], issues + found)
  {
    forall i ensures i in issues + found <==> DueAmong(t, exchange, untracked, links + [link], i) {
      assert DueAmong(t, exchange, untracked, links + [link], i)
        <==> DueAmong(t, exchange, untracked, links, i) || DueAmong(t, exchange, untracked, [link], i);
    }
    forall m | 0 <= m < |issues| && found != [] ensures issues[m].linkId != found[0].linkId {
      assert issues[m] in issues && found[0] in found;
    }
  }

  lemma {:induction false} LocalReport(t: Table, exchange: Dict<RemoteOrder>, links: seq<string>)
    requires Distinct(links) && forall k | k in links :: k in t && OpenIn(t, k)
    ensures Reports(t, exchange, false, links, LocalDifference(t, exchange, links))
  {
    if links != [] {
      var rest, link := links[..|links| - 1], links[|links| - 1];
      assert links == rest + [link];
      LocalReport(t, exchange, rest);
      var found := match exchange.Get(link)
                   case None => [GoneFromExchange(t[link], link)]
                   case Some(r) => if t[link].qty != r.qty then [WrongQty(t[link], link, r)] else [];
      ReportsOneMore(t, exchange, false, rest, link, LocalDifference(t, exchange, rest), found);
    }
  }

  lemma {:induction false} RemoteReport(t: Table, exchange: Dict<RemoteOrder>, links: seq<string>)
    requires Distinct(links) && forall k | k in links :: k in exchange.entries
    ensures Reports(t, exchange, true, links, RemoteDifference(t, exchange, links))
  {
    if links != [] {
      var rest, link := links[..|links| - 1], links[|links| - 1];
      assert links == rest + [link];
      RemoteReport(t, exchange, rest);
      var found := if OpenIn(t, link) then [] else [Untracked(link, exchange.entries[link])];
      ReportsOneMore(t, exchange, true, rest, link, RemoteDifference(t, exchange, rest), found);
    }
  }

  lemma ReportsJoin(
    t: Table, exchange: Dict<RemoteOrder>, ours: seq<string>, theirs: seq<string>, a: seq<Issue>, b: seq<Issue>)
    requires Reports(t, exchange, false, ours, a) && Reports(t, exchange, true, theirs, b)
    requires (forall k :: k in ours <==> OpenIn(t, k)) && (forall k :: k in theirs <==> k in exchange.entries)
    ensures (forall i :: i in a + b <==> Due(t, exchange, i)) && OncePerLink(a + b)
  {
    forall i ensures i in a + b <==> Due(t, exchange, i) {
      assert Due(t, exchange, i)
        <==> DueAmong(t, exchange, false, ours, i) || DueAmong(t, exchange, true, theirs, i);
    }
    forall m, n | 0 <= m < |a| && 0 <= n < |b| ensures a[m].linkId != b[n].linkId {
      assert a[m] in a && b[n] in b;
    }
  }

  // On a coherent store the order report is exact: it holds the issues due and no others, one per link id at most.
  lemma OrderReportIsExact(pairs: Pairing, b: Book, remotes: seq<RemoteOrder>)
    requires Coherent(pairs, b) && b.Iterable() && SnapshotConforms(pairs, ExchangeDict(remotes))
    ensures var issues := ReconcileOrders(b, remotes).1;
            (forall i :: i in issues <==> Due(Tracked(b), ExchangeDict(remotes), i)) && OncePerLink(issues)
  {
    var t, exchange, open := Tracked(b), ExchangeDict(remotes), OpenLinks(b, None, |b.byLink.keys|);
    ReconcileIsDifference(pairs, b, remotes);
    OpenAreListed(b);
    LocalReport(t, exchange, open);
    RemoteReport(t, exchange, exchange.keys);
    ReportsJoin(t, exchange, open, exchange.keys, LocalDifference(t, exchange, open),
                RemoteDifference(t, exchange, exchange.keys));
  }

  lemma OpenAreListed(b: Book)
    requires b.Iterable()
    ensures var open := OpenLinks(b, None, |b.byLink.keys|);
            (forall k :: k in open <==> OpenIn(Tracked(b), k)) && Distinct(open)
  {
    OpenLinksExact(b, None, |b.byLink.keys|);
    assert b.byLink.keys[..|b.byLink.keys|] == b.byLink.keys;
  }

  // ---------------------------------------------------------------------------------------------
  // The position report.

  // The tracked orders or the snapshot lack an open reduce-only order of the position's symbol.
  ghost predicate Exposed(b: Book, remotes: seq<RemoteOrder>, p: Position)
    requires b.WellFormed()
  {
    && p.size > 0.0
    && ((forall k | k in b.byLink.keys && k in b.byLink.entries ::
           var o := b.At(k); !o.reduceOnly || o.symbol != p.symbol || (o.status != New && o.status != PartiallyFilled))
        || p.symbol == "" || forall r | r in remotes :: !r.reduceOnly || r.symbol != p.symbol)
  }

  // One issue per exposed position, naming its symbol, size and side, and no others.
  lemma {:induction false} PositionReportIsExact(b: Book, positions: seq<Position>, remotes: seq<RemoteOrder>, n: nat)
    requires b.WellFormed() && n <= |positions|
    ensures var issues := PositionIssues(b, positions, remotes, n);
            && |issues| == |ExposedAmong(b, remotes, positions, n)|
            && (forall i :: i in issues <==> exists m :: m in ExposedAmong(b, remotes, positions, n)
                                               && Describes(i, positions[m]))
  {
    if n == 0 {
      assert ExposedAmong(b, remotes, positions, 0) == {};
    } else {
      var p := positions[n - 1];
      PositionReportIsExact(b, positions, remotes, n - 1);
      var before := PositionIssues(b, positions, remotes, n - 1);
      var among, among' := ExposedAmong(b, remotes, positions, n - 1), ExposedAmong(b, remotes, positions, n);
      assert Exposed(b, remotes, p)
        <==> p.size > 0.0 && !(HasLocalExit(b, p.symbol) && HasExchangeExit(remotes, p.symbol));
      assert among' == if Exposed(b, remotes, p) then among + {n - 1} else among;
      assert forall i :: i in before + [Unprotected(p)] <==> i in before || i == Unprotected(p);
      if Exposed(b, remotes, p) { assert n - 1 in among' && Describes(Unprotected(p), p); }
    }
  }

  ghost function ExposedAmong(b: Book, remotes: seq<RemoteOrder>, positions: seq<Position>, n: nat): set<nat>
    requires b.WellFormed() && n <= |positions|
  {
    set m: nat | m < n && Exposed(b, remotes, positions[m])
  }

  ghost predicate Describes(i: Issue, p: Position) {
    i == Issue(MissingReduceOnlyExit, p.symbol, None, None, Some(p.size), Some(p.side), None, None)
  }
}
