// Reconciliation of the order book with exchange snapshots: the passes as the reconciler runs them, and a closed
// form of what they achieve on a coherent book.
module Reconciliation {
  import opened Common
  import opened OrderBook

  datatype IssueKind = MissingOnExchange | QtyMismatch | MissingLocally | MissingReduceOnlyExit

  datatype Issue = Issue(
    kind: IssueKind, symbol: string, linkId: Option<string>, orderId: Option<string>,
    positionSize: Option<real>, positionSide: Option<string>, reduceOnly: Option<bool>, qty: Option<real>)

  datatype Position = Position(symbol: string, size: real, side: string)

  function GoneFromExchange(o: Order, link: string): Issue {
    Issue(MissingOnExchange, o.symbol, Some(link), o.orderId, None, None, None, None)
  }

  function WrongQty(o: Order, link: string, r: RemoteOrder): Issue {
    Issue(QtyMismatch, o.symbol, Some(link), Some(r.orderId), None, None, Some(r.reduceOnly), Some(r.qty))
  }

  function Untracked(link: string, r: RemoteOrder): Issue {
    Issue(MissingLocally, r.symbol, Some(link), Some(r.orderId), None, None, Some(r.reduceOnly), Some(r.qty))
  }

  function Unprotected(p: Position): Issue {
    Issue(MissingReduceOnlyExit, p.symbol, None, None, Some(p.size), Some(p.side), None, None)
  }

  // ---------------------------------------------------------------------------------------------
  // The passes, loop by loop.

  // The open local orders keyed by the link id each order carries, in index order.
  function LocalDict(b: Book, links: seq<string>): (d: Dict<nat>)
    requires b.WellFormed() && forall k | k in links :: k in b.byLink.entries
    ensures d.Listed() && forall k | k in d.entries :: d.entries[k] < |b.cells|
  {
    if links == [] then EmptyDict()
    else
      var k := links[|links| - 1];
      LocalDict(b, links[..|links| - 1]).Put(b.At(k).linkId, b.byLink.entries[k])
  }

  // Snapshot orders that carry a link id, keyed by it; of several the last one counts.
  function ExchangeDict(remotes: seq<RemoteOrder>): (d: Dict<RemoteOrder>)
    ensures d.Listed()
    ensures forall k | k in d.entries :: k != "" && d.entries[k].linkId == k && d.entries[k] in remotes
  {
    if remotes == [] then EmptyDict()
    else
      var r := remotes[|remotes| - 1];
      var d := ExchangeDict(remotes[..|remotes| - 1]);
      if r.linkId == "" then d else d.Put(r.linkId, r)
  }

  function OpenDict(b: Book): (d: Dict<nat>)
    requires b.Iterable()
    ensures d.Listed() && forall k | k in d.entries :: d.entries[k] < |b.cells|
  {
    OpenLinksExact(b, None, |b.byLink.keys|);
    LocalDict(b, OpenLinks(b, None, |b.byLink.keys|))
  }

  // First loop: the first n local open orders against the snapshot. `b` changes under the loop.
  function LocalPass(b: Book, locals: Dict<nat>, exchange: Dict<RemoteOrder>, n: nat): (r: (Book, seq<Issue>))
    requires b.WellFormed() && n <= |locals.keys| && locals.Listed()
    requires forall k | k in locals.entries :: locals.entries[k] < |b.cells|
    ensures r.0.WellFormed() && |b.cells| <= |r.0.cells| && (b.Iterable() ==> r.0.Iterable())
  {
    if n == 0 then (b, [])
    else
      var (b1, issues) := LocalPass(b, locals, exchange, n - 1);
      var link := locals.keys[n - 1];
      var (b2, found) := CompareCell(b1, locals.entries[link], link, exchange.Get(link));
      (b2, issues + found)
  }

  // One step of the first loop: what comparing cell c with the snapshot's order does to the book and reports.
  function CompareCell(b: Book, c: nat, link: string, remote: Option<RemoteOrder>): (r: (Book, seq<Issue>))
    requires b.WellFormed() && c < |b.cells|
    ensures r.0.WellFormed() && |b.cells| <= |r.0.cells| && (b.Iterable() ==> r.0.Iterable())
  {
    var local := b.cells[c];
    match remote
    case None => (b, [GoneFromExchange(local, link)])
    case Some(r) => (Upsert(b, r), if local.qty != r.qty then [WrongQty(local, link, r)] else [])
  }

  // Second loop: the first n snapshot orders against the open orders the cycle started from.
  function RemotePass(b: Book, locals: Dict<nat>, exchange: Dict<RemoteOrder>, n: nat): (r: (Book, seq<Issue>))
    requires b.WellFormed() && n <= |exchange.keys| && exchange.Listed()
    ensures r.0.WellFormed() && (b.Iterable() ==> r.0.Iterable())
  {
    if n == 0 then (b, [])
    else
      var (b1, issues) := RemotePass(b, locals, exchange, n - 1);
      var link := exchange.keys[n - 1];
      var remote := exchange.entries[link];
      if locals.Has(link) then (b1, issues) else (Upsert(b1, remote), issues + [Untracked(link, remote)])
  }

  function ReconcileOrders(b: Book, remotes: seq<RemoteOrder>): (r: (Book, seq<Issue>))
    requires b.Iterable()
    ensures r.0.Iterable()
  {
    var locals := OpenDict(b);
    var exchange := ExchangeDict(remotes);
    var (b1, gone) := LocalPass(b, locals, exchange, |locals.keys|);
    var (b2, untracked) := RemotePass(b1, locals, exchange, |exchange.keys|);
    (b2, gone + untracked)
  }

  predicate HasLocalExit(b: Book, symbol: string)
    requires b.WellFormed()
  {
    exists k | k in b.byLink.keys :: b.OpenAt(k) && b.At(k).reduceOnly && b.At(k).symbol == symbol
  }

  predicate HasExchangeExit(remotes: seq<RemoteOrder>, symbol: string) {
    symbol != "" && exists r | r in remotes :: r.reduceOnly && r.symbol == symbol
  }

  // The first n positions: a non-flat one needs a reduce-only order both tracked locally and on the exchange.
  function PositionIssues(b: Book, positions: seq<Position>, remotes: seq<RemoteOrder>, n: nat): (issues: seq<Issue>)
    requires b.WellFormed() && n <= |positions|
    ensures forall i | i in issues :: i.kind == MissingReduceOnlyExit
  {
    if n == 0 then []
    else
      var p := positions[n - 1];
      PositionIssues(b, positions, remotes, n - 1) +
      if p.size > 0.0 && !(HasLocalExit(b, p.symbol) && HasExchangeExit(remotes, p.symbol)) then [Unprotected(p)]
      else []
  }

  // Closing the first n of the links reported missing on the exchange, counting the closes that took effect.
  function CloseMissing(b: Book, links: seq<string>, when: int, n: nat): (r: (Book, nat))
    requires b.WellFormed() && n <= |links|
    ensures r.0.WellFormed() && r.1 <= n && (b.Iterable() ==> r.0.Iterable())
  {
    if n == 0 then (b, 0)
    else
      var (b1, closed) := CloseMissing(b, links, when, n - 1);
      (Close(b1, links[n - 1], when), closed + if b1.OpenAt(links[n - 1]) then 1 else 0)
  }

  // Only the first n links matter.
  lemma {:induction false} CloseMissingPrefix(b: Book, links: seq<string>, more: seq<string>, when: int, n: nat)
    requires b.WellFormed() && n <= |links|
    ensures CloseMissing(b, links + more, when, n) == CloseMissing(b, links, when, n)
  {
    if n > 0 { CloseMissingPrefix(b, links, more, when, n - 1); }
  }

  lemma CloseMissingOneMore(b: Book, links: seq<string>, link: string, when: int)
    requires b.WellFormed()
    ensures var (b1, closed) := CloseMissing(b, links, when, |links|);
            CloseMissing(b, links + [link], when, |links| + 1)
            == (Close(b1, link, when), closed + if b1.OpenAt(link) then 1 else 0)
  {
    CloseMissingPrefix(b, links, [link], when, |links|);
  }

  // The link ids of the missing-on-exchange issues, in order.
  function GoneLinks(issues: seq<Issue>): seq<string> {
    if issues == [] then []
    else
      var last := issues[|issues| - 1];
      GoneLinks(issues[..|issues| - 1]) +
      if last.kind == MissingOnExchange then [if last.linkId.Some? then last.linkId.value else ""] else []
  }

  // ---------------------------------------------------------------------------------------------
  // The closed form: a per-link difference between the tracked orders and the snapshot.

  // The orders as a reader of the link index sees them.
  type Table = map<string, Order>

  ghost function Tracked(b: Book): Table
    requires b.WellFormed()
  {
    map k | k in b.byLink.entries :: b.At(k)
  }

  predicate OpenIn(t: Table, link: string) { link in t && IsOpen(t[link].status) }

  function LocalDifference(t: Table, exchange: Dict<RemoteOrder>, links: seq<string>): seq<Issue>
    requires forall k | k in links :: k in t
  {
    if links == [] then []
    else
      var link := links[|links| - 1];
      LocalDifference(t, exchange, links[..|links| - 1]) +
      match exchange.Get(link)
      case None => [GoneFromExchange(t[link], link)]
      case Some(r) => if t[link].qty != r.qty then [WrongQty(t[link], link, r)] else []
  }

  function RemoteDifference(t: Table, exchange: Dict<RemoteOrder>, links: seq<string>): seq<Issue>
    requires forall k | k in links :: k in exchange.entries
  {
    if links == [] then []
    else
      var link := links[|links| - 1];
      RemoteDifference(t, exchange, links[..|links| - 1]) +
      if OpenIn(t, link) then [] else [Untracked(link, exchange.entries[link])]
  }

  // What a snapshot order makes of the table's order under the same link id.
  function Merged(t: Table, r: RemoteOrder): Order {
    if r.linkId in t then Overwritten(t[r.linkId], r) else OrderOfRemote(r)
  }

  // The snapshot's version of the orders under the given links.
  function Taken(t: Table, exchange: Dict<RemoteOrder>, links: set<string>): Table {
    map k | k in links && k in exchange.entries :: Merged(t, exchange.entries[k])
  }

  ghost predicate SnapshotConforms(pairs: Pairing, exchange: Dict<RemoteOrder>) {
    && exchange.Listed()
    && (forall k {:trigger RemoteConforms(pairs, exchange, k)} | k in exchange.entries ::
         RemoteConforms(pairs, exchange, k))
  }

  ghost predicate RemoteConforms(pairs: Pairing, exchange: Dict<RemoteOrder>, k: string)
    requires k in exchange.entries
  {
    var r := exchange.entries[k];
    r.linkId == k && k != "" && Paired(pairs, k, r.orderId)
  }

  // ---------------------------------------------------------------------------------------------
  // The passes compute the closed form.

  lemma TrackedAfterTrack(b: Book, o: Order, orderId: Option<string>)
    requires b.WellFormed() && o.linkId !in b.byLink.entries
    ensures Track(b, o, orderId).WellFormed() && Tracked(Track(b, o, orderId)) == Tracked(b)[o.linkId := o]
  {
  }

  lemma TrackedAfterRewrite(pairs: Pairing, b: Book, link: string, o: Order, orderId: Option<string>)
    requires Coherent(pairs, b) && link in b.byLink.entries
    ensures var b' := Rewrite(b, b.byLink.entries[link], o, orderId);
            b'.WellFormed() && Tracked(b') == Tracked(b)[link := o]
  {
    var b' := Rewrite(b, b.byLink.entries[link], o, orderId);
    forall k | k in b.byLink.entries && k != link ensures b'.At(k) == b.At(k) {
      assert LinkKeyed(b, k) && LinkKeyed(b, link);
    }
  }

  lemma UpsertEffect(pairs: Pairing, b: Book, r: RemoteOrder)
    requires Coherent(pairs, b) && Conforms(pairs, b, Upserted(r))
    ensures var b' := Upsert(b, r);
            && Coherent(pairs, b')
            && (r.linkId in b.byLink.entries ==> b'.byLink == b.byLink)
            && Tracked(b') == Tracked(b)[r.linkId := Merged(Tracked(b), r)]
  {
    UpsertByLink(pairs, b, r);
    if r.linkId in b.byLink.entries {
      var c := b.byLink.entries[r.linkId];
      assert b.byLink.Put(r.linkId, c) == b.byLink;
      TrackedAfterRewrite(pairs, b, r.linkId, Overwritten(b.At(r.linkId), r), Some(r.orderId));
    } else {
      TrackedAfterTrack(b, OrderOfRemote(r), Some(r.orderId));
    }
  }

  lemma {:induction false} LocalDictIsIndex(pairs: Pairing, b: Book, links: seq<string>)
    requires Coherent(pairs, b) && Distinct(links) && forall k | k in links :: k in b.byLink.entries
    ensures LocalDict(b, links).keys == links
    ensures forall k | k in LocalDict(b, links).entries :: LocalDict(b, links).entries[k] == b.byLink.entries[k]
  {
    if links != [] {
      var rest, k := links[..|links| - 1], links[|links| - 1];
      assert links == rest + [k];
      LocalDictIsIndex(pairs, b, rest);
      assert LinkKeyed(b, k);
      var d := LocalDict(b, rest);
      assert k !in d.keys;
    }
  }

  // locals names exactly the open orders of b, under their index keys.
  ghost predicate IndexesOpen(b: Book, locals: Dict<nat>)
    requires b.WellFormed()
  {
    && locals.Listed()
    && (forall k :: k in locals.entries <==> b.OpenAt(k))
    && (forall k | k in locals.entries :: locals.entries[k] == b.byLink.entries[k])
  }

  lemma OpenDictIsIndex(pairs: Pairing, b: Book)
    requires Coherent(pairs, b) && b.Iterable()
    ensures OpenDict(b).keys == OpenLinks(b, None, |b.byLink.keys|)
    ensures IndexesOpen(b, OpenDict(b))
  {
    var n := |b.byLink.keys|;
    OpenLinksExact(b, None, n);
    assert b.byLink.keys[..n] == b.byLink.keys;
    LocalDictIsIndex(pairs, b, OpenLinks(b, None, n));
  }

  lemma NothingTaken(t: Table, exchange: Dict<RemoteOrder>)
    ensures t + Taken(t, exchange, {}) == t
  {
  }

  lemma PrefixElements(s: seq<string>, n: nat)
    requires Distinct(s) && 0 < n <= |s|
    ensures s[..n] == s[..n - 1] + [s[n - 1]] && s[..n][..n - 1] == s[..n - 1]
    ensures Elements(s[..n]) == Elements(s[..n - 1]) + {s[n - 1]} && s[n - 1] !in Elements(s[..n - 1])
  {
    assert s[..n] == s[..n - 1] + [s[n - 1]];
  }

  lemma TakenOneMore(t: Table, exchange: Dict<RemoteOrder>, done: set<string>, link: string)
    requires link !in done && (link in exchange.entries ==> exchange.entries[link].linkId == link)
    ensures var t1 := t + Taken(t, exchange, done);
            && (link in t ==> t1[link] == t[link])
            && t + Taken(t, exchange, done + {link})
               == if link in exchange.entries then t1[link := Merged(t1, exchange.entries[link])] else t1
  {
  }

  // One step of the first loop, on a book that already holds the snapshot's version of the links done so far.
  lemma CompareCellEffect(
    pairs: Pairing, b: Book, t: Table, exchange: Dict<RemoteOrder>, done: set<string>, link: string)
    requires Coherent(pairs, b) && SnapshotConforms(pairs, exchange)
    requires Tracked(b) == t + Taken(t, exchange, done) && link in t && link !in done && link in b.byLink.entries
    ensures var (b', found) := CompareCell(b, b.byLink.entries[link], link, exchange.Get(link));
            && Coherent(pairs, b') && b'.byLink == b.byLink
            && Tracked(b') == t + Taken(t, exchange, done + {link})
            && found == match exchange.Get(link)
                        case None => [GoneFromExchange(t[link], link)]
                        case Some(r) => if t[link].qty != r.qty then [WrongQty(t[link], link, r)] else []
  {
    assert link in exchange.entries ==> RemoteConforms(pairs, exchange, link);
    TakenOneMore(t, exchange, done, link);
    assert b.At(link) == Tracked(b)[link] == t[link];
    if link in exchange.entries { UpsertEffect(pairs, b, exchange.entries[link]); }
  }

  lemma {:induction false} LocalPassEffect(pairs: Pairing, b: Book, locals: Dict<nat>, exchange: Dict<RemoteOrder>,
      n: nat)
    requires Coherent(pairs, b) && IndexesOpen(b, locals) && SnapshotConforms(pairs, exchange) && n <= |locals.keys|
    ensures var (b', issues) := LocalPass(b, locals, exchange, n);
            && Coherent(pairs, b') && b'.byLink == b.byLink
            && Tracked(b') == Tracked(b) + Taken(Tracked(b), exchange, Elements(locals.keys[..n]))
            && issues == LocalDifference(Tracked(b), exchange, locals.keys[..n])
  {
    if n == 0 {
      NothingTaken(Tracked(b), exchange);
    } else {
      LocalPassEffect(pairs, b, locals, exchange, n - 1);
      PrefixElements(locals.keys, n);
      var (b1, _) := LocalPass(b, locals, exchange, n - 1);
      CompareCellEffect(pairs, b1, Tracked(b), exchange, Elements(locals.keys[..n - 1]), locals.keys[n - 1]);
    }
  }

  ghost function NotOpen(t: Table, links: seq<string>): set<string> { set k | k in links && !OpenIn(t, k) }

  // What the second loop should have made of book b once it has dealt with the given links.
  ghost predicate Adopted(
    pairs: Pairing, b: Book, t: Table, exchange: Dict<RemoteOrder>, links: seq<string>, b': Book, issues: seq<Issue>)
    requires b.WellFormed() && forall k | k in links :: k in exchange.entries
  {
    && Coherent(pairs, b')
    && Tracked(b') == Tracked(b) + Taken(Tracked(b), exchange, NotOpen(t, links))
    && issues == RemoteDifference(t, exchange, links)
  }

  lemma {:induction false} RemotePassEffect(
    pairs: Pairing, b: Book, t: Table, locals: Dict<nat>, exchange: Dict<RemoteOrder>, n: nat)
    requires Coherent(pairs, b) && SnapshotConforms(pairs, exchange) && n <= |exchange.keys|
    requires forall k :: k in locals.entries <==> OpenIn(t, k)
    ensures var (b', issues) := RemotePass(b, locals, exchange, n);
            Adopted(pairs, b, t, exchange, exchange.keys[..n], b', issues)
  {
    if n == 0 {
      NothingTaken(Tracked(b), exchange);
    } else {
      RemotePassEffect(pairs, b, t, locals, exchange, n - 1);
      PrefixElements(exchange.keys, n);
      var (b1, issues) := RemotePass(b, locals, exchange, n - 1);
      AdoptedOneMore(pairs, b, t, exchange, exchange.keys[..n - 1], exchange.keys[n - 1], b1, issues);
      RemotePassStep(b, locals, exchange, n);
    }
  }

  lemma RemotePassStep(b: Book, locals: Dict<nat>, exchange: Dict<RemoteOrder>, n: nat)
    requires b.WellFormed() && 0 < n <= |exchange.keys| && exchange.Listed()
    ensures var (b1, issues) := RemotePass(b, locals, exchange, n - 1);
            var link := exchange.keys[n - 1];
            var r := RemotePass(b, locals, exchange, n);
            && r.0 == (if locals.Has(link) then b1 else Upsert(b1, exchange.entries[link]))
            && r.1 == (if locals.Has(link) then issues else issues + [Untracked(link, exchange.entries[link])])
  {
  }

  lemma AdoptedOneMore(
    pairs: Pairing, b: Book, t: Table, exchange: Dict<RemoteOrder>, links: seq<string>, link: string, b1: Book,
    issues: seq<Issue>)
    requires b.WellFormed() && SnapshotConforms(pairs, exchange) && forall k | k in links :: k in exchange.entries
    requires link in exchange.entries && link !in links && Adopted(pairs, b, t, exchange, links, b1, issues)
    ensures OpenIn(t, link) ==> Adopted(pairs, b, t, exchange, links + [link], b1, issues)
    ensures !OpenIn(t, link) ==>
              Adopted(pairs, b, t, exchange, links + [link], Upsert(b1, exchange.entries[link]),
                      issues + [Untracked(link, exchange.entries[link])])
  {
    NotOpenOneMore(t, links, link);
    assert (links + [link])[..|links|] == links;
    if !OpenIn(t, link) { AdoptEffect(pairs, b1, Tracked(b), exchange, NotOpen(t, links), link); }
  }

  // One untracked order adopted, on a book that already holds the snapshot's version of the links done so far.
  lemma AdoptEffect(pairs: Pairing, b: Book, t: Table, exchange: Dict<RemoteOrder>, done: set<string>, link: string)
    requires Coherent(pairs, b) && SnapshotConforms(pairs, exchange) && link in exchange.entries && link !in done
    requires Tracked(b) == t + Taken(t, exchange, done)
    ensures Coherent(pairs, Upsert(b, exchange.entries[link]))
    ensures Tracked(Upsert(b, exchange.entries[link])) == t + Taken(t, exchange, done + {link})
  {
    assert RemoteConforms(pairs, exchange, link);
    TakenOneMore(t, exchange, done, link);
    UpsertEffect(pairs, b, exchange.entries[link]);
  }

  lemma NotOpenOneMore(t: Table, links: seq<string>, link: string)
    requires link !in links
    ensures NotOpen(t, links + [link]) == if OpenIn(t, link) then NotOpen(t, links) else NotOpen(t, links) + {link}
    ensures link !in NotOpen(t, links)
  {
  }

  // One run of reconcile_orders on a coherent book: afterwards the book holds the snapshot's version of every order
  // the snapshot names and its own version of all others, and the issues are the difference of the two before.
  lemma ReconcileIsDifference(pairs: Pairing, b: Book, remotes: seq<RemoteOrder>)
    requires Coherent(pairs, b) && b.Iterable() && SnapshotConforms(pairs, ExchangeDict(remotes))
    ensures forall k | k in OpenLinks(b, None, |b.byLink.keys|) :: k in Tracked(b)
    ensures var (b', issues) := ReconcileOrders(b, remotes);
            var exchange := ExchangeDict(remotes);
            && Coherent(pairs, b')
            && Tracked(b') == Tracked(b) + Taken(Tracked(b), exchange, exchange.entries.Keys)
            && issues == LocalDifference(Tracked(b), exchange, OpenLinks(b, None, |b.byLink.keys|))
                         + RemoteDifference(Tracked(b), exchange, exchange.keys)
  {
    var exchange := ExchangeDict(remotes);
    WholeLocalPass(pairs, b, exchange);
    var (b1, _) := LocalPass(b, OpenDict(b), exchange, |OpenDict(b).keys|);
    WholeRemotePass(pairs, b1, Tracked(b), OpenDict(b), exchange);
    TakenTwice(Tracked(b), exchange, Elements(OpenDict(b).keys), NotOpen(Tracked(b), exchange.keys));
  }

  lemma WholeLocalPass(pairs: Pairing, b: Book, exchange: Dict<RemoteOrder>)
    requires Coherent(pairs, b) && b.Iterable() && SnapshotConforms(pairs, exchange)
    ensures var locals := OpenDict(b);
            var (b', issues) := LocalPass(b, locals, exchange, |locals.keys|);
            && locals.keys == OpenLinks(b, None, |b.byLink.keys|)
            && (forall k :: k in locals.entries <==> OpenIn(Tracked(b), k))
            && (forall k | k in locals.keys :: OpenIn(Tracked(b), k))
            && (forall k | OpenIn(Tracked(b), k) :: k in Elements(locals.keys))
            && Coherent(pairs, b')
            && Tracked(b') == Tracked(b) + Taken(Tracked(b), exchange, Elements(locals.keys))
            && issues == LocalDifference(Tracked(b), exchange, locals.keys)
  {
    var locals := OpenDict(b);
    OpenDictIsIndex(pairs, b);
    LocalPassEffect(pairs, b, locals, exchange, |locals.keys|);
    assert locals.keys[..|locals.keys|] == locals.keys;
  }

  lemma WholeRemotePass(pairs: Pairing, b: Book, t: Table, locals: Dict<nat>, exchange: Dict<RemoteOrder>)
    requires Coherent(pairs, b) && SnapshotConforms(pairs, exchange)
    requires forall k :: k in locals.entries <==> OpenIn(t, k)
    ensures var (b', issues) := RemotePass(b, locals, exchange, |exchange.keys|);
            && Coherent(pairs, b')
            && Tracked(b') == Tracked(b) + Taken(Tracked(b), exchange, NotOpen(t, exchange.keys))
            && issues == RemoteDifference(t, exchange, exchange.keys)
  {
    RemotePassEffect(pairs, b, t, locals, exchange, |exchange.keys|);
    assert exchange.keys[..|exchange.keys|] == exchange.keys;
  }

  // Open links first and the snapshot's other links second amount to the whole snapshot.
  lemma TakenTwice(t: Table, exchange: Dict<RemoteOrder>, first: set<string>, second: set<string>)
    requires forall k | k in exchange.entries :: exchange.entries[k].linkId == k
    requires first !! second && exchange.entries.Keys <= first + second
    ensures var t1 := t + Taken(t, exchange, first);
            t1 + Taken(t1, exchange, second) == t + Taken(t, exchange, exchange.entries.Keys)
  {
  }
}
