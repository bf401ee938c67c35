// What a reconcile cycle achieves for the order book: one cycle reaches a fixed point.
module Convergence {
  import opened Common
  import opened OrderBook
  import opened Reconciliation

  // The book after reconcile_orders and the closing of every order reported missing on the exchange,
  // together with the number of closes that took effect.
  function SyncedBook(b: Book, remotes: seq<RemoteOrder>, when: int): (r: (Book, nat))
    requires b.Iterable()
    ensures r.0.Iterable()
  {
    var (b1, issues) := ReconcileOrders(b, remotes);
    CloseMissing(b1, GoneLinks(issues), when, |GoneLinks(issues)|)
  }

  ghost predicate AllOpen(exchange: Dict<RemoteOrder>) {
    forall k | k in exchange.entries :: IsOpen(exchange.entries[k].status)
  }

  // ---------------------------------------------------------------------------------------------
  // Which links are reported missing.

  // Those of the given links the snapshot does not know.
  function Unknown(exchange: Dict<RemoteOrder>, links: seq<string>): seq<string> {
    if links == [] then []
    else
      Unknown(exchange, links[..|links| - 1]) +
      if links[|links| - 1] in exchange.entries then [] else [links[|links| - 1]]
  }

  lemma {:induction false} UnknownExact(exchange: Dict<RemoteOrder>, links: seq<string>)
    requires Distinct(links)
    ensures forall k :: k in Unknown(exchange, links) <==> k in links && k !in exchange.entries
    ensures Distinct(Unknown(exchange, links))
  {
    if links != [] {
      var rest := links[..|links| - 1];
      assert links == rest + [links[|links| - 1]];
      UnknownExact(exchange, rest);
    }
  }

  lemma {:induction false} GoneLinksConcat(a: seq<Issue>, b: seq<Issue>)
    ensures GoneLinks(a + b) == GoneLinks(a) + GoneLinks(b)
    decreases |b|
  {
    if b == [] {
      assert a + b == a;
    } else {
      var rest := b[..|b| - 1];
      assert (a + b)[..|a + b| - 1] == a + rest;
      GoneLinksConcat(a, rest);
    }
  }

  lemma {:induction false} GoneLinksOfLocal(t: Table, exchange: Dict<RemoteOrder>, links: seq<string>)
    requires forall k | k in links :: k in t
    ensures GoneLinks(LocalDifference(t, exchange, links)) == Unknown(exchange, links)
  {
    if links != [] {
      var rest, link := links[..|links| - 1], links[|links| - 1];
      GoneLinksOfLocal(t, exchange, rest);
      var last := if link !in exchange.entries then [GoneFromExchange(t[link], link)]
                  else if t[link].qty != exchange.entries[link].qty then
                    [WrongQty(t[link], link, exchange.entries[link])]
                  else [];
      GoneLinksConcat(LocalDifference(t, exchange, rest), last);
      assert last[..|last|] == last;
    }
  }

  lemma {:induction false} GoneLinksOfRemote(t: Table, exchange: Dict<RemoteOrder>, links: seq<string>)
    requires forall k | k in links :: k in exchange.entries
    ensures GoneLinks(RemoteDifference(t, exchange, links)) == []
  {
    if links != [] {
      var rest, link := links[..|links| - 1], links[|links| - 1];
      GoneLinksOfRemote(t, exchange, rest);
      var last := if OpenIn(t, link) then [] else [Untracked(link, exchange.entries[link])];
      GoneLinksConcat(RemoteDifference(t, exchange, rest), last);
    }
  }

  // ---------------------------------------------------------------------------------------------
  // When the differences are empty.

  lemma {:induction false} LocalDifferenceEmpty(t: Table, exchange: Dict<RemoteOrder>, links: seq<string>)
    requires forall k | k in links :: k in t
    ensures LocalDifference(t, exchange, links) == [] <==>
            forall k | k in links :: k in exchange.entries && t[k].qty == exchange.entries[k].qty
  {
    if links != [] {
      var rest := links[..|links| - 1];
      assert links == rest + [links[|links| - 1]];
      LocalDifferenceEmpty(t, exchange, rest);
    }
  }

  lemma {:induction false} RemoteDifferenceEmpty(t: Table, exchange: Dict<RemoteOrder>, links: seq<string>)
    requires forall k | k in links :: k in exchange.entries
    ensures RemoteDifference(t, exchange, links) == [] <==> forall k | k in links :: OpenIn(t, k)
  {
    if links != [] {
      var rest := links[..|links| - 1];
      assert links == rest + [links[|links| - 1]];
      RemoteDifferenceEmpty(t, exchange, rest);
    }
  }

  // ---------------------------------------------------------------------------------------------
  // Closing.

  lemma CloseEffect(pairs: Pairing, b: Book, link: string, when: int)
    requires Coherent(pairs, b) && b.OpenAt(link)
    ensures var b' := Close(b, link, when);
            && Coherent(pairs, b') && b'.byLink == b.byLink
            && Tracked(b') == Tracked(b)[link := Closed(Tracked(b)[link], when)]
  {
    ApplyKeepsCoherence(pairs, b, ClosedLocally(link, when));
    var b' := Close(b, link, when);
    forall k | k in b.byLink.entries && k != link ensures b'.At(k) == b.At(k) {
      assert LinkKeyed(b, k) && LinkKeyed(b, link);
    }
  }

  ghost function ClosedTable(t: Table, links: set<string>, when: int): Table {
    map k | k in t :: if k in links then Closed(t[k], when) else t[k]
  }

  lemma NothingClosed(t: Table, when: int)
    ensures ClosedTable(t, {}, when) == t
  {
  }

  lemma ClosedOneMore(t: Table, done: set<string>, link: string, when: int)
    requires link in t && link !in done
    ensures var t1 := ClosedTable(t, done, when);
            t1[link] == t[link] && ClosedTable(t, done + {link}, when) == t1[link := Closed(t[link], when)]
  {
  }

  // One more close, on a book where the links done so far are closed already.
  lemma CloseOneMore(pairs: Pairing, b: Book, t: Table, done: set<string>, link: string, when: int)
    requires Coherent(pairs, b) && Tracked(b) == ClosedTable(t, done, when) && OpenIn(t, link) && link !in done
    ensures var b' := Close(b, link, when);
            && b.OpenAt(link) && Coherent(pairs, b') && b'.byLink == b.byLink
            && Tracked(b') == ClosedTable(t, done + {link}, when)
  {
    ClosedOneMore(t, done, link, when);
    assert link in Tracked(b) && b.At(link) == Tracked(b)[link];
    CloseEffect(pairs, b, link, when);
  }

  // What closing the given links should have made of book b.
  ghost predicate AllClosed(pairs: Pairing, b: Book, links: seq<string>, when: int, b': Book)
    requires b.WellFormed()
  {
    Coherent(pairs, b') && b'.byLink == b.byLink && Tracked(b') == ClosedTable(Tracked(b), Elements(links), when)
  }

  lemma {:induction false} CloseMissingEffect(pairs: Pairing, b: Book, links: seq<string>, when: int, n: nat)
    requires Coherent(pairs, b) && Distinct(links) && n <= |links| && forall k | k in links :: b.OpenAt(k)
    ensures var (b', closed) := CloseMissing(b, links, when, n);
            closed == n && AllClosed(pairs, b, links[..n], when, b')
  {
    if n == 0 {
      NothingClosed(Tracked(b), when);
    } else {
      CloseMissingEffect(pairs, b, links, when, n - 1);
      PrefixElements(links, n);
      assert links[n - 1] in links;
      var (b1, closed) := CloseMissing(b, links, when, n - 1);
      AllClosedOneMore(pairs, b, links[..n - 1], links[n - 1], when, b1);
      CloseMissingStep(b, links, when, n);
    }
  }

  lemma CloseMissingStep(b: Book, links: seq<string>, when: int, n: nat)
    requires b.WellFormed() && 0 < n <= |links|
    ensures var (b1, closed) := CloseMissing(b, links, when, n - 1);
            var r := CloseMissing(b, links, when, n);
            r.0 == Close(b1, links[n - 1], when) && r.1 == if b1.OpenAt(links[n - 1]) then closed + 1 else closed
  {
  }

  lemma AllClosedOneMore(pairs: Pairing, b: Book, links: seq<string>, link: string, when: int, b1: Book)
    requires b.WellFormed() && b.OpenAt(link) && link !in links && AllClosed(pairs, b, links, when, b1)
    ensures b1.OpenAt(link) && AllClosed(pairs, b, links + [link], when, Close(b1, link, when))
  {
    assert OpenIn(Tracked(b), link) && Elements(links + [link]) == Elements(links) + {link};
    CloseOneMore(pairs, b1, Tracked(b), Elements(links), link, when);
  }

  // ---------------------------------------------------------------------------------------------
  // The fixed point.

  // The tracked orders after a cycle, stated per link: the snapshot's data where it names the link, otherwise the
  // tracked order, closed if it was open.
  ghost function SyncedTable(t: Table, exchange: Dict<RemoteOrder>, when: int): Table {
    map k | k in t.Keys + exchange.entries.Keys ::
      if k in exchange.entries then Merged(t, exchange.entries[k])
      else if OpenIn(t, k) then Closed(t[k], when) else t[k]
  }

  lemma TakenThenClosed(t: Table, exchange: Dict<RemoteOrder>, gone: set<string>, when: int)
    requires forall k :: k in gone <==> OpenIn(t, k) && k !in exchange.entries
    ensures ClosedTable(t + Taken(t, exchange, exchange.entries.Keys), gone, when) == SyncedTable(t, exchange, when)
  {
  }

  lemma GoneIsUnknown(t: Table, exchange: Dict<RemoteOrder>, open: seq<string>)
    requires exchange.Listed() && forall k | k in open :: k in t
    ensures GoneLinks(LocalDifference(t, exchange, open) + RemoteDifference(t, exchange, exchange.keys))
         == Unknown(exchange, open)
  {
    GoneLinksConcat(LocalDifference(t, exchange, open), RemoteDifference(t, exchange, exchange.keys));
    GoneLinksOfLocal(t, exchange, open);
    GoneLinksOfRemote(t, exchange, exchange.keys);
  }

  // The orders a pass reports missing are exactly the open ones the snapshot does not name, each once.
  lemma ReportedGone(pairs: Pairing, b: Book, remotes: seq<RemoteOrder>)
    requires Coherent(pairs, b) && b.Iterable() && SnapshotConforms(pairs, ExchangeDict(remotes))
    ensures var gone := GoneLinks(ReconcileOrders(b, remotes).1);
            && Distinct(gone) && gone[..|gone|] == gone
            && (forall k | k in gone :: b.OpenAt(k) && k !in ExchangeDict(remotes).entries)
            && (forall k :: k in Elements(gone) <==> OpenIn(Tracked(b), k) && k !in ExchangeDict(remotes).entries)
  {
    var exchange := ExchangeDict(remotes);
    var n := |b.byLink.keys|;
    var open := OpenLinks(b, None, n);
    ReconcileIsDifference(pairs, b, remotes);
    GoneIsUnknown(Tracked(b), exchange, open);
    UnknownOpen(b, exchange);
  }

  lemma UnknownOpen(b: Book, exchange: Dict<RemoteOrder>)
    requires b.Iterable()
    ensures var gone := Unknown(exchange, OpenLinks(b, None, |b.byLink.keys|));
            && Distinct(gone) && gone[..|gone|] == gone
            && (forall k | k in gone :: b.OpenAt(k) && k !in exchange.entries)
            && (forall k :: k in Elements(gone) <==> OpenIn(Tracked(b), k) && k !in exchange.entries)
  {
    var n := |b.byLink.keys|;
    OpenLinksExact(b, None, n);
    assert b.byLink.keys[..n] == b.byLink.keys;
    UnknownExact(exchange, OpenLinks(b, None, n));
  }

  // On a coherent book and a conforming snapshot every close succeeds and the cycle leaves the synced table.
  lemma SyncReachesSnapshot(pairs: Pairing, b: Book, remotes: seq<RemoteOrder>, when: int)
    requires Coherent(pairs, b) && b.Iterable() && SnapshotConforms(pairs, ExchangeDict(remotes))
    ensures var (b', closed) := SyncedBook(b, remotes, when);
            && closed == |GoneLinks(ReconcileOrders(b, remotes).1)|
            && Coherent(pairs, b')
            && Tracked(b') == SyncedTable(Tracked(b), ExchangeDict(remotes), when)
  {
    var exchange := ExchangeDict(remotes);
    var t := Tracked(b);
    var (b1, issues) := ReconcileOrders(b, remotes);
    var gone := GoneLinks(issues);
    ReconcileIsDifference(pairs, b, remotes);
    ReportedGone(pairs, b, remotes);
    TakenThenClosed(t, exchange, Elements(gone), when);
    forall k | k in gone ensures b1.OpenAt(k) { assert Tracked(b1)[k] == t[k]; }
    CloseMissingEffect(pairs, b1, gone, when, |gone|);
  }

  // After a cycle the open orders are exactly the snapshot's open orders, with the snapshot's quantities.
  lemma SyncedTableMirrors(t: Table, exchange: Dict<RemoteOrder>, when: int)
    requires forall k | k in exchange.entries :: exchange.entries[k].linkId == k
    ensures var t' := SyncedTable(t, exchange, when);
            && (forall k :: OpenIn(t', k) <==> k in exchange.entries && IsOpen(exchange.entries[k].status))
            && (forall k | k in exchange.entries :: t'[k].qty == exchange.entries[k].qty)
  {
  }

  // A second pass over the same snapshot reports nothing exactly when every linked snapshot order has an open status.
  lemma SecondPassIsClean(pairs: Pairing, b: Book, remotes: seq<RemoteOrder>, when: int)
    requires Coherent(pairs, b) && b.Iterable() && SnapshotConforms(pairs, ExchangeDict(remotes))
    ensures ReconcileOrders(SyncedBook(b, remotes, when).0, remotes).1 == [] <==> AllOpen(ExchangeDict(remotes))
  {
    var exchange := ExchangeDict(remotes);
    var (b', _) := SyncedBook(b, remotes, when);
    var n := |b'.byLink.keys|;
    var open := OpenLinks(b', None, n);
    SyncReachesSnapshot(pairs, b, remotes, when);
    ReconcileIsDifference(pairs, b', remotes);
    OpenLinksExact(b', None, n);
    LocalDifferenceEmpty(Tracked(b'), exchange, open);
    RemoteDifferenceEmpty(Tracked(b'), exchange, exchange.keys);
    SyncedTableMirrors(Tracked(b), exchange, when);
    forall k | k in open ensures OpenIn(Tracked(b'), k) { }
  }
}
