// The reconciler over the live order manager, loop by loop, proved against module Reconciliation.
module Reconciler {
  import opened Common
  import opened OrderBook
  import opened OrderManager
  import opened Reconciliation

  class Reconciler {
    const manager: Manager

    constructor (manager: Manager)
      ensures this.manager == manager
    {
      this.manager := manager;
    }

    method ExchangeByLink(remotes: seq<RemoteOrder>) returns (d: Dict<RemoteOrder>)
      ensures d == ExchangeDict(remotes)
    {
      d := EmptyDict();
      for i := 0 to |remotes|
        invariant d == ExchangeDict(remotes[..i])
      {
        assert remotes[..i + 1][..i] == remotes[..i];
        if remotes[i].linkId != "" { d := d.Put(remotes[i].linkId, remotes[i]); }
      }
      assert remotes[..|remotes|] == remotes;
    }

    // The open local orders keyed by the link id each one carries; index holds their cells.
    method LocalByLink() returns (keys: seq<string>, orders: map<string, ManagedOrder>, ghost index: Dict<nat>)
      requires manager.Valid()
      ensures index == OpenDict(manager.book) && keys == index.keys
      ensures Indexes(orders, manager.objects, index.entries)
    {
      var open, links := manager.GetOpenOrders(None);
      OpenLinksExact(manager.book, None, |manager.book.byLink.keys|);
      keys, orders, index := [], map[], EmptyDict();
      for i := 0 to |open|
        invariant Collected(links, i, keys, orders, index)
      {
        keys, orders, index := Collect(open, links, i, keys, orders, index);
      }
      assert links[..|links|] == links;
    }

    // The orders under the first i links have been keyed.
    ghost predicate Collected(
      links: seq<string>, i: nat, keys: seq<string>, orders: map<string, ManagedOrder>, index: Dict<nat>)
      requires manager.Valid() && i <= |links|
      reads manager, manager.repr
    {
      && (forall k | k in links :: k in manager.book.byLink.entries)
      && index == LocalDict(manager.book, links[..i]) && keys == index.keys
      && Indexes(orders, manager.objects, index.entries)
    }

    method Collect(
      open: seq<ManagedOrder>, ghost links: seq<string>, i: nat, before: seq<string>, known: map<string, ManagedOrder>,
      ghost was: Dict<nat>)
      returns (keys: seq<string>, orders: map<string, ManagedOrder>, ghost index: Dict<nat>)
      requires manager.Valid() && manager.Lists(open, links) && i < |links| && Collected(links, i, before, known, was)
      ensures Collected(links, i + 1, keys, orders, index)
    {
      assert links[..i + 1][..i] == links[..i];
      var order := open[i];
      assert links[i] in links && order.Snapshot() == manager.book.At(links[i]);
      PutKeepsIndex(known, manager.objects, was.entries, order.linkId, manager.book.byLink.entries[links[i]]);
      keys := if order.linkId in known then before else before + [order.linkId];
      orders := known[order.linkId := order];
      index := was.Put(order.linkId, manager.book.byLink.entries[links[i]]);
    }

    method ReconcileOrders(remotes: seq<RemoteOrder>) returns (issues: seq<Issue>)
      requires manager.Valid()
      modifies manager, manager.repr
      ensures manager.Valid()
      ensures (manager.book, issues) == Reconciliation.ReconcileOrders(old(manager.book), remotes)
      ensures old(manager.objects) <= manager.objects
      ensures forall o | o in manager.repr :: o in old(manager.repr) || fresh(o)
    {
      var keys, orders, index := LocalByLink();
      var exchange := ExchangeByLink(remotes);
      var gone := CompareLocals(keys, orders, index, exchange);
      var untracked := AdoptUntracked(orders, index, exchange);
      issues := gone + untracked;
    }

    method CompareLocals(
      keys: seq<string>, orders: map<string, ManagedOrder>, ghost index: Dict<nat>, exchange: Dict<RemoteOrder>)
      returns (issues: seq<Issue>)
      requires manager.Valid() && index.Listed() && keys == index.keys
      requires Indexes(orders, manager.objects, index.entries)
      modifies manager, manager.repr
      ensures manager.Valid() && (manager.book, issues) == LocalPass(old(manager.book), index, exchange, |keys|)
      ensures old(manager.objects) <= manager.objects
      ensures forall o | o in manager.repr :: o in old(manager.repr) || fresh(o)
    {
      issues := [];
      ghost var start, objects := manager.book, manager.objects;
      for i := 0 to |keys|
        invariant manager.Valid() && Compared(index, exchange, i, issues, start, objects)
        invariant forall o | o in manager.repr :: o in old(manager.repr) || fresh(o)
      {
        issues := CompareNext(keys, orders, index, exchange, i, issues, start, objects);
      }
    }

    // The first loop has dealt with the first i keys.
    ghost predicate Compared(
      index: Dict<nat>, exchange: Dict<RemoteOrder>, i: nat, issues: seq<Issue>, start: Book,
      objects: seq<ManagedOrder>)
      requires index.Listed() && i <= |index.keys|
      reads manager
    {
      && start.WellFormed() && (forall k | k in index.entries :: index.entries[k] < |start.cells|)
      && (manager.book, issues) == LocalPass(start, index, exchange, i)
      && objects <= manager.objects
    }

    // The i-th key of the first loop.
    method CompareNext(
      keys: seq<string>, orders: map<string, ManagedOrder>, ghost index: Dict<nat>, exchange: Dict<RemoteOrder>, i: nat,
      before: seq<Issue>, ghost start: Book, ghost objects: seq<ManagedOrder>)
      returns (issues: seq<Issue>)
      requires manager.Valid() && index.Listed() && keys == index.keys && i < |keys|
      requires Indexes(orders, objects, index.entries) && Compared(index, exchange, i, before, start, objects)
      modifies manager, manager.repr
      ensures manager.Valid() && Compared(index, exchange, i + 1, issues, start, objects)
      ensures forall o | o in manager.repr :: o in old(manager.repr) || fresh(o)
    {
      var key := keys[i];
      assert orders[key] == objects[index.entries[key]] == manager.objects[index.entries[key]];
      var found := CompareLocal(key, orders[key], index.entries[key], exchange.Get(key));
      issues := before + found;
    }

    method AdoptUntracked(orders: map<string, ManagedOrder>, ghost index: Dict<nat>, exchange: Dict<RemoteOrder>)
      returns (issues: seq<Issue>)
      requires manager.Valid() && exchange.Listed() && orders.Keys == index.entries.Keys
      modifies manager, manager.repr
      ensures manager.Valid()
      ensures (manager.book, issues) == RemotePass(old(manager.book), index, exchange, |exchange.keys|)
      ensures old(manager.objects) <= manager.objects
      ensures forall o | o in manager.repr :: o in old(manager.repr) || fresh(o)
    {
      issues := [];
      ghost var start := manager.book;
      for i := 0 to |exchange.keys|
        invariant manager.Valid() && (manager.book, issues) == RemotePass(start, index, exchange, i)
        invariant old(manager.objects) <= manager.objects
        invariant forall o | o in manager.repr :: o in old(manager.repr) || fresh(o)
      {
        issues := AdoptNext(orders, index, exchange, i, issues, start);
      }
    }

    // The i-th key of the second loop.
    method AdoptNext(
      orders: map<string, ManagedOrder>, ghost index: Dict<nat>, exchange: Dict<RemoteOrder>, i: nat,
      before: seq<Issue>,
      ghost start: Book)
      returns (issues: seq<Issue>)
      requires manager.Valid() && exchange.Listed() && orders.Keys == index.entries.Keys && i < |exchange.keys|
      requires start.WellFormed() && (manager.book, before) == RemotePass(start, index, exchange, i)
      modifies manager, manager.repr
      ensures manager.Valid() && (manager.book, issues) == RemotePass(start, index, exchange, i + 1)
      ensures old(manager.objects) <= manager.objects
      ensures forall o | o in manager.repr :: o in old(manager.repr) || fresh(o)
    {
      issues := before;
      var link := exchange.keys[i];
      if link !in orders {
        issues := issues + [Untracked(link, exchange.entries[link])];
        manager.UpsertFromExchangeSnapshot(exchange.entries[link]);
      }
    }

    // One local open order against the snapshot's order under the same link id.
    method CompareLocal(link: string, local: ManagedOrder, ghost cell: nat, remote: Option<RemoteOrder>)
      returns (found: seq<Issue>)
      requires manager.Valid() && cell < |manager.objects| && manager.objects[cell] == local
      modifies manager, manager.repr
      ensures manager.Valid()
      ensures (manager.book, found) == CompareCell(old(manager.book), cell, link, remote)
      ensures old(manager.objects) <= manager.objects
      ensures forall o | o in manager.repr :: o in old(manager.repr) || fresh(o)
    {
      assert local.Snapshot() == manager.book.cells[cell];
      if remote.None? {
        return [Issue(MissingOnExchange, local.symbol, Some(link), local.orderId, None, None, None, None)];
      }
      var r := remote.value;
      found := [];
      var diff := if local.qty >= r.qty then local.qty - r.qty else r.qty - local.qty;
      if diff > 0.0 {
        found := [Issue(QtyMismatch, local.symbol, Some(link), Some(r.orderId), None, None, Some(r.reduceOnly),
                        Some(r.qty))];
      }
      manager.UpsertFromExchangeSnapshot(r);
    }

    method ReconcilePositions(positions: seq<Position>, remotes: seq<RemoteOrder>) returns (issues: seq<Issue>)
      requires manager.Valid()
      ensures issues == PositionIssues(manager.book, positions, remotes, |positions|)
    {
      issues := [];
      var open, links := manager.GetOpenOrders(None);
      OpenLinksExact(manager.book, None, |manager.book.byLink.keys|);
      for i := 0 to |positions|
        invariant issues == PositionIssues(manager.book, positions, remotes, i)
      {
        var p := positions[i];
        if p.size > 0.0 {
          var local := AnyReduceOnly(open, links, p.symbol);
          if !(local && HasExchangeExit(remotes, p.symbol)) { issues := issues + [Unprotected(p)]; }
        }
      }
    }

    method AnyReduceOnly(open: seq<ManagedOrder>, ghost links: seq<string>, symbol: string) returns (found: bool)
      requires manager.Valid() && links == OpenLinks(manager.book, None, |manager.book.byLink.keys|)
      requires manager.Lists(open, links)
      ensures found == HasLocalExit(manager.book, symbol)
    {
      OpenLinksExact(manager.book, None, |manager.book.byLink.keys|);
      assert manager.book.byLink.keys[..|manager.book.byLink.keys|] == manager.book.byLink.keys;
      found := false;
      for i := 0 to |open|
        invariant found == exists j | 0 <= j < i ::
                             manager.book.At(links[j]).reduceOnly && manager.book.At(links[j]).symbol == symbol
      {
        assert open[i].Snapshot() == manager.book.At(links[i]);
        if open[i].reduceOnly && open[i].symbol == symbol { found := true; }
      }
    }
  }
}
