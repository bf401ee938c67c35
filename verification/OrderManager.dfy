// The order manager as the runtime holds it: mutable order objects shared by two dicts. Every method is proved
// against the value model of module OrderBook, object identity included.
module OrderManager {
  import opened Common
  import opened OrderBook

  class ManagedOrder {
    var orderId: Option<string>
    var linkId: string
    var symbol: string
    var status: OrderStatus
    var qty: real
    var filledQty: real
    var avgPrice: Option<real>
    var reduceOnly: bool
    const createdAt: int
    var updatedAt: int
    var metadata: map<string, string>

    function Snapshot(): Order
      reads this
    {
      Order(orderId, linkId, symbol, status, qty, filledQty, avgPrice, reduceOnly, createdAt, updatedAt, metadata)
    }

    constructor (o: Order)
      ensures Snapshot() == o
    {
      orderId, linkId, symbol, status := o.orderId, o.linkId, o.symbol, o.status;
      qty, filledQty, avgPrice, reduceOnly := o.qty, o.filledQty, o.avgPrice, o.reduceOnly;
      createdAt, updatedAt, metadata := o.createdAt, o.updatedAt, o.metadata;
    }

    method SetOrderId(id: string, when: int)
      modifies this
      ensures Snapshot() == old(Snapshot()).(orderId := Some(id), updatedAt := when)
    {
      orderId, updatedAt := Some(id), when;
    }

    // Present fields overwrite, absent ones stay.
    method Absorb(u: Update)
      modifies this
      ensures Snapshot() == Updated(old(Snapshot()), u)
    {
      if u.status.Some? { status := u.status.value; }
      if u.filledQty.Some? { filledQty := u.filledQty.value; }
      if u.avgPrice.Some? { avgPrice := u.avgPrice; }
      updatedAt := u.updatedAt;
      if u.orderId.Some? { orderId := u.orderId; }
    }

    method MarkClosed(when: int)
      modifies this
      ensures Snapshot() == Closed(old(Snapshot()), when)
    {
      status, updatedAt, metadata := Cancelled, when, metadata[TerminalReasonKey := ClosedMissing];
    }

    method Overwrite(r: RemoteOrder)
      modifies this
      ensures Snapshot() == Overwritten(old(Snapshot()), r)
    {
      orderId, linkId, symbol, status := Some(r.orderId), r.linkId, r.symbol, r.status;
      qty, filledQty, avgPrice, reduceOnly := r.qty, r.filledQty, Some(r.price), r.reduceOnly;
      updatedAt := r.updatedTime;
    }
  }

  ghost predicate Mirrors(objects: seq<ManagedOrder>, cells: seq<Order>)
    reads objects
  {
    && |objects| == |cells|
    && Distinct(objects)
    && (forall c | 0 <= c < |objects| :: objects[c].Snapshot() == cells[c])
  }

  ghost predicate Indexes(dict: map<string, ManagedOrder>, objects: seq<ManagedOrder>, index: map<string, nat>) {
    && dict.Keys == index.Keys
    && (forall k | k in dict :: index[k] < |objects| && dict[k] == objects[index[k]])
  }

  lemma PutKeepsIndex(dict: map<string, ManagedOrder>, objects: seq<ManagedOrder>, index: map<string, nat>, k: string,
                      c: nat)
    requires Indexes(dict, objects, index) && c < |objects|
    ensures Indexes(dict[k := objects[c]], objects, index[k := c])
  {
  }

  // The objects mirror the book cell by cell, and the dicts mirror its indexes.
  ghost predicate Mirroring(
    keys: seq<string>, byLinkId: map<string, ManagedOrder>, byOrderId: map<string, ManagedOrder>,
    objects: seq<ManagedOrder>, book: Book)
    reads objects
  {
    && Mirrors(objects, book.cells)
    && keys == book.byLink.keys
    && Indexes(byLinkId, objects, book.byLink.entries)
    && Indexes(byOrderId, objects, book.byOrderId)
  }

  // Pointing a link id at a cell in the dict and in the book.
  lemma PutKeepsMirroring(
    keys: seq<string>, byLinkId: map<string, ManagedOrder>, byOrderId: map<string, ManagedOrder>,
    objects: seq<ManagedOrder>, book: Book, link: string, c: nat)
    requires book.Iterable() && Mirroring(keys, byLinkId, byOrderId, objects, book) && c < |objects|
    ensures var book' := book.(byLink := book.byLink.Put(link, c));
            && book'.Iterable()
            && Mirroring(if link in byLinkId then keys else keys + [link], byLinkId[link := objects[c]], byOrderId,
                         objects, book')
  {
    PutKeepsIndex(byLinkId, objects, book.byLink.entries, link, c);
  }

  lemma AppendedIsTracked(b: Book, o: Order, orderId: Option<string>)
    ensures var b1 := b.(cells := b.cells + [o], byLink := b.byLink.Put(o.linkId, |b.cells|));
            b1.cells[|b.cells| := o] == b1.cells && Rewrite(b1, |b.cells|, o, orderId) == Track(b, o, orderId)
  {
  }

  class Manager {
    var byLinkId: map<string, ManagedOrder>
    var linkKeys: seq<string>  // the insertion order of byLinkId
    var byOrderId: map<string, ManagedOrder>
    ghost var objects: seq<ManagedOrder>  // every order ever allocated, oldest first
    ghost var repr: set<ManagedOrder>  // the same orders as a footprint
    ghost var book: Book

    ghost predicate Valid()
      reads this, repr
    {
      book.Iterable() && Owned() && Mirrored()
    }

    ghost predicate Owned()
      reads this
    {
      forall c | 0 <= c < |objects| :: objects[c] in repr
    }

    ghost predicate Mirrored()
      requires Owned()
      reads this, repr
    {
      Mirroring(linkKeys, byLinkId, byOrderId, objects, book)
    }

    constructor ()
      ensures Valid() && book == EmptyBook && objects == [] && repr == {}
    {
      byLinkId, linkKeys, byOrderId := map[], [], map[];
      objects, repr, book := [], {}, EmptyBook;
    }

    method RegisterIntent(intent: Intent) returns (order: ManagedOrder)
      requires Valid()
      modifies this
      ensures Valid() && book == Register(old(book), intent)
      ensures old(objects) <= objects && forall o | o in repr :: o in old(repr) || fresh(o)
      ensures intent.linkId in byLinkId && order == byLinkId[intent.linkId]
    {
      if intent.linkId in byLinkId { return byLinkId[intent.linkId]; }
      order := Allocate(OrderOfIntent(intent), None);
    }

    // A new order object, indexed under its own link id and under the order id when one is known.
    method Allocate(o: Order, orderId: Option<string>) returns (order: ManagedOrder)
      requires Valid() && o.linkId !in byLinkId
      modifies this
      ensures Valid() && book == Track(old(book), o, orderId)
      ensures objects == old(objects) + [order] && repr == old(repr) + {order} && fresh(order)
      ensures o.linkId in byLinkId && order == byLinkId[o.linkId]
    {
      ghost var c: nat := |book.cells|;
      order := AddObject(o);
      Relink(order, c, o.linkId);
      AppendedIsTracked(old(book), o, orderId);
      Rebind(order, c, o, orderId);
    }

    method AddObject(o: Order) returns (order: ManagedOrder)
      requires Valid()
      modifies `objects, `repr, `book
      ensures Valid() && book == old(book).(cells := old(book).cells + [o])
      ensures objects == old(objects) + [order] && repr == old(repr) + {order} && fresh(order)
    {
      order := new ManagedOrder(o);
      objects, repr := objects + [order], repr + {order};
      assert Mirrors(objects, book.cells + [o]);
      book := book.(cells := book.cells + [o]);
    }

    // Point a link id at cell c, a new key going to the end of the dict.
    method Relink(order: ManagedOrder, ghost c: nat, link: string)
      requires Valid() && c < |objects| && objects[c] == order
      modifies `byLinkId, `linkKeys, `book
      ensures Valid() && book == old(book).(byLink := old(book).byLink.Put(link, c))
      ensures byLinkId == old(byLinkId)[link := order]
    {
      PutKeepsMirroring(linkKeys, byLinkId, byOrderId, objects, book, link, c);
      SetLinks(if link in byLinkId then linkKeys else linkKeys + [link], byLinkId[link := order],
               book.(byLink := book.byLink.Put(link, c)));
    }

    method SetLinks(keys: seq<string>, dict: map<string, ManagedOrder>, ghost next: Book)
      requires next.Iterable() && Owned() && Mirroring(keys, dict, byOrderId, objects, next)
      modifies `byLinkId, `linkKeys, `book
      ensures Valid() && book == next && byLinkId == dict
    {
      byLinkId, linkKeys, book := dict, keys, next;
    }

    // Cell c's object already holds o: record that in the book and bind the order id when one is given.
    method Rebind(order: ManagedOrder, ghost c: nat, ghost o: Order, orderId: Option<string>)
      requires book.Iterable() && linkKeys == book.byLink.keys
      requires Indexes(byLinkId, objects, book.byLink.entries) && Indexes(byOrderId, objects, book.byOrderId)
      requires Owned()
      requires c < |objects| == |book.cells| && objects[c] == order && Mirrors(objects, book.cells[c := o])
      modifies `byOrderId, `book
      ensures Valid() && book == Rewrite(old(book), c, o, orderId)
    {
      if orderId.Some? {
        PutKeepsIndex(byOrderId, objects, book.byOrderId, orderId.value, c);
        byOrderId := byOrderId[orderId.value := order];
      }
      book := Rewrite(book, c, o, orderId);
    }

    method AckExchangeOrder(link: string, orderId: string, when: int)
      requires Valid()
      modifies this, repr
      ensures Valid() && book == Ack(old(book), link, orderId, when) && objects == old(objects) && repr == old(repr)
    {
      if link !in byLinkId { return; }
      var order := byLinkId[link];
      ghost var c := book.byLink.entries[link];
      order.SetOrderId(orderId, when);
      Rebind(order, c, book.cells[c].(orderId := Some(orderId), updatedAt := when), Some(orderId));
    }

    method FindTarget(u: Update) returns (order: ManagedOrder?, ghost cell: Option<nat>)
      requires Valid()
      ensures cell == Target(book, u)
      ensures match cell case None => order == null case Some(c) => order == objects[c]
    {
      order, cell := null, Target(book, u);
      if u.orderId.Some? && u.orderId.value in byOrderId { order := byOrderId[u.orderId.value]; }
      if order == null && u.linkId.Some? && u.linkId.value in byLinkId { order := byLinkId[u.linkId.value]; }
    }

    method ApplyOrderUpdate(u: Update)
      requires Valid()
      modifies this, repr
      ensures Valid() && book == ApplyUpdate(old(book), u) && objects == old(objects) && repr == old(repr)
    {
      var order, cell := FindTarget(u);
      if order == null { return; }
      order.Absorb(u);
      Rebind(order, cell.value, Updated(book.cells[cell.value], u), u.orderId);
    }

    method MarkClosedMissingOnExchange(link: string, when: int) returns (closed: bool)
      requires Valid()
      modifies this, repr
      ensures Valid() && book == Close(old(book), link, when) && objects == old(objects) && repr == old(repr)
      ensures closed == old(book).OpenAt(link)
    {
      if link !in byLinkId { return false; }
      var order := byLinkId[link];
      assert order.Snapshot() == book.At(link);
      if order.status != New && order.status != PartiallyFilled { return false; }
      CloseTracked(order, link, when);
      return true;
    }

    method CloseTracked(order: ManagedOrder, ghost link: string, when: int)
      requires Valid() && book.OpenAt(link) && order == objects[book.byLink.entries[link]]
      modifies this, repr
      ensures Valid() && book == Close(old(book), link, when) && objects == old(objects) && repr == old(repr)
    {
      order.MarkClosed(when);
      Rebind(order, book.byLink.entries[link], Closed(book.At(link), when), None);
    }

    // The orders are those under the given link ids, one by one.
    ghost predicate Lists(orders: seq<ManagedOrder>, links: seq<string>)
      reads this
    {
      |orders| == |links| && forall j | 0 <= j < |links| :: links[j] in byLinkId && orders[j] == byLinkId[links[j]]
    }

    lemma ListsOneMore(orders: seq<ManagedOrder>, links: seq<string>, link: string)
      requires Lists(orders, links) && link in byLinkId
      ensures Lists(orders + [byLinkId[link]], links + [link])
    {
    }

    // The open orders in dict order, all of them or those of one symbol.
    method GetOpenOrders(symbol: Option<string>) returns (orders: seq<ManagedOrder>, ghost links: seq<string>)
      requires Valid()
      ensures links == OpenLinks(book, symbol, |book.byLink.keys|)
      ensures Lists(orders, links)
    {
      orders, links := [], [];
      for i := 0 to |linkKeys|
        invariant links == OpenLinks(book, symbol, i)
        invariant Lists(orders, links)
      {
        var key := linkKeys[i];
        var listed := IsListed(key, symbol);
        if listed {
          ListsOneMore(orders, links, key);
          orders, links := orders + [byLinkId[key]], links + [key];
        }
      }
    }

    method IsListed(key: string, symbol: Option<string>) returns (listed: bool)
      requires Valid() && key in byLinkId
      ensures listed == Matches(book, symbol, key)
    {
      var order := byLinkId[key];
      assert order.Snapshot() == book.At(key);
      listed := (order.status == New || order.status == PartiallyFilled)
                && (symbol.Some? ==> order.symbol == symbol.value);
    }

    method GetByLinkId(link: string) returns (order: ManagedOrder?)
      requires Valid()
      ensures order == null <==> link !in book.byLink.entries
      ensures order != null ==> order == objects[book.byLink.entries[link]] && order.Snapshot() == book.At(link)
    {
      if link in byLinkId { order := byLinkId[link]; } else { order := null; }
    }

    method FindExisting(r: RemoteOrder) returns (order: ManagedOrder?, ghost cell: Option<nat>)
      requires Valid()
      ensures cell == Existing(book, r)
      ensures match cell case None => order == null case Some(c) => order == objects[c]
    {
      order, cell := null, Existing(book, r);
      if r.linkId in byLinkId { order := byLinkId[r.linkId]; }
      else if r.orderId in byOrderId { order := byOrderId[r.orderId]; }
    }

    method UpsertFromExchangeSnapshot(r: RemoteOrder)
      requires Valid()
      modifies this, repr
      ensures Valid() && book == Upsert(old(book), r)
      ensures old(objects) <= objects && forall o | o in repr :: o in old(repr) || fresh(o)
    {
      var order, cell := FindExisting(r);
      if order == null {
        order := Allocate(OrderOfRemote(r), Some(r.orderId));
        return;
      }
      OverwriteTracked(order, cell.value, r);
    }

    method OverwriteTracked(order: ManagedOrder, ghost c: nat, r: RemoteOrder)
      requires Valid() && c < |objects| && objects[c] == order && Existing(book, r) == Some(c)
      modifies this, repr
      ensures Valid() && book == Upsert(old(book), r) && objects == old(objects) && repr == old(repr)
    {
      order.Overwrite(r);
      Rebind(order, c, Overwritten(book.cells[c], r), Some(r.orderId));
      Relink(order, c, r.linkId);
    }
  }
}
