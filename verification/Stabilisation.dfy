// Runs whose events agree on how link ids and order ids pair up keep the book coherent; and from any state they reach,
// two reconcile cycles against a fixed, protected snapshot bring both block flags down.
module Stabilisation {
  import opened Common
  import opened BlockGate
  import opened Convergence
  import opened Entries
  import opened Fills
  import opened Metrics
  import opened OrderBook
  import opened ReconcileReports
  import opened Reconciliation
  import opened Runtime

  // ---------------------------------------------------------------------------------------------
  // Coherence of runs.

  ghost predicate OwnAck(pairs: Pairing, link: string, ack: Option<string>) {
    link != "" && (ack.Some? ==> Paired(pairs, link, ack.value))
  }

  // The event speaks of orders under the exchange's one-to-one pairing of link ids with order ids.
  ghost predicate Agrees(pairs: Pairing, e: Event) {
    match e
    case CandleClosed(_, _, cs) => forall i | 0 <= i < |cs| :: OwnAck(pairs, cs[i].linkId, cs[i].ack)
    case DrillPlaced(drill, ack, _) =>
      drill.linkId != "" && (ack.Some? ==> Paired(pairs, drill.linkId, ack.value.orderId))
    case OrderStreamed(ev, env) =>
      UpdatePaired(pairs, ev.update) && OwnAck(pairs, env.exitLinkId, env.ack)
    case Reconciled(f, _) => SnapshotConforms(pairs, ExchangeDict(f.orders))
    case _ => true
  }

  lemma SubmittingKeepsCoherence(pairs: Pairing, d: Desk, intent: Intent, ack: Option<string>, now: int)
    requires Coherent(pairs, d.book) && OwnAck(pairs, intent.linkId, ack)
    ensures Coherent(pairs, SubmitIntent(d, intent, ack, now).book)
  {
    if ack.Some? { ApplyKeepsCoherence(pairs, d.book, Acked(intent.linkId, ack.value, now)); }
  }

  lemma EnteringKeepsCoherence(pairs: Pairing, cfg: EntryConfig, d: Desk, intent: Intent, ack: Option<string>, now: int)
    requires d.book.Iterable() && Coherent(pairs, d.book) && OwnAck(pairs, intent.linkId, ack)
    ensures Coherent(pairs, Enter(cfg, d, intent, ack, now).book)
  {
    ApplyKeepsCoherence(pairs, d.book, Registered(intent));
    var d1 := d.(book := Register(d.book, intent));
    SubmittingKeepsCoherence(pairs, d1, intent, ack, now);
  }

  lemma EnactingKeepsCoherence(
    pairs: Pairing, cfg: EntryConfig, d: Desk, w: Surroundings, c: Candidate, ruling: Ruling)
    requires d.book.Iterable() && Coherent(pairs, d.book) && OwnAck(pairs, c.linkId, c.ack)
    requires ruling.Accepted? ==> ruling.intent.linkId == c.linkId
    ensures Coherent(pairs, Enact(cfg, d, w, c, ruling).book)
  {
    if ruling.Accepted? { EnteringKeepsCoherence(pairs, cfg, d, ruling.intent, c.ack, c.now); }
  }

  lemma {:induction false} DecisionsKeepCoherence(
    pairs: Pairing, cfg: EntryConfig, d: Desk, w: Surroundings, cs: seq<Candidate>)
    requires d.book.Iterable() && w.portfolio.positions.Listed() && Coherent(pairs, d.book)
    requires forall i | 0 <= i < |cs| :: OwnAck(pairs, cs[i].linkId, cs[i].ack)
    ensures Coherent(pairs, DecideAll(cfg, d, w, cs).book)
  {
    if cs != [] {
      DecisionsKeepCoherence(pairs, cfg, d, w, cs[..|cs| - 1]);
      var d1, c := DecideAll(cfg, d, w, cs[..|cs| - 1]), cs[|cs| - 1];
      if Judge(cfg, d1.book, w, c).Accepted? { AcceptedWasApproved(cfg, d1.book, w, c); }
      EnactingKeepsCoherence(pairs, cfg, d1, w, c, Judge(cfg, d1.book, w, c));
    }
  }

  lemma PlannedUnderOwnLink(prev: Order, ev: OrderEvent, env: Env)
    requires PlanExit(prev, ev, env).Planned?
    ensures PlanExit(prev, ev, env).intent.linkId == env.exitLinkId
  {
  }

  lemma PlacingKeepsCoherence(pairs: Pairing, d: Desk, link: string, intent: Intent, env: Env)
    requires Coherent(pairs, d.book) && intent.linkId == env.exitLinkId && OwnAck(pairs, env.exitLinkId, env.ack)
    ensures Coherent(pairs, PlacePlanned(d, link, intent, env).book)
  {
    ApplyKeepsCoherence(pairs, d.book, Registered(intent));
    SubmittingKeepsCoherence(pairs, d.(book := Register(d.book, intent)), intent, env.ack, env.now);
  }

  lemma TallyKeepsCoherence(pairs: Pairing, d: Desk, link: string, status: OrderStatus, ev: OrderEvent, env: Env)
    requires Coherent(pairs, d.book) && link in d.book.byLink.entries && OwnAck(pairs, env.exitLinkId, env.ack)
    ensures Coherent(pairs, Tally(d, link, status, ev, env).book)
  {
    if status == Filled && PlanExit(d.book.At(link), ev, env).Planned? {
      var intent := PlanExit(d.book.At(link), ev, env).intent;
      PlannedUnderOwnLink(d.book.At(link), ev, env);
      PlacingKeepsCoherence(pairs, d, link, intent, env);
    }
  }

  lemma OrderEventKeepsCoherence(pairs: Pairing, d: Desk, ev: OrderEvent, env: Env, drillLink: string)
    requires Coherent(pairs, d.book) && Agrees(pairs, OrderStreamed(ev, env))
    ensures Coherent(pairs, OnOrderEvent(d, ev, env, drillLink).book)
  {
    TargetIsOwn(pairs, d.book, ev.update);
    ApplyKeepsCoherence(pairs, d.book, Streamed(ev.update));
    var link, prev := ev.Link(), PrevStatus(d.book, ev.Link());
    if prev.Some? && ev.update.status.Some? {
      var d2 := d.(book := ApplyUpdate(d.book, ev.update), counters := Inc(d.counters, OrderStateTransitions));
      TallyKeepsCoherence(pairs, d2, link, ev.update.status.value, ev, env);
    }
  }

  lemma CycleKeepsCoherence(pairs: Pairing, s: State, f: Fetch, now: int)
    requires s.desk.book.Iterable() && Coherent(pairs, s.desk.book) && SnapshotConforms(pairs, ExchangeDict(f.orders))
    ensures Coherent(pairs, RunCycle(s, f, now).desk.book)
  {
    ReconcileIsDifference(pairs, s.desk.book, f.orders);
    if f.Everything? { SyncReachesSnapshot(pairs, s.desk.book, f.orders, now); }
  }

  lemma StepKeepsCoherence(pairs: Pairing, cfg: EntryConfig, s: State, e: Event)
    requires s.desk.book.Iterable() && Enabled(e) && Coherent(pairs, s.desk.book) && Agrees(pairs, e)
    ensures Coherent(pairs, Step(cfg, s, e).desk.book)
  {
    match e
    case CandleClosed(portfolio, tripped, cs) =>
      DecisionsKeepCoherence(pairs, cfg, s.desk, Surroundings(s.startupBlocked, s.orphanBlocked, tripped, portfolio),
                             cs);
    case DrillPlaced(drill, ack, when) =>
      ApplyKeepsCoherence(pairs, s.desk.book, Registered(drill));
      if ack.Some? {
        ApplyKeepsCoherence(pairs, Register(s.desk.book, drill), Acked(drill.linkId, ack.value.orderId, when));
      }
    case OrderStreamed(ev, env) => OrderEventKeepsCoherence(pairs, s.desk, ev, env, s.drillLink);
    case Reconciled(f, now) => CycleKeepsCoherence(pairs, s, f, now);
    case _ =>
  }

  // Over any run: the book stays coherent as long as the exchange's ids do.
  lemma {:induction false} RunIsCoherent(pairs: Pairing, cfg: EntryConfig, events: seq<Event>)
    requires Injective(pairs) && AllEnabled(events) && forall e | e in events :: Agrees(pairs, e)
    ensures Coherent(pairs, Run(cfg, events).desk.book)
  {
    if events == [] {
      StartParts();
    } else {
      RunIsCoherent(pairs, cfg, events[..|events| - 1]);
      StepKeepsCoherence(pairs, cfg, Run(cfg, events[..|events| - 1]), events[|events| - 1]);
    }
  }

  // ---------------------------------------------------------------------------------------------
  // Stabilisation.

  // Every non-flat position has a reduce-only order of its symbol in the snapshot that carries a link id and is the
  // last one to do so.
  ghost predicate Protected(orders: seq<RemoteOrder>, positions: seq<Position>) {
    forall p | p in positions && p.size > 0.0 ::
      p.symbol != "" && exists k :: ExitFor(ExchangeDict(orders), k, p.symbol)
  }

  ghost predicate ExitFor(exchange: Dict<RemoteOrder>, link: string, symbol: string) {
    link in exchange.entries && exchange.entries[link].reduceOnly && exchange.entries[link].symbol == symbol
  }

  // A snapshot the exchange can keep answering with: its ids pair up and its linked orders are open.
  ghost predicate Lasting(pairs: Pairing, orders: seq<RemoteOrder>) {
    SnapshotConforms(pairs, ExchangeDict(orders)) && AllOpen(ExchangeDict(orders))
  }

  // A cycle against a fixed snapshot, and k of them in a row.
  function Cycled(s: State, orders: seq<RemoteOrder>, positions: seq<Position>, when: int): (s': State)
    requires s.desk.book.Iterable()
    ensures s'.desk.book.Iterable()
  {
    RunCycle(s, Everything(orders, positions, orders), when)
  }

  function Cycles(s: State, orders: seq<RemoteOrder>, positions: seq<Position>, whens: seq<int>): (s': State)
    requires s.desk.book.Iterable()
    ensures s'.desk.book.Iterable()
  {
    if whens == [] then s
    else Cycled(Cycles(s, orders, positions, whens[..|whens| - 1]), orders, positions, whens[|whens| - 1])
  }

  // Already in the first cycle the synced book tracks an exit for every protected position.
  lemma SyncedBookTracksExit(pairs: Pairing, b: Book, orders: seq<RemoteOrder>, link: string, symbol: string)
    requires Coherent(pairs, b) && b.Iterable() && Lasting(pairs, orders)
    requires symbol != "" && ExitFor(ExchangeDict(orders), link, symbol)
    ensures HasLocalExit(ReconcileOrders(b, orders).0, symbol) && HasExchangeExit(orders, symbol)
  {
    var exchange := ExchangeDict(orders);
    var b1 := ReconcileOrders(b, orders).0;
    ReconcileIsDifference(pairs, b, orders);
    assert RemoteConforms(pairs, exchange, link);
    assert link in Tracked(b1) && Tracked(b1)[link] == Merged(Tracked(b), exchange.entries[link]);
    assert link in b1.byLink.keys && b1.At(link) == Tracked(b1)[link];
    assert exchange.entries[link] in orders;
  }

  // Once a book has been synced, every exit it tracks open is one of the snapshot's.
  lemma TrackedExitIsInSnapshot(pairs: Pairing, b: Book, orders: seq<RemoteOrder>, symbol: string)
    requires Coherent(pairs, b) && b.Iterable() && Lasting(pairs, orders)
    requires forall k :: OpenIn(Tracked(b), k) ==> k in ExchangeDict(orders).entries
    requires HasLocalExit(ReconcileOrders(b, orders).0, symbol)
    ensures exists k :: ExitFor(ExchangeDict(orders), k, symbol)
  {
    var b1 := ReconcileOrders(b, orders).0;
    ReconcileIsDifference(pairs, b, orders);
    var k :| k in b1.byLink.keys && b1.OpenAt(k) && b1.At(k).reduceOnly && b1.At(k).symbol == symbol;
    assert b1.At(k) == Tracked(b1)[k];
    OpenMergedIsListed(pairs, Tracked(b), ExchangeDict(orders), k);
    assert ExitFor(ExchangeDict(orders), k, symbol);
  }

  lemma OpenMergedIsListed(pairs: Pairing, t: Table, exchange: Dict<RemoteOrder>, k: string)
    requires SnapshotConforms(pairs, exchange) && forall k :: OpenIn(t, k) ==> k in exchange.entries
    requires OpenIn(t + Taken(t, exchange, exchange.entries.Keys), k)
    ensures k in exchange.entries
    ensures var o := (t + Taken(t, exchange, exchange.entries.Keys))[k];
            o.reduceOnly == exchange.entries[k].reduceOnly && o.symbol == exchange.entries[k].symbol
  {
    assert OpenIn(t, k) ==> k in exchange.entries;
  }

  ghost predicate Guarded(b: Book, orders: seq<RemoteOrder>, p: Position)
    requires b.WellFormed()
  {
    p.size > 0.0 ==> HasLocalExit(b, p.symbol) && HasExchangeExit(orders, p.symbol)
  }

  lemma {:induction false} NoIssueIffGuarded(b: Book, orders: seq<RemoteOrder>, positions: seq<Position>, n: nat)
    requires b.WellFormed() && n <= |positions|
    ensures PositionIssues(b, positions, orders, n) == [] <==> forall p | p in positions[..n] :: Guarded(b, orders, p)
  {
    if n > 0 {
      NoIssueIffGuarded(b, orders, positions, n - 1);
      var p := positions[n - 1];
      assert positions[..n] == positions[..n - 1] + [p];
      assert PositionIssues(b, positions, orders, n)
          == PositionIssues(b, positions, orders, n - 1) + if Guarded(b, orders, p) then [] else [Unprotected(p)];
    }
  }

  lemma ProtectedMeansNoIssue(pairs: Pairing, b: Book, orders: seq<RemoteOrder>, positions: seq<Position>)
    requires Coherent(pairs, b) && b.Iterable() && Lasting(pairs, orders) && Protected(orders, positions)
    ensures PositionIssues(ReconcileOrders(b, orders).0, positions, orders, |positions|) == []
  {
    var b1 := ReconcileOrders(b, orders).0;
    forall p | p in positions ensures Guarded(b1, orders, p) {
      if p.size > 0.0 {
        var k :| ExitFor(ExchangeDict(orders), k, p.symbol);
        SyncedBookTracksExit(pairs, b, orders, k, p.symbol);
      }
    }
    NoIssueIffGuarded(b1, orders, positions, |positions|);
    assert positions[..|positions|] == positions;
  }

  lemma NoIssueMeansProtected(pairs: Pairing, b: Book, orders: seq<RemoteOrder>, positions: seq<Position>)
    requires Coherent(pairs, b) && b.Iterable() && Lasting(pairs, orders)
    requires forall k :: OpenIn(Tracked(b), k) ==> k in ExchangeDict(orders).entries
    requires PositionIssues(ReconcileOrders(b, orders).0, positions, orders, |positions|) == []
    ensures Protected(orders, positions)
  {
    var b1 := ReconcileOrders(b, orders).0;
    NoIssueIffGuarded(b1, orders, positions, |positions|);
    assert positions[..|positions|] == positions;
    forall p | p in positions && p.size > 0.0
      ensures p.symbol != "" && exists k :: ExitFor(ExchangeDict(orders), k, p.symbol)
    {
      assert Guarded(b1, orders, p);
      TrackedExitIsInSnapshot(pairs, b, orders, p.symbol);
    }
  }

  // What one cycle against a lasting snapshot reports: every close takes effect, and the book is synced.
  lemma CycleSyncs(pairs: Pairing, s: State, orders: seq<RemoteOrder>, positions: seq<Position>, when: int)
    requires s.desk.book.Iterable() && Coherent(pairs, s.desk.book) && Lasting(pairs, orders)
    ensures var (issues, unprotected, b, resolved) :=
              CycleReports(s.desk.book, Everything(orders, positions, orders), when);
            && resolved == |GoneLinks(issues)| && issues == ReconcileOrders(s.desk.book, orders).1
            && unprotected == PositionIssues(ReconcileOrders(s.desk.book, orders).0, positions, orders, |positions|)
            && Coherent(pairs, b) && b == SyncedBook(s.desk.book, orders, when).0
  {
    SyncReachesSnapshot(pairs, s.desk.book, orders, when);
  }

  // The orders of a pass, and what its issues amount to: whether some tracked open order is gone from the snapshot,
  // whether the snapshot holds an order that is not tracked open or has another quantity there, and whether it holds an
  // untracked one that is not reduce-only.
  ghost predicate SomeGone(t: Table, exchange: Dict<RemoteOrder>) {
    exists k :: k in t && (t[k].status == New || t[k].status == PartiallyFilled) && k !in exchange.entries
  }

  ghost predicate SomeToSync(t: Table, exchange: Dict<RemoteOrder>) {
    exists k :: k in exchange.entries
      && !(k in t && (t[k].status == New || t[k].status == PartiallyFilled) && t[k].qty == exchange.entries[k].qty)
  }

  ghost predicate SomeForeignEntry(t: Table, exchange: Dict<RemoteOrder>) {
    exists k :: k in exchange.entries && !exchange.entries[k].reduceOnly
      && !(k in t && (t[k].status == New || t[k].status == PartiallyFilled))
  }

  lemma KindsReported(t: Table, exchange: Dict<RemoteOrder>, issues: seq<Issue>)
    requires forall i :: i in issues <==> Due(t, exchange, i)
    ensures (exists i :: i in issues && i.kind == MissingOnExchange) <==> SomeGone(t, exchange)
    ensures (exists i :: i in issues && (i.kind == MissingLocally || i.kind == QtyMismatch))
       <==> SomeToSync(t, exchange)
    ensures (exists i :: i in issues && i.kind == MissingLocally && i.reduceOnly != Some(true))
       <==> SomeForeignEntry(t, exchange)
  {
    if SomeGone(t, exchange) {
      var k :| k in t && (t[k].status == New || t[k].status == PartiallyFilled) && k !in exchange.entries;
      var i := GoneFromExchange(t[k], k);
      assert Due(t, exchange, i) && i in issues;
    }
    if SomeToSync(t, exchange) {
      var k :| k in exchange.entries
        && !(k in t && (t[k].status == New || t[k].status == PartiallyFilled) && t[k].qty == exchange.entries[k].qty);
      var i := if OpenIn(t, k) then WrongQty(t[k], k, exchange.entries[k]) else Untracked(k, exchange.entries[k]);
      assert Due(t, exchange, i) && i in issues;
    }
    if SomeForeignEntry(t, exchange) {
      var k :| k in exchange.entries && !exchange.entries[k].reduceOnly
        && !(k in t && (t[k].status == New || t[k].status == PartiallyFilled));
      var i := Untracked(k, exchange.entries[k]);
      assert Due(t, exchange, i) && i in issues;
    }
  }

  lemma FlagsFromKinds(
    g: Gate, t: Table, exchange: Dict<RemoteOrder>, issues: seq<Issue>, resolved: nat, unprotected: seq<Issue>)
    requires (forall i :: i in issues <==> Due(t, exchange, i)) && resolved == |GoneLinks(issues)|
    ensures var g' := AfterCycle(g, issues, resolved, unprotected);
            var repaired := unprotected == [] && !(SomeGone(t, exchange) && SomeToSync(t, exchange));
            && g'.mismatches == (if repaired then 0 else g.mismatches + 1)
            && g'.orphanBlocked == (!repaired && (g.orphanBlocked || unprotected != []))
            && g'.startupBlocked == (!repaired || (g.startupBlocked && SomeForeignEntry(t, exchange)))
  {
    KindsReported(t, exchange, issues);
    FlagsAfterCycle(g, issues, resolved, unprotected);
    if forall i | i in issues :: i.kind == MissingOnExchange { AllGoneAreLinked(issues); }
    assert forall i | i in issues :: i.kind in {MissingOnExchange, MissingLocally, QtyMismatch};
  }

  // Any completed cycle whose snapshot agrees with the ids, from the orders tracked before it, the snapshot, and the
  // positions exposed once the orders are synced: it is a mismatch if a position is exposed, or if orders gone from the
  // exchange meet others to sync. Otherwise the startup flag survives exactly when the snapshot holds an order that was
  // not open locally and is not reduce-only.
  lemma FlagsAfterFetch(pairs: Pairing, s: State, f: Fetch, now: int)
    requires s.desk.book.Iterable() && Coherent(pairs, s.desk.book) && f.Everything?
    requires SnapshotConforms(pairs, ExchangeDict(f.orders))
    ensures var t, exchange, s' := Tracked(s.desk.book), ExchangeDict(f.orders), RunCycle(s, f, now);
            var clean := forall p | p in f.positions ::
                           !Exposed(ReconcileOrders(s.desk.book, f.orders).0, f.ordersAgain, p);
            var repaired := clean && !(SomeGone(t, exchange) && SomeToSync(t, exchange));
            && s'.mismatches == (if repaired then 0 else s.mismatches + 1)
            && s'.orphanBlocked == (!repaired && (s.orphanBlocked || !clean))
            && s'.startupBlocked == (!repaired || (s.startupBlocked && SomeForeignEntry(t, exchange)))
  {
    var t, exchange := Tracked(s.desk.book), ExchangeDict(f.orders);
    var (issues, unprotected, b, resolved) := CycleReports(s.desk.book, f, now);
    OrderReportIsExact(pairs, s.desk.book, f.orders);
    CleanIffNoneExposed(ReconcileOrders(s.desk.book, f.orders).0, f.positions, f.ordersAgain);
    SyncReachesSnapshot(pairs, s.desk.book, f.orders, now);
    FlagsFromKinds(s.AsGate(), t, exchange, issues, resolved, unprotected);
  }

  lemma CleanIffNoneExposed(b: Book, positions: seq<Position>, remotes: seq<RemoteOrder>)
    requires b.WellFormed()
    ensures PositionIssues(b, positions, remotes, |positions|) == []
       <==> forall p | p in positions :: !Exposed(b, remotes, p)
  {
    PositionReportIsExact(b, positions, remotes, |positions|);
    var exposed := ExposedAmong(b, remotes, positions, |positions|);
    if exposed == {} {
      forall p | p in positions ensures !Exposed(b, remotes, p) {
        var m :| 0 <= m < |positions| && positions[m] == p;
        assert m !in exposed;
      }
    } else {
      var m :| m in exposed;
      assert positions[m] in positions;
    }
  }

  // The first cycle against a lasting snapshot that protects every position: what it leaves up depends on what it had
  // to repair, and on an untracked order that is not reduce-only.
  lemma FirstCycle(pairs: Pairing, s: State, orders: seq<RemoteOrder>, positions: seq<Position>, when: int)
    requires s.desk.book.Iterable() && Coherent(pairs, s.desk.book) && Lasting(pairs, orders)
    requires Protected(orders, positions)
    ensures var t, exchange, s' := Tracked(s.desk.book), ExchangeDict(orders), Cycled(s, orders, positions, when);
            var mixed := SomeGone(t, exchange) && SomeToSync(t, exchange);
            && s'.mismatches == (if mixed then s.mismatches + 1 else 0)
            && s'.orphanBlocked == (mixed && s.orphanBlocked)
            && s'.startupBlocked == (mixed || (s.startupBlocked && SomeForeignEntry(t, exchange)))
  {
    var b1 := ReconcileOrders(s.desk.book, orders).0;
    ProtectedMeansNoIssue(pairs, s.desk.book, orders, positions);
    CleanIffNoneExposed(b1, positions, orders);
    FlagsAfterFetch(pairs, s, Everything(orders, positions, orders), when);
  }

  // The open orders are the snapshot's, and the next cycle has nothing to sync.
  ghost predicate Settled(b: Book, orders: seq<RemoteOrder>)
    requires b.Iterable()
  {
    && ReconcileOrders(b, orders).1 == []
    && forall k :: OpenIn(Tracked(b), k) ==> k in ExchangeDict(orders).entries
  }

  lemma SyncedIsSettled(pairs: Pairing, b: Book, orders: seq<RemoteOrder>, when: int)
    requires Coherent(pairs, b) && b.Iterable() && Lasting(pairs, orders)
    ensures Coherent(pairs, SyncedBook(b, orders, when).0) && Settled(SyncedBook(b, orders, when).0, orders)
  {
    SecondPassIsClean(pairs, b, orders, when);
    SyncReachesSnapshot(pairs, b, orders, when);
    SyncedTableMirrors(Tracked(b), ExchangeDict(orders), when);
  }

  lemma CycleSettles(pairs: Pairing, s: State, orders: seq<RemoteOrder>, positions: seq<Position>, when: int)
    requires s.desk.book.Iterable() && Coherent(pairs, s.desk.book) && Lasting(pairs, orders)
    ensures var b := Cycled(s, orders, positions, when).desk.book; Coherent(pairs, b) && Settled(b, orders)
  {
    CycleSyncs(pairs, s, orders, positions, when);
    SyncedIsSettled(pairs, s.desk.book, orders, when);
  }

  // One cycle settles the book, and later ones keep it settled.
  lemma {:induction false} CyclesSettle(
    pairs: Pairing, s: State, orders: seq<RemoteOrder>, positions: seq<Position>, whens: seq<int>)
    requires s.desk.book.Iterable() && Coherent(pairs, s.desk.book) && Lasting(pairs, orders)
    ensures var b := Cycles(s, orders, positions, whens).desk.book;
            Coherent(pairs, b) && (whens != [] ==> Settled(b, orders))
  {
    if whens != [] {
      CyclesSettle(pairs, s, orders, positions, whens[..|whens| - 1]);
      CycleSettles(pairs, Cycles(s, orders, positions, whens[..|whens| - 1]), orders, positions, whens[|whens| - 1]);
    }
  }

  // A cycle on a settled book brings both flags down if every position is protected and puts both up otherwise.
  lemma SettledCycle(pairs: Pairing, s: State, orders: seq<RemoteOrder>, positions: seq<Position>, when: int)
    requires s.desk.book.Iterable() && Coherent(pairs, s.desk.book) && Lasting(pairs, orders)
    requires Settled(s.desk.book, orders)
    ensures var s' := Cycled(s, orders, positions, when);
            && (Protected(orders, positions) ==> !s'.startupBlocked && !s'.orphanBlocked && s'.mismatches == 0)
            && (!Protected(orders, positions) ==>
                 s'.startupBlocked && s'.orphanBlocked && s'.mismatches == s.mismatches + 1)
  {
    CycleSyncs(pairs, s, orders, positions, when);
    var (issues, unprotected, b, resolved) := CycleReports(s.desk.book, Everything(orders, positions, orders), when);
    if Protected(orders, positions) { ProtectedMeansNoIssue(pairs, s.desk.book, orders, positions); }
    if unprotected == [] { NoIssueMeansProtected(pairs, s.desk.book, orders, positions); }
    FlagsByBranch(s.AsGate(), issues, resolved, unprotected);
  }

  // From any state of a run with coherent ids, and against a snapshot that no longer changes, two or more cycles leave
  // both flags down and the mismatch counter at zero exactly when every non-flat position is protected; otherwise they
  // leave both flags up. What the first cycle had to repair makes no difference.
  lemma TwoCyclesStabilise(
    pairs: Pairing, cfg: EntryConfig, events: seq<Event>, orders: seq<RemoteOrder>, positions: seq<Position>,
    whens: seq<int>)
    requires Injective(pairs) && AllEnabled(events) && forall e | e in events :: Agrees(pairs, e)
    requires Lasting(pairs, orders) && |whens| >= 2
    ensures var s := Cycles(Run(cfg, events), orders, positions, whens);
            && (Protected(orders, positions) ==> !s.startupBlocked && !s.orphanBlocked && s.mismatches == 0)
            && (!Protected(orders, positions) ==> s.startupBlocked && s.orphanBlocked && s.mismatches > 0)
  {
    var s := Run(cfg, events);
    RunIsCoherent(pairs, cfg, events);
    CyclesSettle(pairs, s, orders, positions, whens[..|whens| - 1]);
    SettledCycle(pairs, Cycles(s, orders, positions, whens[..|whens| - 1]), orders, positions, whens[|whens| - 1]);
  }
}
