// Outcome counts of strategy orders, each status counted once per link id.
module StrategyOrders {
  import opened Common
  import opened OrderBook

  datatype Outcomes = Outcomes(
    intents: nat, submissions: nat, acks: nat, filled: nat, cancelled: nat, rejected: nat, partiallyFilled: nat,
    seenNew: set<string>, seenPartiallyFilled: set<string>, seenFilled: set<string>, seenCancelled: set<string>,
    seenRejected: set<string>)

  const FreshOutcomes := Outcomes(0, 0, 0, 0, 0, 0, 0, {}, {}, {}, {}, {})

  function Transitioned(o: Outcomes, link: string, status: Option<OrderStatus>): Outcomes {
    if link == "" then o
    else
      match status
      case Some(PartiallyFilled) =>
        if link in o.seenPartiallyFilled then o
        else o.(seenPartiallyFilled := o.seenPartiallyFilled + {link}, partiallyFilled := o.partiallyFilled + 1)
      case Some(Filled) =>
        if link in o.seenFilled then o
        else o.(seenFilled := o.seenFilled + {link}, filled := o.filled + 1)
      case Some(Cancelled) =>
        if link in o.seenCancelled then o
        else o.(seenCancelled := o.seenCancelled + {link}, cancelled := o.cancelled + 1)
      case Some(Rejected) =>
        if link in o.seenRejected then o
        else o.(seenRejected := o.seenRejected + {link}, rejected := o.rejected + 1)
      case _ => o
  }

  class StrategyOrderOutcomes {
    var intents: nat
    var submissions: nat
    var acks: nat
    var filled: nat
    var cancelled: nat
    var rejected: nat
    var partiallyFilled: nat
    var seenNew: set<string>
    var seenPartiallyFilled: set<string>
    var seenFilled: set<string>
    var seenCancelled: set<string>
    var seenRejected: set<string>

    function Snapshot(): Outcomes
      reads this
    {
      Outcomes(intents, submissions, acks, filled, cancelled, rejected, partiallyFilled, seenNew, seenPartiallyFilled,
               seenFilled, seenCancelled, seenRejected)
    }

    constructor ()
      ensures Snapshot() == FreshOutcomes
    {
      intents, submissions, acks, filled, cancelled, rejected, partiallyFilled := 0, 0, 0, 0, 0, 0, 0;
      seenNew, seenPartiallyFilled, seenFilled, seenCancelled, seenRejected := {}, {}, {}, {}, {};
    }

    // Answers whether this newly records a fill.
    method ApplyOrderStatusTransition(link: string, status: Option<OrderStatus>) returns (newlyFilled: bool)
      modifies this
      ensures Snapshot() == Transitioned(old(Snapshot()), link, status)
      ensures newlyFilled <==> link in seenFilled - old(seenFilled)
    {
      newlyFilled := false;
      if link == "" || status.None? { return; }
      if status.value == PartiallyFilled && link !in seenPartiallyFilled {
        seenPartiallyFilled, partiallyFilled := seenPartiallyFilled + {link}, partiallyFilled + 1;
      }
      if status.value == Filled && link !in seenFilled {
        seenFilled, filled := seenFilled + {link}, filled + 1;
        newlyFilled := true;
      }
      if status.value == Cancelled && link !in seenCancelled {
        seenCancelled, cancelled := seenCancelled + {link}, cancelled + 1;
      }
      if status.value == Rejected && link !in seenRejected {
        seenRejected, rejected := seenRejected + {link}, rejected + 1;
      }
    }
  }

  type Transition = (string, Option<OrderStatus>)

  function Replayed(o: Outcomes, ts: seq<Transition>): Outcomes {
    if ts == [] then o
    else Transitioned(Replayed(o, ts[..|ts| - 1]), ts[|ts| - 1].0, ts[|ts| - 1].1)
  }

  // The link ids that ever reached a status.
  ghost function Reached(ts: seq<Transition>, status: OrderStatus): set<string> {
    set t | t in ts && t.1 == Some(status) && t.0 != "" :: t.0
  }

  lemma ReachedOneMore(ts: seq<Transition>, t: Transition, status: OrderStatus)
    ensures Reached(ts + [t], status) == Reached(ts, status) + if t.1 == Some(status) && t.0 != "" then {t.0} else {}
  {
    forall k | k in Reached(ts + [t], status)
      ensures k in Reached(ts, status) + if t.1 == Some(status) && t.0 != "" then {t.0} else {}
    {
      var u :| u in ts + [t] && u.1 == Some(status) && u.0 != "" && u.0 == k;
      if u != t { assert u in ts; }
    }
    forall u | u in ts ensures u in ts + [t] { }
    assert t in ts + [t];
  }

  // The link ids seen in a status, and the status's count.
  function Seen(o: Outcomes, status: OrderStatus): (set<string>, nat)
    requires status != New
  {
    match status
    case PartiallyFilled => (o.seenPartiallyFilled, o.partiallyFilled)
    case Filled => (o.seenFilled, o.filled)
    case Cancelled => (o.seenCancelled, o.cancelled)
    case Rejected => (o.seenRejected, o.rejected)
  }

  lemma TransitionSees(o: Outcomes, t: Transition, status: OrderStatus)
    requires status != New
    ensures var (seen, n) := Seen(o, status);
            var (seen', n') := Seen(Transitioned(o, t.0, t.1), status);
            var first := t.1 == Some(status) && t.0 != "" && t.0 !in seen;
            seen' == (if first then seen + {t.0} else seen) && n' == (if first then n + 1 else n)
  {
  }

  ghost predicate SeenExactly(o: Outcomes, status: OrderStatus, links: set<string>)
    requires status != New
  {
    Seen(o, status) == (links, |links|)
  }

  lemma TransitionKeepsExact(o: Outcomes, status: OrderStatus, links: set<string>, t: Transition)
    requires status != New && SeenExactly(o, status, links)
    ensures SeenExactly(Transitioned(o, t.0, t.1), status,
                        links + if t.1 == Some(status) && t.0 != "" then {t.0} else {})
  {
    TransitionSees(o, t, status);
    if t.0 in links { assert links + {t.0} == links; }
    assert links + {} == links;
  }

  // Whatever the sequence of updates, duplicates and returns to an earlier status included, each count is the number
  // of distinct link ids that ever reached the status.
  lemma {:induction false} CountsAreDistinctLinks(ts: seq<Transition>, status: OrderStatus)
    requires status != New
    ensures SeenExactly(Replayed(FreshOutcomes, ts), status, Reached(ts, status))
  {
    if ts == [] {
      assert Reached(ts, status) == {};
    } else {
      var before, t := ts[..|ts| - 1], ts[|ts| - 1];
      CountsAreDistinctLinks(before, status);
      assert ts == before + [t];
      ReachedOneMore(before, t, status);
      TransitionKeepsExact(Replayed(FreshOutcomes, before), status, Reached(before, status), t);
    }
  }
}
