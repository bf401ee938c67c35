// Pairing the decisions of a ledger with order intents and fills.
module DecisionExport {
  import opened Common

  datatype Kind = Decision | OrderIntent | Fill | Other

  // The payload fields the export reads; the rest are copied into the record by name.
  datatype LedgerEvent = LedgerEvent(
    kind: Kind, timestamp: int, symbol: Option<string>, linkId: Option<string>, fields: map<string, string>) {

    // A decision without a symbol reads as the empty symbol, which no intent carries by default.
    function DecisionSymbol(): string { if symbol.Some? then symbol.value else "" }

    predicate Linked() { linkId.Some? && linkId.value != "" }

    function Field(name: string): Option<string> { if name in fields then Some(fields[name]) else None }
  }

  datatype Record = Record(
    timestamp: int, symbol: string, action: string, side: Option<string>, qty: string, referencePrice: Option<string>,
    linkId: Option<string>, filled: bool, fillTimestamp: Option<int>, fillQty: Option<string>,
    fillPrice: Option<string>, riskApproved: bool, riskReason: Option<string>, confidence: Option<string>)

  // For each decision, or intent, the index it was paired with.
  type Choice = seq<Option<nat>>

  function Select(events: seq<LedgerEvent>, kind: Kind): seq<LedgerEvent> {
    if events == [] then []
    else
      Select(events[..|events| - 1], kind) +
      if events[|events| - 1].kind == kind then [events[|events| - 1]] else []
  }

  // Selecting keeps the events of the kind, in order.
  lemma {:induction false} SelectIsFilter(a: seq<LedgerEvent>, b: seq<LedgerEvent>, kind: Kind)
    ensures Select(a + b, kind) == Select(a, kind) + Select(b, kind)
    ensures |b| == 1 ==> Select(b, kind) == if b[0].kind == kind then b else []
    decreases |b|
  {
    if b == [] {
      assert a + b == a;
    } else {
      var last := b[|b| - 1];
      assert (a + b)[..|a + b| - 1] == a + b[..|b| - 1];
      SelectIsFilter(a, b[..|b| - 1], kind);
      if |b| == 1 { assert b[..0] == [] && b == [last]; }
    }
  }

  // ---------------------------------------------------------------------------------------------
  // Choosing an intent for a decision, and a fill for an intent.

  // Not yet used, of the symbol, and no earlier than given.
  predicate Eligible(xs: seq<LedgerEvent>, used: set<nat>, symbol: string, since: Option<int>, i: nat)
    requires i < |xs|
  {
    i !in used && xs[i].symbol == Some(symbol) && (since.Some? ==> xs[i].timestamp >= since.value)
  }

  // The first eligible event from index i on.
  function FirstFrom(xs: seq<LedgerEvent>, used: set<nat>, symbol: string, since: Option<int>, i: nat): (r: Option<nat>)
    requires i <= |xs|
    ensures r.Some? ==> i <= r.value < |xs| && Eligible(xs, used, symbol, since, r.value)
                        && forall j | i <= j < r.value :: !Eligible(xs, used, symbol, since, j)
    ensures r.None? ==> forall j | i <= j < |xs| :: !Eligible(xs, used, symbol, since, j)
    decreases |xs| - i
  {
    if i == |xs| then None
    else if Eligible(xs, used, symbol, since, i) then Some(i) else FirstFrom(xs, used, symbol, since, i + 1)
  }

  // The first unused intent of the symbol not earlier than the decision, else the first unused one of the symbol.
  function PickIntent(intents: seq<LedgerEvent>, used: set<nat>, d: LedgerEvent): (r: Option<nat>)
    ensures r.Some? ==> r.value < |intents| && r.value !in used && intents[r.value].symbol == Some(d.DecisionSymbol())
    ensures r.None? ==> forall j | 0 <= j < |intents| :: !Eligible(intents, used, d.DecisionSymbol(), None, j)
  {
    var later := FirstFrom(intents, used, d.DecisionSymbol(), Some(d.timestamp), 0);
    if later.Some? then later else FirstFrom(intents, used, d.DecisionSymbol(), None, 0)
  }

  ghost function Used(a: Choice): set<nat> { set i | 0 <= i < |a| && a[i].Some? :: a[i].value }

  // The intent chosen for each decision, in order.
  ghost function AssignIntents(ds: seq<LedgerEvent>, intents: seq<LedgerEvent>): (a: Choice)
    ensures |a| == |ds|
  {
    if ds == [] then []
    else
      var before := AssignIntents(ds[..|ds| - 1], intents);
      before + [PickIntent(intents, Used(before), ds[|ds| - 1])]
  }

  // The index of the last fill carrying a link id.
  function LastWithLink(fills: seq<LedgerEvent>, link: string): (r: Option<nat>)
    ensures r.Some? ==> r.value < |fills| && fills[r.value].linkId == Some(link)
                        && forall j | r.value < j < |fills| :: fills[j].linkId != Some(link)
    ensures r.None? ==> forall j | 0 <= j < |fills| :: fills[j].linkId != Some(link)
  {
    if fills == [] then None
    else if fills[|fills| - 1].linkId == Some(link) then Some(|fills| - 1)
    else LastWithLink(fills[..|fills| - 1], link)
  }

  // A linked intent takes its link's fill, used or not; an unlinked one the first unused fill of the symbol after it.
  function PickFill(fills: seq<LedgerEvent>, used: set<nat>, intent: LedgerEvent, symbol: string): (r: Option<nat>)
    ensures r.Some? ==> r.value < |fills|
  {
    if intent.Linked() then LastWithLink(fills, intent.linkId.value)
    else FirstFrom(fills, used, symbol, Some(intent.timestamp), 0)
  }

  // The fills taken by unlinked intents; only these are remembered as used.
  ghost function UsedFills(intents: seq<LedgerEvent>, a: Choice, f: Choice): set<nat>
    requires |f| <= |a| && forall i | 0 <= i < |a| && a[i].Some? :: a[i].value < |intents|
  {
    set i | 0 <= i < |f| && f[i].Some? && a[i].Some? && !intents[a[i].value].Linked() :: f[i].value
  }

  ghost predicate InRange(a: Choice, n: nat) { forall i | 0 <= i < |a| && a[i].Some? :: a[i].value < n }

  lemma {:induction false} AssignedInRange(ds: seq<LedgerEvent>, intents: seq<LedgerEvent>)
    ensures InRange(AssignIntents(ds, intents), |intents|)
  {
    if ds != [] { AssignedInRange(ds[..|ds| - 1], intents); }
  }

  ghost function AssignFills(ds: seq<LedgerEvent>, intents: seq<LedgerEvent>, fills: seq<LedgerEvent>, a: Choice)
    : (f: Choice)
    requires |a| == |ds| && InRange(a, |intents|)
    ensures |f| == |ds| && InRange(f, |fills|)
  {
    if ds == [] then []
    else
      var n := |ds| - 1;
      var before := AssignFills(ds[..n], intents, fills, a[..n]);
      before + [if a[n].None? then None
                else PickFill(fills, UsedFills(intents, a[..n], before), intents[a[n].value], ds[n].DecisionSymbol())]
  }

  function MakeRecord(d: LedgerEvent, intent: Option<LedgerEvent>, fill: Option<LedgerEvent>): Record {
    Record(
      d.timestamp, d.DecisionSymbol(), if d.Field("action").Some? then d.Field("action").value else "",
      if intent.Some? then intent.value.Field("side") else None,
      if intent.Some? && intent.value.Field("qty").Some? then intent.value.Field("qty").value else "",
      if intent.Some? then intent.value.Field("reference_price") else None,
      if intent.Some? then intent.value.linkId else None,
      fill.Some?, if fill.Some? then Some(fill.value.timestamp) else None,
      if fill.None? then None
      else if fill.value.Field("exec_qty").Some? then fill.value.Field("exec_qty")
      else if fill.value.Field("qty").Some? then fill.value.Field("qty") else Some(""),
      if fill.None? then None
      else if fill.value.Field("exec_price").Some? then fill.value.Field("exec_price") else Some(""),
      intent.Some?, if intent.Some? then None else Some("no_intent_recorded"), d.Field("confidence"))
  }

  function Lookup(xs: seq<LedgerEvent>, i: Option<nat>): Option<LedgerEvent>
    requires i.Some? ==> i.value < |xs|
  {
    if i.Some? then Some(xs[i.value]) else None
  }

  // The record says of a decision what the ledger does: its own fields, those of the intent and of the fill it was
  // paired with, and whether there was one.
  ghost predicate Says(r: Record, d: LedgerEvent, intent: Option<LedgerEvent>, fill: Option<LedgerEvent>) {
    && r.timestamp == d.timestamp && Some(r.symbol) == (if d.symbol == None then Some("") else d.symbol)
    && r.action == (if "action" in d.fields then d.fields["action"] else "")
    && r.confidence == d.Field("confidence")
    && r.riskApproved == intent.Some? && r.filled == fill.Some?
    && (r.riskReason == None <==> r.riskApproved) && (!r.riskApproved ==> r.riskReason == Some("no_intent_recorded"))
    && (intent == None ==> r.side == None && r.qty == "" && r.referencePrice == None && r.linkId == None)
    && (intent.Some? ==> IntentSaid(r, intent.value))
    && (fill == None ==> r.fillTimestamp == None && r.fillQty == None && r.fillPrice == None)
    && (fill.Some? ==> FillSaid(r, fill.value))
  }

  ghost predicate IntentSaid(r: Record, i: LedgerEvent) {
    && r.side == i.Field("side") && r.referencePrice == i.Field("reference_price") && r.linkId == i.linkId
    && r.qty == if "qty" in i.fields then i.fields["qty"] else ""
  }

  // The executed quantity comes before the event's quantity.
  ghost predicate FillSaid(r: Record, x: LedgerEvent) {
    && r.fillTimestamp == Some(x.timestamp)
    && r.fillPrice == Some(if "exec_price" in x.fields then x.fields["exec_price"] else "")
    && r.fillQty == Some(if "exec_qty" in x.fields then x.fields["exec_qty"]
                         else if "qty" in x.fields then x.fields["qty"] else "")
  }

  // One record per decision, in order, made of the decision and the events it was paired with.
  ghost predicate Recorded(
    records: seq<Record>, ds: seq<LedgerEvent>, intents: seq<LedgerEvent>, fills: seq<LedgerEvent>, a: Choice,
    f: Choice)
    requires |records| == |a| == |f| <= |ds| && InRange(a, |intents|) && InRange(f, |fills|)
  {
    forall i | 0 <= i < |records| :: Says(records[i], ds[i], Lookup(intents, a[i]), Lookup(fills, f[i]))
  }

  lemma RecordedOneMore(
    records: seq<Record>, ds: seq<LedgerEvent>, intents: seq<LedgerEvent>, fills: seq<LedgerEvent>, a: Choice,
    f: Choice,
    intent: Option<nat>, fill: Option<nat>)
    requires |records| == |a| == |f| < |ds| && InRange(a, |intents|) && InRange(f, |fills|)
    requires Recorded(records, ds, intents, fills, a, f)
    requires (intent.Some? ==> intent.value < |intents|) && (fill.Some? ==> fill.value < |fills|)
    ensures Recorded(records + [MakeRecord(ds[|a|], Lookup(intents, intent), Lookup(fills, fill))], ds, intents, fills,
                     a + [intent], f + [fill])
  {
  }

  // ---------------------------------------------------------------------------------------------
  // The export as it runs.

  // The records say of each decision what the ledger does, with the intents and fills as they are assigned.
  ghost predicate Exports(events: seq<LedgerEvent>, records: seq<Record>) {
    var ds, intents, fills := Select(events, Decision), Select(events, OrderIntent), Select(events, Fill);
    var a := AssignIntents(ds, intents);
    && InRange(a, |intents|) && |records| == |ds|
    && Recorded(records, ds, intents, fills, a, AssignFills(ds, intents, fills, a))
  }

  method ExtractDecisionRecords(events: seq<LedgerEvent>)
    returns (records: seq<Record>, ghost a: Choice, ghost f: Choice)
    ensures Exports(events, records)
    ensures var ds, intents, fills := Select(events, Decision), Select(events, OrderIntent), Select(events, Fill);
            && a == AssignIntents(ds, intents) && InRange(a, |intents|)
            && f == AssignFills(ds, intents, fills, a)
            && |records| == |ds| && Recorded(records, ds, intents, fills, a, f)
  {
    var ds, intents, fills := Partition(events);
    var byLink := IndexFills(fills);
    var usedIntents: set<nat>, usedFills: set<nat> := {}, {};
    records, a, f := [], [], [];
    for n := 0 to |ds|
      invariant Exported(ds, intents, fills, n, records, a, f, usedIntents, usedFills)
    {
      records, a, f, usedIntents, usedFills :=
        ExportNext(ds, intents, fills, byLink, n, records, a, f, usedIntents, usedFills);
    }
    assert ds[..|ds|] == ds;
  }

  // The first n decisions have been exported.
  ghost predicate Exported(
    ds: seq<LedgerEvent>, intents: seq<LedgerEvent>, fills: seq<LedgerEvent>, n: nat, records: seq<Record>, a: Choice,
    f: Choice, usedIntents: set<nat>, usedFills: set<nat>)
  {
    && n <= |ds| && |records| == |a| == |f| == n
    && a == AssignIntents(ds[..n], intents) && InRange(a, |intents|) && usedIntents == Used(a)
    && f == AssignFills(ds[..n], intents, fills, a) && usedFills == UsedFills(intents, a, f)
    && Recorded(records, ds, intents, fills, a, f)
  }

  method ExportNext(
    ds: seq<LedgerEvent>, intents: seq<LedgerEvent>, fills: seq<LedgerEvent>, byLink: map<string, nat>, n: nat,
    before: seq<Record>, ghost a: Choice, ghost f: Choice, usedBefore: set<nat>, fillsBefore: set<nat>)
    returns (records: seq<Record>, ghost a': Choice, ghost f': Choice, usedIntents: set<nat>, usedFills: set<nat>)
    requires n < |ds| && IndexesLinks(byLink, fills)
    requires Exported(ds, intents, fills, n, before, a, f, usedBefore, fillsBefore)
    ensures Exported(ds, intents, fills, n + 1, records, a', f', usedIntents, usedFills)
  {
    var intent, fill := Pair(intents, fills, byLink, usedBefore, fillsBefore, ds[n]);
    OneMoreDecision(ds, intents, fills, n, a, f, intent, fill);
    RecordedOneMore(before, ds, intents, fills, a, f, intent, fill);
    usedIntents, usedFills := usedBefore, fillsBefore;
    if intent.Some? { usedIntents := usedIntents + {intent.value}; }
    if fill.Some? && !intents[intent.value].Linked() { usedFills := usedFills + {fill.value}; }
    records := before + [MakeRecord(ds[n], Lookup(intents, intent), Lookup(fills, fill))];
    a', f' := a + [intent], f + [fill];
  }

  // Every link id some fill carries, with the last such fill.
  ghost predicate IndexesLinks(byLink: map<string, nat>, fills: seq<LedgerEvent>) {
    && (forall k :: k in byLink <==> k != "" && LastWithLink(fills, k).Some?)
    && (forall k | k in byLink :: LastWithLink(fills, k) == Some(byLink[k]))
  }

  method Pair(
    intents: seq<LedgerEvent>, fills: seq<LedgerEvent>, byLink: map<string, nat>, usedIntents: set<nat>,
    usedFills: set<nat>, d: LedgerEvent)
    returns (intent: Option<nat>, fill: Option<nat>)
    requires IndexesLinks(byLink, fills)
    ensures intent == PickIntent(intents, usedIntents, d)
    ensures fill == if intent.None? then None
                    else PickFill(fills, usedFills, intents[intent.value], d.DecisionSymbol())
  {
    intent := FindIntent(intents, usedIntents, d);
    fill := None;
    if intent.Some? { fill := FindFill(fills, byLink, usedFills, intents[intent.value], d.DecisionSymbol()); }
  }

  lemma OneMoreDecision(
    ds: seq<LedgerEvent>, intents: seq<LedgerEvent>, fills: seq<LedgerEvent>, n: nat, a: Choice, f: Choice,
    intent: Option<nat>, fill: Option<nat>)
    requires n < |ds| && a == AssignIntents(ds[..n], intents) && InRange(a, |intents|)
    requires f == AssignFills(ds[..n], intents, fills, a)
    requires intent == PickIntent(intents, Used(a), ds[n])
    requires fill == if intent.None? then None
                     else PickFill(fills, UsedFills(intents, a, f), intents[intent.value], ds[n].DecisionSymbol())
    ensures a + [intent] == AssignIntents(ds[..n + 1], intents) && InRange(a + [intent], |intents|)
    ensures f + [fill] == AssignFills(ds[..n + 1], intents, fills, a + [intent])
    ensures Used(a + [intent]) == Used(a) + if intent.Some? then {intent.value} else {}
    ensures UsedFills(intents, a + [intent], f + [fill])
            == UsedFills(intents, a, f) + if fill.Some? && !intents[intent.value].Linked() then {fill.value} else {}
  {
    assert ds[..n + 1][..n] == ds[..n] && (a + [intent])[..n] == a;
    UsedOneMore(a, intent);
    UsedFillsOneMore(intents, a, f, intent, fill);
  }

  lemma UsedOneMore(a: Choice, x: Option<nat>)
    ensures Used(a + [x]) == Used(a) + if x.Some? then {x.value} else {}
  {
    var b := a + [x];
    forall i | 0 <= i < |a| && a[i].Some? ensures a[i].value in Used(b) { assert b[i] == a[i]; }
    if x.Some? { assert b[|a|] == x; }
  }

  lemma UsedFillsOneMore(intents: seq<LedgerEvent>, a: Choice, f: Choice, x: Option<nat>, y: Option<nat>)
    requires |a| == |f| && InRange(a, |intents|) && (x.Some? ==> x.value < |intents|) && (y.Some? ==> x.Some?)
    ensures UsedFills(intents, a + [x], f + [y])
            == UsedFills(intents, a, f) + if y.Some? && !intents[x.value].Linked() then {y.value} else {}
  {
    var b, g := a + [x], f + [y];
    assert b[|a|] == x && g[|f|] == y;
    forall i | 0 <= i < |f| ensures b[i] == a[i] && g[i] == f[i] { }
  }

  method Partition(events: seq<LedgerEvent>)
    returns (ds: seq<LedgerEvent>, intents: seq<LedgerEvent>, fills: seq<LedgerEvent>)
    ensures ds == Select(events, Decision) && intents == Select(events, OrderIntent) && fills == Select(events, Fill)
  {
    ds, intents, fills := [], [], [];
    for i := 0 to |events|
      invariant ds == Select(events[..i], Decision) && intents == Select(events[..i], OrderIntent)
      invariant fills == Select(events[..i], Fill)
    {
      assert events[..i + 1][..i] == events[..i];
      match events[i].kind
      case Decision => ds := ds + [events[i]];
      case OrderIntent => intents := intents + [events[i]];
      case Fill => fills := fills + [events[i]];
      case Other =>
    }
    assert events[..|events|] == events;
  }

  method IndexFills(fills: seq<LedgerEvent>) returns (byLink: map<string, nat>)
    ensures IndexesLinks(byLink, fills)
  {
    byLink := map[];
    for i := 0 to |fills|
      invariant IndexesLinks(byLink, fills[..i])
    {
      assert fills[..i + 1][..i] == fills[..i];
      if fills[i].Linked() { byLink := byLink[fills[i].linkId.value := i]; }
    }
    assert fills[..|fills|] == fills;
  }

  method FindIntent(intents: seq<LedgerEvent>, used: set<nat>, d: LedgerEvent) returns (r: Option<nat>)
    ensures r == PickIntent(intents, used, d)
  {
    r := FindFirst(intents, used, d.DecisionSymbol(), Some(d.timestamp));
    if r.None? { r := FindFirst(intents, used, d.DecisionSymbol(), None); }
  }

  method FindFirst(xs: seq<LedgerEvent>, used: set<nat>, symbol: string, since: Option<int>) returns (r: Option<nat>)
    ensures r == FirstFrom(xs, used, symbol, since, 0)
  {
    for i := 0 to |xs|
      invariant FirstFrom(xs, used, symbol, since, 0) == FirstFrom(xs, used, symbol, since, i)
    {
      if i in used { continue; }
      if xs[i].symbol != Some(symbol) { continue; }
      if since.Some? && xs[i].timestamp < since.value { continue; }
      return Some(i);
    }
    return None;
  }

  method FindFill(fills: seq<LedgerEvent>, byLink: map<string, nat>, used: set<nat>, intent: LedgerEvent,
      symbol: string)
    returns (r: Option<nat>)
    requires IndexesLinks(byLink, fills)
    ensures r == PickFill(fills, used, intent, symbol)
  {
    r := None;
    if intent.Linked() && intent.linkId.value in byLink {
      r := Some(byLink[intent.linkId.value]);
    } else if !intent.Linked() {
      r := FindFirst(fills, used, symbol, Some(intent.timestamp));
    }
  }

  // ---------------------------------------------------------------------------------------------
  // Which intent and which fill each decision gets.

  // The intents of the decision's symbol that no earlier decision took.
  ghost function FreeIntents(ds: seq<LedgerEvent>, intents: seq<LedgerEvent>, a: Choice, i: nat): set<nat>
    requires i < |ds| && i <= |a|
  {
    set j: nat | j < |intents| && intents[j].symbol == Some(ds[i].DecisionSymbol())
                 && forall k | 0 <= k < i :: a[k] != Some(j)
  }

  // The decision takes the first free intent not earlier than itself, failing that the first free one, and none only if
  // there is none.
  ghost predicate TakesIntent(ds: seq<LedgerEvent>, intents: seq<LedgerEvent>, a: Choice, i: nat)
    requires i < |ds| && i < |a|
  {
    var free := FreeIntents(ds, intents, a, i);
    match a[i]
    case None => free == {}
    case Some(j) =>
      && j in free
      && if intents[j].timestamp >= ds[i].timestamp
         then forall l | l in free && intents[l].timestamp >= ds[i].timestamp :: j <= l
         else forall l | l in free :: intents[l].timestamp < ds[i].timestamp && j <= l
  }

  lemma {:induction false} DecisionTakesIntent(ds: seq<LedgerEvent>, intents: seq<LedgerEvent>, i: nat)
    requires i < |ds|
    ensures TakesIntent(ds, intents, AssignIntents(ds, intents), i)
  {
    var n, a := |ds| - 1, AssignIntents(ds, intents);
    var before := AssignIntents(ds[..n], intents);
    assert a[..n] == before;
    if i < n {
      DecisionTakesIntent(ds[..n], intents, i);
      SameFree(ds, ds[..n], intents, a, before, i);
    } else {
      PickIsFirst(intents, Used(before), ds[n]);
      FreeIsUnused(ds, intents, a, before, i);
    }
  }

  lemma SameFree(
    ds: seq<LedgerEvent>, ds': seq<LedgerEvent>, intents: seq<LedgerEvent>, a: Choice, a': Choice, i: nat)
    requires i < |ds| && i < |ds'| && i < |a| && i < |a'| && ds[i] == ds'[i] && forall k | 0 <= k <= i :: a[k] == a'[k]
    ensures FreeIntents(ds, intents, a, i) == FreeIntents(ds', intents, a', i)
  {
  }

  lemma FreeIsUnused(ds: seq<LedgerEvent>, intents: seq<LedgerEvent>, a: Choice, before: Choice, i: nat)
    requires i < |ds| && i == |before| < |a| && a[..i] == before
    ensures FreeIntents(ds, intents, a, i)
         == set j: nat | j < |intents| && Eligible(intents, Used(before), ds[i].DecisionSymbol(), None, j)
  {
    forall j: nat ensures j in Used(before) <==> exists k :: 0 <= k < i && a[k] == Some(j) {
      if k :| 0 <= k < i && a[k] == Some(j) { assert before[k] == Some(j); }
    }
  }

  // What is picked, among the unused intents of the symbol.
  lemma PickIsFirst(intents: seq<LedgerEvent>, used: set<nat>, d: LedgerEvent)
    ensures var open := set j: nat | j < |intents| && Eligible(intents, used, d.DecisionSymbol(), None, j);
            match PickIntent(intents, used, d)
            case None => open == {}
            case Some(j) =>
              && j in open
              && if intents[j].timestamp >= d.timestamp
                 then forall l | l in open && intents[l].timestamp >= d.timestamp :: j <= l
                 else forall l | l in open :: intents[l].timestamp < d.timestamp && j <= l
  {
    forall j: nat | j < |intents| && Eligible(intents, used, d.DecisionSymbol(), None, j)
                    && intents[j].timestamp >= d.timestamp
      ensures Eligible(intents, used, d.DecisionSymbol(), Some(d.timestamp), j)
    {
    }
  }

  // A decision without an intent gets no fill; one with a linked intent the last fill of that link, taken or not; one
  // with an unlinked intent the first fill of its symbol that is not earlier than the intent and that no earlier
  // decision with an unlinked intent took.
  ghost predicate TakesFill(
    ds: seq<LedgerEvent>, intents: seq<LedgerEvent>, fills: seq<LedgerEvent>, a: Choice, f: Choice, i: nat)
    requires i < |ds| && |ds| == |a| == |f| && InRange(a, |intents|) && InRange(f, |fills|)
  {
    if a[i] == None then f[i] == None
    else if intents[a[i].value].Linked() then
      var mine := set j: nat | j < |fills| && fills[j].linkId == intents[a[i].value].linkId;
      if f[i] == None then mine == {} else f[i].value in mine && forall j | j in mine :: j <= f[i].value
    else
      var mine := FreeFills(ds, intents, fills, a, f, i);
      if f[i] == None then mine == {} else f[i].value in mine && forall j | j in mine :: f[i].value <= j
  }

  ghost function FreeFills(
    ds: seq<LedgerEvent>, intents: seq<LedgerEvent>, fills: seq<LedgerEvent>, a: Choice, f: Choice, i: nat): set<nat>
    requires i < |ds| && |ds| == |a| == |f| && InRange(a, |intents|) && InRange(f, |fills|) && a[i].Some?
  {
    set j: nat | j < |fills| && fills[j].symbol == Some(ds[i].DecisionSymbol())
                 && fills[j].timestamp >= intents[a[i].value].timestamp
                 && forall k | 0 <= k < i && a[k].Some? && !intents[a[k].value].Linked() :: f[k] != Some(j)
  }

  lemma {:induction false} DecisionTakesFill(
    ds: seq<LedgerEvent>, intents: seq<LedgerEvent>, fills: seq<LedgerEvent>, a: Choice, i: nat)
    requires i < |ds| == |a| && InRange(a, |intents|)
    ensures TakesFill(ds, intents, fills, a, AssignFills(ds, intents, fills, a), i)
  {
    var n, f := |ds| - 1, AssignFills(ds, intents, fills, a);
    var before := AssignFills(ds[..n], intents, fills, a[..n]);
    assert f[..n] == before;
    if i < n {
      DecisionTakesFill(ds[..n], intents, fills, a[..n], i);
      if a[i].Some? { SameFreeFills(ds, intents, fills, a, f, n, i); }
    } else if a[n].Some? && !intents[a[n].value].Linked() {
      FreeFillIsUnused(ds, intents, fills, a, f);
    }
  }

  lemma SameFreeFills(
    ds: seq<LedgerEvent>, intents: seq<LedgerEvent>, fills: seq<LedgerEvent>, a: Choice, f: Choice, n: nat, i: nat)
    requires i < n <= |ds| == |a| == |f| && InRange(a, |intents|) && InRange(f, |fills|) && a[i].Some?
    ensures FreeFills(ds[..n], intents, fills, a[..n], f[..n], i) == FreeFills(ds, intents, fills, a, f, i)
  {
  }

  lemma FreeFillIsUnused(
    ds: seq<LedgerEvent>, intents: seq<LedgerEvent>, fills: seq<LedgerEvent>, a: Choice, f: Choice)
    requires |ds| == |a| == |f| > 0 && InRange(a, |intents|) && InRange(f, |fills|) && a[|ds| - 1].Some?
    ensures var n := |ds| - 1;
            var used := UsedFills(intents, a[..n], f[..n]);
            FreeFills(ds, intents, fills, a, f, n)
            == set j: nat | j < |fills| && Eligible(fills, used, ds[n].DecisionSymbol(),
                                                    Some(intents[a[n].value].timestamp), j)
  {
    var n := |ds| - 1;
    var used := UsedFills(intents, a[..n], f[..n]);
    forall j: nat
      ensures j in used <==> exists k :: 0 <= k < n && a[k].Some? && !intents[a[k].value].Linked() && f[k] == Some(j)
    {
      if k :| 0 <= k < n && a[k].Some? && !intents[a[k].value].Linked() && f[k] == Some(j) {
        assert a[..n][k] == a[k] && f[..n][k] == f[k];
      }
    }
    var free := set j: nat | j < |fills| && Eligible(fills, used, ds[n].DecisionSymbol(),
                                                     Some(intents[a[n].value].timestamp), j);
    forall j: nat ensures j in FreeFills(ds, intents, fills, a, f, n) <==> j in free { }
  }

  // ---------------------------------------------------------------------------------------------
  // The pairing of decisions with intents is maximum, whatever the timestamps.

  // Pairs equal symbols only and no intent twice.
  ghost predicate Matching(ds: seq<LedgerEvent>, intents: seq<LedgerEvent>, a: Choice) {
    && |a| == |ds| && InRange(a, |intents|)
    && (forall i | 0 <= i < |a| && a[i].Some? :: intents[a[i].value].symbol == Some(ds[i].DecisionSymbol()))
    && (forall i, j | 0 <= i < j < |a| && a[i].Some? && a[j].Some? :: a[i].value != a[j].value)
  }

  lemma {:induction false} AssignedIsMatching(ds: seq<LedgerEvent>, intents: seq<LedgerEvent>)
    ensures Matching(ds, intents, AssignIntents(ds, intents))
  {
    if ds != [] {
      AssignedIsMatching(ds[..|ds| - 1], intents);
      var before := AssignIntents(ds[..|ds| - 1], intents);
      forall i | 0 <= i < |before| && before[i].Some? ensures before[i].value in Used(before) { }
    }
  }

  // The decisions of the given symbols that are paired.
  ghost function PairedCount(ds: seq<LedgerEvent>, a: Choice, symbols: set<string>): nat
    requires |a| == |ds|
  {
    if ds == [] then 0
    else
      PairedCount(ds[..|ds| - 1], a[..|a| - 1], symbols) +
      if a[|a| - 1].Some? && ds[|ds| - 1].DecisionSymbol() in symbols then 1 else 0
  }

  ghost function DecisionCount(ds: seq<LedgerEvent>, symbol: string): nat {
    if ds == [] then 0
    else DecisionCount(ds[..|ds| - 1], symbol) + if ds[|ds| - 1].DecisionSymbol() == symbol then 1 else 0
  }

  ghost function IntentsOf(intents: seq<LedgerEvent>, symbol: string): set<nat> {
    set i: nat | i < |intents| && intents[i].symbol == Some(symbol)
  }

  // The intents paired with decisions of one symbol.
  ghost function UsedFor(ds: seq<LedgerEvent>, a: Choice, symbol: string): set<nat>
    requires |a| == |ds|
  {
    set i | 0 <= i < |a| && a[i].Some? && ds[i].DecisionSymbol() == symbol :: a[i].value
  }

  ghost function Min(x: nat, y: nat): nat { if x <= y then x else y }

  lemma UsedForOneMore(ds: seq<LedgerEvent>, a: Choice, symbol: string)
    requires |a| == |ds| > 0
    ensures var n := |ds| - 1;
            UsedFor(ds, a, symbol)
            == UsedFor(ds[..n], a[..n], symbol)
               + if a[n].Some? && ds[n].DecisionSymbol() == symbol then {a[n].value} else {}
  {
    var n := |ds| - 1;
    forall i | 0 <= i < n ensures a[..n][i] == a[i] && ds[..n][i] == ds[i] { }
  }

  // In a matching, the paired decisions of a symbol use as many intents, all of that symbol.
  lemma {:induction false} UsedForSize(ds: seq<LedgerEvent>, intents: seq<LedgerEvent>, a: Choice, symbol: string)
    requires Matching(ds, intents, a)
    ensures |UsedFor(ds, a, symbol)| == PairedCount(ds, a, {symbol}) <= DecisionCount(ds, symbol)
    ensures UsedFor(ds, a, symbol) <= IntentsOf(intents, symbol)
  {
    if ds == [] {
      assert UsedFor(ds, a, symbol) == {};
    } else {
      var n := |ds| - 1;
      UsedForSize(ds[..n], intents, a[..n], symbol);
      UsedForOneMore(ds, a, symbol);
      if a[n].Some? { assert a[n].value !in UsedFor(ds[..n], a[..n], symbol); }
    }
  }

  lemma SubsetSize(a: set<nat>, b: set<nat>)
    requires a <= b
    ensures |a| <= |b| && (|a| == |b| ==> a == b)
  {
    assert b == a + (b - a) && |b| == |a| + |b - a|;
  }

  lemma AnyMatchingBound(ds: seq<LedgerEvent>, intents: seq<LedgerEvent>, a: Choice, symbol: string)
    requires Matching(ds, intents, a)
    ensures PairedCount(ds, a, {symbol}) <= Min(DecisionCount(ds, symbol), |IntentsOf(intents, symbol)|)
  {
    UsedForSize(ds, intents, a, symbol);
    SubsetSize(UsedFor(ds, a, symbol), IntentsOf(intents, symbol));
  }

  lemma UsedOfSymbol(ds: seq<LedgerEvent>, intents: seq<LedgerEvent>, a: Choice, symbol: string)
    requires Matching(ds, intents, a)
    ensures Used(a) * IntentsOf(intents, symbol) == UsedFor(ds, a, symbol)
  {
  }

  // A decision is paired exactly when the ones before it have not used up the intents of its symbol.
  lemma {:induction false} PairedIfAnyLeft(ds: seq<LedgerEvent>, intents: seq<LedgerEvent>)
    requires ds != []
    ensures var n, symbol := |ds| - 1, ds[|ds| - 1].DecisionSymbol();
            var before := AssignIntents(ds[..n], intents);
            AssignIntents(ds, intents)[n].Some?
            <==> PairedCount(ds[..n], before, {symbol}) < |IntentsOf(intents, symbol)|
  {
    var n, symbol := |ds| - 1, ds[|ds| - 1].DecisionSymbol();
    var before := AssignIntents(ds[..n], intents);
    AssignedIsMatching(ds[..n], intents);
    UsedForSize(ds[..n], intents, before, symbol);
    UsedOfSymbol(ds[..n], intents, before, symbol);
    SubsetSize(UsedFor(ds[..n], before, symbol), IntentsOf(intents, symbol));
    PairedIffOneLeft(intents, Used(before), ds[n]);
  }

  // The pairs of each symbol number as many as the scarcer of its decisions and its intents.
  lemma {:induction false} AssignedPerSymbol(ds: seq<LedgerEvent>, intents: seq<LedgerEvent>, symbol: string)
    ensures PairedCount(ds, AssignIntents(ds, intents), {symbol})
         == Min(DecisionCount(ds, symbol), |IntentsOf(intents, symbol)|)
  {
    if ds != [] {
      var n := |ds| - 1;
      AssignedPerSymbol(ds[..n], intents, symbol);
      assert AssignIntents(ds, intents)[..n] == AssignIntents(ds[..n], intents);
      if ds[n].DecisionSymbol() == symbol { PairedIfAnyLeft(ds, intents); }
    }
  }

  lemma PairedIffOneLeft(intents: seq<LedgerEvent>, used: set<nat>, d: LedgerEvent)
    ensures PickIntent(intents, used, d).Some?
       <==> used * IntentsOf(intents, d.DecisionSymbol()) != IntentsOf(intents, d.DecisionSymbol())
  {
    var mine := IntentsOf(intents, d.DecisionSymbol());
    if PickIntent(intents, used, d).Some? {
      assert PickIntent(intents, used, d).value in mine;
    } else {
      forall j | j in mine ensures j in used { assert !Eligible(intents, used, d.DecisionSymbol(), None, j); }
      assert used * mine == mine;
    }
  }

  lemma {:induction false} SplitSymbol(ds: seq<LedgerEvent>, a: Choice, symbols: set<string>, symbol: string)
    requires |a| == |ds| && symbol in symbols
    ensures PairedCount(ds, a, symbols) == PairedCount(ds, a, symbols - {symbol}) + PairedCount(ds, a, {symbol})
  {
    if ds != [] { SplitSymbol(ds[..|ds| - 1], a[..|a| - 1], symbols, symbol); }
  }

  lemma {:induction false} NoSymbols(ds: seq<LedgerEvent>, a: Choice)
    requires |a| == |ds|
    ensures PairedCount(ds, a, {}) == 0
  {
    if ds != [] { NoSymbols(ds[..|ds| - 1], a[..|a| - 1]); }
  }

  // No pairing of equal symbols, over any set of symbols, pairs more decisions than the export does.
  lemma {:induction false} AssignedIsMaximum(ds: seq<LedgerEvent>, intents: seq<LedgerEvent>, m: Choice,
      symbols: set<string>)
    requires Matching(ds, intents, m)
    ensures PairedCount(ds, m, symbols) <= PairedCount(ds, AssignIntents(ds, intents), symbols)
    decreases symbols
  {
    var a := AssignIntents(ds, intents);
    if symbols == {} {
      NoSymbols(ds, m);
    } else {
      var s :| s in symbols;
      AssignedIsMaximum(ds, intents, m, symbols - {s});
      AnyMatchingBound(ds, intents, m, s);
      AssignedPerSymbol(ds, intents, s);
      SplitSymbol(ds, m, symbols, s);
      SplitSymbol(ds, a, symbols, s);
    }
  }

  // The records approved, and how many the ledger has room for: per symbol, its decisions or its intents, whichever are
  // fewer.
  function ApprovedCount(records: seq<Record>): nat {
    if records == [] then 0
    else ApprovedCount(records[..|records| - 1]) + if records[|records| - 1].riskApproved then 1 else 0
  }

  ghost function Room(ds: seq<LedgerEvent>, intents: seq<LedgerEvent>, symbols: seq<string>): nat {
    if symbols == [] then 0
    else
      var s := symbols[|symbols| - 1];
      Room(ds, intents, symbols[..|symbols| - 1]) + Min(DecisionCount(ds, s), |IntentsOf(intents, s)|)
  }

  lemma {:induction false} PairedIsRoom(ds: seq<LedgerEvent>, intents: seq<LedgerEvent>, symbols: seq<string>)
    requires Distinct(symbols)
    ensures PairedCount(ds, AssignIntents(ds, intents), Elements(symbols)) == Room(ds, intents, symbols)
  {
    var a := AssignIntents(ds, intents);
    if symbols == [] {
      NoSymbols(ds, a);
      assert Elements(symbols) == {};
    } else {
      var rest, s := symbols[..|symbols| - 1], symbols[|symbols| - 1];
      PairedIsRoom(ds, intents, rest);
      assert symbols == rest + [s] && Elements(symbols) - {s} == Elements(rest);
      SplitSymbol(ds, a, Elements(symbols), s);
      AssignedPerSymbol(ds, intents, s);
    }
  }

  lemma {:induction false} ApprovedIsPaired(
    records: seq<Record>, ds: seq<LedgerEvent>, intents: seq<LedgerEvent>, fills: seq<LedgerEvent>, a: Choice,
    f: Choice, symbols: set<string>)
    requires |records| == |ds| == |a| == |f| && InRange(a, |intents|) && InRange(f, |fills|)
    requires Recorded(records, ds, intents, fills, a, f) && forall d | d in ds :: d.DecisionSymbol() in symbols
    ensures ApprovedCount(records) == PairedCount(ds, a, symbols)
  {
    if ds != [] {
      var n := |ds| - 1;
      ApprovedIsPaired(records[..n], ds[..n], intents, fills, a[..n], f[..n], symbols);
      assert Says(records[n], ds[n], Lookup(intents, a[n]), Lookup(fills, f[n])) && ds[n] in ds;
    }
  }

  // The export approves as many records as the ledger has room for, whatever the timestamps.
  lemma ApprovedRecordsFillRoom(
    records: seq<Record>, ds: seq<LedgerEvent>, intents: seq<LedgerEvent>, fills: seq<LedgerEvent>, f: Choice,
    symbols: seq<string>)
    requires |records| == |ds| == |f| && InRange(AssignIntents(ds, intents), |intents|) && InRange(f, |fills|)
    requires Recorded(records, ds, intents, fills, AssignIntents(ds, intents), f)
    requires Distinct(symbols) && forall d | d in ds :: d.DecisionSymbol() in symbols
    ensures ApprovedCount(records) == Room(ds, intents, symbols)
  {
    ApprovedIsPaired(records, ds, intents, fills, AssignIntents(ds, intents), f, Elements(symbols));
    PairedIsRoom(ds, intents, symbols);
  }

  // ---------------------------------------------------------------------------------------------
  // Fills.

  ghost predicate UsedOnce(f: Choice) {
    forall i, j | 0 <= i < j < |f| && f[i].Some? && f[j].Some? :: f[i].value != f[j].value
  }

  // Two intents that can end up with the same fill: a linked one takes its link's fill without marking it as used, so
  // that an unlinked one, or another of the same link, may take it too.
  predicate Clash(p: LedgerEvent, q: LedgerEvent) {
    && p.symbol.Some? && q.symbol.Some? && (p.Linked() || q.Linked())
    && (p.Linked() && q.Linked() ==> p.linkId == q.linkId)
  }

  ghost predicate NoClash(intents: seq<LedgerEvent>) {
    forall i, j | 0 <= i < j < |intents| :: !Clash(intents[i], intents[j])
  }

  // The fill of each decision is picked given the fills of the decisions before it.
  lemma {:induction false} FillAt(
    ds: seq<LedgerEvent>, intents: seq<LedgerEvent>, fills: seq<LedgerEvent>, a: Choice, i: nat)
    requires |a| == |ds| && InRange(a, |intents|) && i < |ds|
    ensures var f := AssignFills(ds, intents, fills, a);
            f[i] == if a[i].None? then None
                    else
                      PickFill(fills, UsedFills(intents, a[..i], f[..i]), intents[a[i].value], ds[i].DecisionSymbol())
  {
    var n := |ds| - 1;
    var f := AssignFills(ds, intents, fills, a);
    if i < n {
      FillAt(ds[..n], intents, fills, a[..n], i);
      assert f[..n] == AssignFills(ds[..n], intents, fills, a[..n]);
      assert a[..n][..i] == a[..i] && f[..n][..i] == f[..i];
    } else {
      assert f[..n] == AssignFills(ds[..n], intents, fills, a[..n]);
    }
  }

  // Each fill is used at most once when no two intents clash.
  lemma FillsUsedOnce(ds: seq<LedgerEvent>, intents: seq<LedgerEvent>, fills: seq<LedgerEvent>, a: Choice)
    requires Matching(ds, intents, a) && NoClash(intents)
    ensures UsedOnce(AssignFills(ds, intents, fills, a))
  {
    var f := AssignFills(ds, intents, fills, a);
    forall i, j | 0 <= i < j < |f| && f[i].Some? && f[j].Some? ensures f[i].value != f[j].value {
      FillAt(ds, intents, fills, a, i);
      FillAt(ds, intents, fills, a, j);
      var p, q := a[i].value, a[j].value;
      assert !Clash(intents[p], intents[q]) by { assert p < q || q < p; }
      if !intents[q].Linked() { assert f[i].value in UsedFills(intents, a[..j], f[..j]); }
    }
  }

  lemma IntentsOfOneMore(intents: seq<LedgerEvent>, symbol: string)
    requires intents != []
    ensures var n: nat := |intents| - 1;
            && n !in IntentsOf(intents[..n], symbol)
            && IntentsOf(intents, symbol)
               == IntentsOf(intents[..n], symbol) + if intents[n].symbol == Some(symbol) then {n} else {}
  {
  }

  // When every intent is also wanted, every intent that carries a symbol is chosen.
  lemma {:induction false} EnoughDecisions(ds: seq<LedgerEvent>, intents: seq<LedgerEvent>, symbol: string)
    requires |ds| == |intents| && forall i | 0 <= i < |ds| :: ds[i].symbol == intents[i].symbol
    ensures DecisionCount(ds, symbol) >= |IntentsOf(intents, symbol)|
  {
    if ds == [] {
      assert IntentsOf(intents, symbol) == {};
    } else {
      var n := |ds| - 1;
      EnoughDecisions(ds[..n], intents[..n], symbol);
      IntentsOfOneMore(intents, symbol);
    }
  }

  lemma ChosenBy(ds: seq<LedgerEvent>, intents: seq<LedgerEvent>, p: nat) returns (i: nat)
    requires |ds| == |intents| && forall i | 0 <= i < |ds| :: ds[i].symbol == intents[i].symbol
    requires p < |intents| && intents[p].symbol.Some?
    ensures i < |ds| && AssignIntents(ds, intents)[i] == Some(p)
  {
    var a, symbol := AssignIntents(ds, intents), intents[p].symbol.value;
    EnoughDecisions(ds, intents, symbol);
    AssignedPerSymbol(ds, intents, symbol);
    AssignedIsMatching(ds, intents);
    UsedForSize(ds, intents, a, symbol);
    SubsetSize(UsedFor(ds, a, symbol), IntentsOf(intents, symbol));
    assert p in UsedFor(ds, a, symbol);
    i :| 0 <= i < |a| && a[i].Some? && ds[i].DecisionSymbol() == symbol && a[i].value == p;
  }

  // With a single fill that both of two clashing intents would take, that fill is used twice: if not by these two, then
  // by the linked one and by whichever unlinked intent came first.
  lemma SharedFillIsReused(
    ds: seq<LedgerEvent>, intents: seq<LedgerEvent>, fill: LedgerEvent, a: Choice, i: nat, j: nat)
    requires Matching(ds, intents, a) && i < |ds| && j < |ds| && i != j && a[i].Some? && a[j].Some?
    requires var p, q := intents[a[i].value], intents[a[j].value];
             && p.Linked() && fill.linkId == p.linkId && q.symbol == Some(ds[j].DecisionSymbol())
             && if q.Linked() then q.linkId == p.linkId else fill.symbol == q.symbol && fill.timestamp >= q.timestamp
    ensures !UsedOnce(AssignFills(ds, intents, [fill], a))
  {
    var f, p, q := AssignFills(ds, intents, [fill], a), intents[a[i].value], intents[a[j].value];
    FillAt(ds, intents, [fill], a, i);
    FillAt(ds, intents, [fill], a, j);
    assert LastWithLink([fill], p.linkId.value) == Some(0);
    assert f[i] == Some(0);
    if f[j] == Some(0) {
      if i < j { assert f[i].value == f[j].value; } else { assert f[j].value == f[i].value; }
    } else {
      assert !Eligible([fill], UsedFills(intents, a[..j], f[..j]), ds[j].DecisionSymbol(), Some(q.timestamp), 0);
      assert 0 in UsedFills(intents, a[..j], f[..j]);
      var k :| 0 <= k < j && f[k].Some? && a[k].Some? && !intents[a[k].value].Linked() && f[k].value == 0;
      assert k != i;
      if i < k { assert f[i].value == f[k].value; } else { assert f[k].value == f[i].value; }
    }
  }

  // Decisions for the symbols of the intents, and the fill two clashing intents share.
  function Wanting(intents: seq<LedgerEvent>): (ds: seq<LedgerEvent>)
    ensures |ds| == |intents| && forall i | 0 <= i < |ds| :: ds[i] == intents[i].(kind := Decision)
  {
    seq(|intents|, i requires 0 <= i < |intents| => intents[i].(kind := Decision))
  }

  function FillFor(p: LedgerEvent, q: LedgerEvent): LedgerEvent {
    LedgerEvent(Fill, if p.Linked() then q.timestamp else p.timestamp, if p.Linked() then q.symbol else p.symbol,
                if p.Linked() then p.linkId else q.linkId, map[])
  }

  lemma ClashReusesFill(intents: seq<LedgerEvent>, p: nat, q: nat)
    requires p < q < |intents| && Clash(intents[p], intents[q])
    ensures var ds := Wanting(intents);
            var a := AssignIntents(ds, intents);
            InRange(a, |intents|) && !UsedOnce(AssignFills(ds, intents, [FillFor(intents[p], intents[q])], a))
  {
    var ds := Wanting(intents);
    var a := AssignIntents(ds, intents);
    AssignedIsMatching(ds, intents);
    var i := ChosenBy(ds, intents, p);
    var j := ChosenBy(ds, intents, q);
    if intents[p].Linked() {
      SharedFillIsReused(ds, intents, FillFor(intents[p], intents[q]), a, i, j);
    } else {
      SharedFillIsReused(ds, intents, FillFor(intents[p], intents[q]), a, j, i);
    }
  }

  // The export of a ledger uses no fill twice.
  ghost predicate FillsOnce(events: seq<LedgerEvent>) {
    var ds, intents := Select(events, Decision), Select(events, OrderIntent);
    AssignedInRange(ds, intents);
    UsedOnce(AssignFills(ds, intents, Select(events, Fill), AssignIntents(ds, intents)))
  }

  lemma {:induction false} SelectConcat(a: seq<LedgerEvent>, b: seq<LedgerEvent>, kind: Kind)
    ensures Select(a + b, kind) == Select(a, kind) + Select(b, kind)
    decreases |b|
  {
    if b == [] {
      assert a + b == a;
    } else {
      assert (a + b)[..|a + b| - 1] == a + b[..|b| - 1];
      SelectConcat(a, b[..|b| - 1], kind);
    }
  }

  lemma {:induction false} SelectAll(s: seq<LedgerEvent>, own: Kind, kind: Kind)
    requires forall e | e in s :: e.kind == own
    ensures Select(s, kind) == if kind == own then s else []
  {
    if s != [] { SelectAll(s[..|s| - 1], own, kind); }
  }

  lemma SelectPart(ds: seq<LedgerEvent>, intents: seq<LedgerEvent>, fill: LedgerEvent, kind: Kind)
    requires (forall d | d in ds :: d.kind == Decision) && (forall i | i in intents :: i.kind == OrderIntent)
    requires fill.kind == Fill
    ensures Select(ds + intents + [fill], kind)
         == (if kind == Decision then ds else []) + (if kind == OrderIntent then intents else [])
            + (if kind == Fill then [fill] else [])
  {
    SelectConcat(ds + intents, [fill], kind);
    SelectConcat(ds, intents, kind);
    SelectAll(ds, Decision, kind);
    SelectAll(intents, OrderIntent, kind);
    SelectAll([fill], Fill, kind);
  }

  lemma SelectLedger(ds: seq<LedgerEvent>, intents: seq<LedgerEvent>, fill: LedgerEvent)
    requires (forall d | d in ds :: d.kind == Decision) && (forall i | i in intents :: i.kind == OrderIntent)
    requires fill.kind == Fill
    ensures var events := ds + intents + [fill];
            && Select(events, Decision) == ds && Select(events, OrderIntent) == intents
            && Select(events, Fill) == [fill]
  {
    SelectPart(ds, intents, fill, Decision);
    SelectPart(ds, intents, fill, OrderIntent);
    SelectPart(ds, intents, fill, Fill);
  }

  lemma NoClashFillsOnce(events: seq<LedgerEvent>)
    requires NoClash(Select(events, OrderIntent))
    ensures FillsOnce(events)
  {
    var ds, intents := Select(events, Decision), Select(events, OrderIntent);
    AssignedIsMatching(ds, intents);
    FillsUsedOnce(ds, intents, Select(events, Fill), AssignIntents(ds, intents));
  }

  lemma ClashFillsTwice(intents: seq<LedgerEvent>) returns (events: seq<LedgerEvent>)
    requires (forall i | i in intents :: i.kind == OrderIntent) && !NoClash(intents)
    ensures Select(events, OrderIntent) == intents && !FillsOnce(events)
  {
    var p, q :| 0 <= p < q < |intents| && Clash(intents[p], intents[q]);
    var ds, fill := Wanting(intents), FillFor(intents[p], intents[q]);
    events := ds + intents + [fill];
    SelectLedger(ds, intents, fill);
    ClashReusesFill(intents, p, q);
  }

  // Whatever else is in the ledger, no fill is exported twice: this holds of a list of intents exactly when no two of
  // them clash.
  lemma FillsOnceIff(intents: seq<LedgerEvent>)
    requires forall i | i in intents :: i.kind == OrderIntent
    ensures (forall events | Select(events, OrderIntent) == intents :: FillsOnce(events)) <==> NoClash(intents)
  {
    if NoClash(intents) {
      forall events | Select(events, OrderIntent) == intents ensures FillsOnce(events) { NoClashFillsOnce(events); }
    } else {
      var events := ClashFillsTwice(intents);
    }
  }

  // Two intents of one link take the same fill.
  lemma SharedLinkReusesFill(d: LedgerEvent, p: LedgerEvent, q: LedgerEvent, fill: LedgerEvent)
    requires d.symbol.Some? && d.symbol == p.symbol == q.symbol && p.Linked() && p.linkId == q.linkId == fill.linkId
    ensures var ds, intents := [d, d], [p, q];
            var a := AssignIntents(ds, intents);
            InRange(a, 2) && !UsedOnce(AssignFills(ds, intents, [fill], a))
  {
    var ds, intents := [d, d], [p, q];
    AssignedIsMatching(ds, intents);
    var i := ChosenBy(ds, intents, 0);
    var j := ChosenBy(ds, intents, 1);
    SharedFillIsReused(ds, intents, fill, AssignIntents(ds, intents), i, j);
  }

  // With linked and unlinked intents together a fill can be used twice: a link's fill is not marked as used.
  lemma MixedLinksReuseFill(d: LedgerEvent, linked: LedgerEvent, unlinked: LedgerEvent, fill: LedgerEvent)
    requires d.symbol.Some? && d.symbol == linked.symbol == unlinked.symbol == fill.symbol
    requires linked.Linked() && !unlinked.Linked() && fill.linkId == linked.linkId
    requires d.timestamp <= linked.timestamp && d.timestamp <= unlinked.timestamp <= fill.timestamp
    ensures var ds, intents, fills := [d, d], [linked, unlinked], [fill];
            var a := AssignIntents(ds, intents);
            && a == [Some(0), Some(1)] && InRange(a, 2)
            && AssignFills(ds, intents, fills, a) == [Some(0), Some(0)]
  {
    var ds, intents, fills := [d, d], [linked, unlinked], [fill];
    assert ds[..1] == [d] && [d][..0] == [];
    assert AssignIntents([d], intents) == [Some(0)];
    assert Eligible(intents, {}, d.DecisionSymbol(), Some(d.timestamp), 0);
    assert Used([Some(0)]) == {0} by { assert [Some(0 as nat)][0] == Some(0); }
    assert Eligible(intents, {0}, d.DecisionSymbol(), Some(d.timestamp), 1);
    var a := AssignIntents(ds, intents);
    assert a == [Some(0), Some(1)] && a[..1] == [Some(0)];
    assert AssignFills([d], intents, fills, [Some(0)]) == [Some(0)];
    assert UsedFills(intents, [Some(0)], [Some(0)]) == {};
  }
}
