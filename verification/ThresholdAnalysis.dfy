// Threshold metrics of the model filter, and thresholds chosen for a target retention.
module ThresholdAnalysis {
  import opened Common
  import opened Rounding

  function Insert(x: real, s: seq<real>): seq<real> {
    if s == [] then [x] else if x <= s[0] then [x] + s else [s[0]] + Insert(x, s[1..])
  }

  lemma {:induction false} InsertAdds(x: real, s: seq<real>)
    ensures multiset(Insert(x, s)) == multiset(s) + multiset{x}
  {
    if s != [] && x > s[0] {
      InsertAdds(x, s[1..]);
      assert s == [s[0]] + s[1..];
    }
  }

  lemma {:induction false} InsertStaysAbove(x: real, s: seq<real>, low: real)
    requires low <= x && forall i | 0 <= i < |s| :: low <= s[i]
    ensures forall i | 0 <= i < |Insert(x, s)| :: low <= Insert(x, s)[i]
  {
    if s != [] && x > s[0] { InsertStaysAbove(x, s[1..], low); }
  }

  lemma {:induction false} InsertSorts(x: real, s: seq<real>)
    requires Ascending(s)
    ensures Ascending(Insert(x, s))
  {
    if s != [] && x > s[0] {
      InsertSorts(x, s[1..]);
      InsertStaysAbove(x, s[1..], s[0]);
    }
  }

  function Sorted(s: seq<real>): (r: seq<real>)
    ensures Ascending(r) && multiset(r) == multiset(s)
  {
    if s == [] then []
    else
      assert s == s[..|s| - 1] + [s[|s| - 1]];
      InsertSorts(s[|s| - 1], Sorted(s[..|s| - 1]));
      InsertAdds(s[|s| - 1], Sorted(s[..|s| - 1]));
      Insert(s[|s| - 1], Sorted(s[..|s| - 1]))
  }

  // ---------------------------------------------------------------------------------------------
  // The interpolated percentile.

  // The position of percentile p among n samples, and the indices around it.
  function Position(n: nat, p: real): real
    requires n > 0
  {
    if n > 1 then p / 100.0 * (n - 1) as real else 0.0
  }

  function Low(n: nat, p: real): (i: nat)
    requires n > 0 && 0.0 <= p <= 100.0
    ensures i < n && i as real <= Position(n, p) < i as real + 1.0
  {
    PositionInRange(n, p);
    Position(n, p).Floor
  }

  function High(n: nat, p: real): (i: nat)
    requires n > 0 && 0.0 <= p <= 100.0
    ensures i < n
  {
    if Low(n, p) + 1 < n then Low(n, p) + 1 else n - 1
  }

  lemma PositionInRange(n: nat, p: real)
    requires n > 0 && 0.0 <= p <= 100.0
    ensures 0.0 <= Position(n, p) <= (n - 1) as real
  {
    var x, f := (n - 1) as real, p / 100.0;
    ScaledByFraction(x, f);
    assert 0.0 <= f * x <= x;
    if n > 1 { assert Position(n, p) == f * x; }
  }

  lemma ScaledByFraction(x: real, f: real)
    requires x >= 0.0 && 0.0 <= f <= 1.0
    ensures 0.0 <= f * x <= x
  {
    if x > 0.0 {
      ScaleMonotone(0.0, f, x);
      ScaleMonotone(f, 1.0, x);
    }
  }

  function Percentile(sorted: seq<real>, p: real): Option<real>
    requires 0.0 <= p <= 100.0
  {
    if sorted == [] then None
    else
      var n := |sorted|;
      var frac := Position(n, p) - Low(n, p) as real;
      Some(sorted[Low(n, p)] * (1.0 - frac) + sorted[High(n, p)] * frac)
  }

  lemma Blend(a: real, b: real, d: real, f: real)
    requires d == b - a
    ensures a * (1.0 - f) + b * f == a + f * d
  {
  }

  lemma Interpolates(a: real, b: real, f: real)
    requires a <= b && 0.0 <= f <= 1.0
    ensures a <= a * (1.0 - f) + b * f <= b
  {
    var d := b - a;
    var x := f * d;
    ScaledByFraction(d, f);
    Blend(a, b, d, f);
    assert 0.0 <= x <= d;
    assert a * (1.0 - f) + b * f == a + x;
  }

  // The percentile lies between its sorted neighbours, and is the lower one when it falls on a sample.
  lemma PercentileBetween(sorted: seq<real>, p: real)
    requires sorted != [] && Ascending(sorted) && 0.0 <= p <= 100.0
    ensures var v := Percentile(sorted, p).value; sorted[Low(|sorted|, p)] <= v <= sorted[High(|sorted|, p)]
    ensures Position(|sorted|, p) == Low(|sorted|, p) as real
            ==> Percentile(sorted, p).value == sorted[Low(|sorted|, p)]
  {
    var n := |sorted|;
    Interpolates(sorted[Low(n, p)], sorted[High(n, p)], Position(n, p) - Low(n, p) as real);
  }

  lemma InterpolationMonotone(a: real, b: real, f: real, g: real)
    requires a <= b && f <= g
    ensures a * (1.0 - f) + b * f <= a * (1.0 - g) + b * g
  {
    assert a * (1.0 - f) + b * f == a + (b - a) * f;
    assert a * (1.0 - g) + b * g == a + (b - a) * g;
    ScaleGrows(b - a, f, g);
  }

  lemma PercentileMonotone(sorted: seq<real>, p: real, q: real)
    requires sorted != [] && Ascending(sorted) && 0.0 <= p <= q <= 100.0
    ensures Percentile(sorted, p).value <= Percentile(sorted, q).value
  {
    var n := |sorted|;
    PositionMonotone(n, p, q);
    PercentileBetween(sorted, p);
    PercentileBetween(sorted, q);
    if Low(n, p) == Low(n, q) {
      var l := Low(n, p) as real;
      InterpolationMonotone(sorted[Low(n, p)], sorted[High(n, p)], Position(n, p) - l, Position(n, q) - l);
    }
  }

  lemma PositionMonotone(n: nat, p: real, q: real)
    requires n > 0 && 0.0 <= p <= q <= 100.0
    ensures Position(n, p) <= Position(n, q) && Low(n, p) <= Low(n, q)
  {
    ScaleGrows((n - 1) as real, p / 100.0, q / 100.0);
  }

  // ---------------------------------------------------------------------------------------------
  // Counting samples.

  function AtLeast(xs: seq<real>, t: real): nat {
    if xs == [] then 0 else AtLeast(xs[..|xs| - 1], t) + if xs[|xs| - 1] >= t then 1 else 0
  }

  lemma {:induction false} AtLeastConcat(a: seq<real>, b: seq<real>, t: real)
    ensures AtLeast(a + b, t) == AtLeast(a, t) + AtLeast(b, t)
    decreases |b|
  {
    if b == [] {
      assert a + b == a;
    } else {
      assert (a + b)[..|a + b| - 1] == a + b[..|b| - 1];
      AtLeastConcat(a, b[..|b| - 1], t);
    }
  }

  lemma {:induction false} AtLeastOfPermutation(a: seq<real>, b: seq<real>, t: real)
    requires multiset(a) == multiset(b)
    ensures AtLeast(a, t) == AtLeast(b, t)
    decreases |a|
  {
    assert |multiset(a)| == |a| && |multiset(b)| == |b|;
    if a != [] {
      var n := |a| - 1;
      assert a[n] in multiset(b);
      var i :| 0 <= i < |b| && b[i] == a[n];
      PermutationWithout(a, b, i);
      AtLeastOfPermutation(a[..n], b[..i] + b[i + 1..], t);
      assert b == b[..i] + ([b[i]] + b[i + 1..]);
      AtLeastConcat(b[..i], [b[i]] + b[i + 1..], t);
      AtLeastConcat([b[i]], b[i + 1..], t);
      AtLeastConcat(b[..i], b[i + 1..], t);
      assert [b[i]][..0] == [];
    }
  }

  lemma {:induction false} AllAtLeast(xs: seq<real>, t: real)
    requires forall i | 0 <= i < |xs| :: xs[i] >= t
    ensures AtLeast(xs, t) == |xs|
  {
    if xs != [] { AllAtLeast(xs[..|xs| - 1], t); }
  }

  // From the k-th sorted sample on, all are retained once the k-th is.
  lemma RetainedTail(sorted: seq<real>, k: nat, t: real)
    requires Ascending(sorted) && k < |sorted| && sorted[k] >= t
    ensures AtLeast(sorted, t) >= |sorted| - k
  {
    assert sorted == sorted[..k] + sorted[k..];
    AtLeastConcat(sorted[..k], sorted[k..], t);
    AllAtLeast(sorted[k..], t);
  }

  // The threshold chosen to retain a share of the samples, before it is rounded for display.
  function RetentionThreshold(probs: seq<real>, share: real): Option<real>
    requires 0.0 <= share <= 1.0
  {
    Percentile(Sorted(probs), (1.0 - share) * 100.0)
  }

  // It retains at least one sample, and at least the share of all samples but one.
  lemma RetentionIsReached(probs: seq<real>, share: real)
    requires probs != [] && 0.0 <= share <= 1.0
    ensures RetentionThreshold(probs, share).Some?
    ensures var kept := AtLeast(probs, RetentionThreshold(probs, share).value);
            kept >= 1 && kept as real >= share * (|probs| - 1) as real
  {
    var sorted, p, n := Sorted(probs), (1.0 - share) * 100.0, |probs|;
    assert |multiset(sorted)| == |sorted| && |multiset(probs)| == n;
    var k := PercentileTail(sorted, p);
    RetainedTail(sorted, k, RetentionThreshold(probs, share).value);
    AtLeastOfPermutation(probs, sorted, RetentionThreshold(probs, share).value);
    PositionOfShare(n, share);
  }

  // A sorted index at which the percentile is reached, with as many samples from there on as its position leaves.
  lemma PercentileTail(sorted: seq<real>, p: real) returns (k: nat)
    requires sorted != [] && Ascending(sorted) && 0.0 <= p <= 100.0
    ensures k < |sorted| && sorted[k] >= Percentile(sorted, p).value
    ensures (|sorted| - k) as real >= (|sorted| - 1) as real - Position(|sorted|, p)
  {
    PercentileBetween(sorted, p);
    PositionInRange(|sorted|, p);
    k := if Position(|sorted|, p) == Low(|sorted|, p) as real then Low(|sorted|, p) else High(|sorted|, p);
  }

  lemma PositionOfShare(n: nat, share: real)
    requires n > 0 && 0.0 <= share <= 1.0
    ensures Position(n, (1.0 - share) * 100.0) == (n - 1) as real - share * (n - 1) as real
    ensures 0.0 <= share * (n - 1) as real <= (n - 1) as real
  {
    assert (1.0 - share) * 100.0 / 100.0 == 1.0 - share;
    ScaledByFraction((n - 1) as real, share);
    Distribute(1.0, -share, (n - 1) as real);
  }

  // ---------------------------------------------------------------------------------------------
  // The threshold grid.

  datatype Metrics = Metrics(
    threshold: real, precision: real, recall: real, f1: real, support: nat, retained: nat, filtered: nat,
    truePositives: nat, falsePositives: nat, falseNegatives: nat, trueNegatives: nat)

  // The samples with the given label on the given side of a threshold.
  function Tally(probs: seq<real>, labels: seq<int>, t: real, kept: bool, outcome: int): nat
    requires |probs| == |labels|
  {
    if probs == [] then 0
    else
      var n := |probs| - 1;
      Tally(probs[..n], labels[..n], t, kept, outcome) +
      if (probs[n] >= t) == kept && labels[n] == outcome then 1 else 0
  }

  function Ratio(a: nat, b: nat): real { if b > 0 then a as real / b as real else 0.0 }

  function SixPlaces(x: real): real { NearestStep(x, 0.000001) }

  function Harmonic(p: real, r: real): real { if p + r > 0.0 then 2.0 * p * r / (p + r) else 0.0 }

  function MetricsAt(probs: seq<real>, labels: seq<int>, t: real): Metrics
    requires |probs| == |labels|
  {
    var tp, fp := Tally(probs, labels, t, true, 1), Tally(probs, labels, t, true, 0);
    var fn, tn := Tally(probs, labels, t, false, 1), Tally(probs, labels, t, false, 0);
    var precision, recall := Ratio(tp, tp + fp), Ratio(tp, tp + fn);
    var f1 := Harmonic(precision, recall);
    AtLeastBound(probs, t);
    Metrics(t, SixPlaces(precision), SixPlaces(recall), SixPlaces(f1), tp + fn, AtLeast(probs, t),
            |probs| - AtLeast(probs, t), tp, fp, fn, tn)
  }

  lemma {:induction false} AtLeastBound(xs: seq<real>, t: real)
    ensures AtLeast(xs, t) <= |xs|
  {
    if xs != [] { AtLeastBound(xs[..|xs| - 1], t); }
  }

  // None stands for the error raised when the lists differ in length.
  method ComputeThresholdGrid(probs: seq<real>, labels: seq<int>, thresholds: seq<real>)
    returns (grid: Option<seq<Metrics>>)
    ensures grid.None? <==> |probs| != |labels|
    ensures grid.Some? ==> |grid.value| == |thresholds|
                           && forall i | 0 <= i < |thresholds| ::
                                grid.value[i] == MetricsAt(probs, labels, thresholds[i])
  {
    if |probs| != |labels| { return None; }
    var results: seq<Metrics> := [];
    for i := 0 to |thresholds|
      invariant |results| == i && forall j | 0 <= j < i :: results[j] == MetricsAt(probs, labels, thresholds[j])
    {
      results := results + [MetricsAt(probs, labels, thresholds[i])];
    }
    return Some(results);
  }

  // The four counts partition the samples exactly when every label is 0 or 1; each side then adds up on its own.
  lemma {:induction false} CountsPartitionIff(probs: seq<real>, labels: seq<int>, t: real)
    requires |probs| == |labels|
    ensures var m := MetricsAt(probs, labels, t);
            && m.retained + m.filtered == |probs|
            && m.truePositives + m.falsePositives <= m.retained && m.falseNegatives + m.trueNegatives <= m.filtered
            && ((m.truePositives + m.falsePositives == m.retained && m.falseNegatives + m.trueNegatives == m.filtered)
                <==> forall i | 0 <= i < |labels| :: labels[i] == 0 || labels[i] == 1)
  {
    if probs != [] {
      var n := |probs| - 1;
      CountsPartitionIff(probs[..n], labels[..n], t);
      assert forall i | 0 <= i < n :: labels[..n][i] == labels[i];
    }
  }

  // The samples on the given side of the threshold with the given label.
  ghost function Samples(probs: seq<real>, labels: seq<int>, t: real, kept: bool, outcome: int): set<nat>
    requires |probs| == |labels|
  {
    set i: nat | i < |probs| && (if kept then probs[i] >= t else probs[i] < t) && labels[i] == outcome
  }

  lemma {:induction false} TallyIsSize(probs: seq<real>, labels: seq<int>, t: real, kept: bool, outcome: int)
    requires |probs| == |labels|
    ensures Tally(probs, labels, t, kept, outcome) == |Samples(probs, labels, t, kept, outcome)|
  {
    if probs == [] {
      assert Samples(probs, labels, t, kept, outcome) == {};
    } else {
      var n := |probs| - 1;
      TallyIsSize(probs[..n], labels[..n], t, kept, outcome);
      SamplesOneMore(probs, labels, t, kept, outcome);
    }
  }

  lemma SamplesOneMore(probs: seq<real>, labels: seq<int>, t: real, kept: bool, outcome: int)
    requires |probs| == |labels| > 0
    ensures var n := |probs| - 1;
            var before := Samples(probs[..n], labels[..n], t, kept, outcome);
            && n !in before
            && Samples(probs, labels, t, kept, outcome)
               == if (probs[n] >= t) == kept && labels[n] == outcome then before + {n} else before
  {
  }

  lemma {:induction false} AtLeastIsSize(probs: seq<real>, t: real)
    ensures AtLeast(probs, t) == |set i: nat | i < |probs| && probs[i] >= t|
  {
    var all := set i: nat | i < |probs| && probs[i] >= t;
    if probs == [] {
      assert all == {};
    } else {
      var n := |probs| - 1;
      AtLeastIsSize(probs[..n], t);
      var before := set i: nat | i < n && probs[..n][i] >= t;
      assert all == if probs[n] >= t then before + {n} else before;
    }
  }

  // Within half a millionth, as far as six places reach.
  ghost predicate Rounded(x: real, exact: real) { exact - 0.0000005 <= x <= exact + 0.0000005 }

  // A share of the counts, or zero of none.
  ghost predicate IsShare(x: real, part: nat, whole: nat) {
    if whole == 0 then x == 0.0 else Rounded(x, part as real / whole as real)
  }

  lemma RatioIsShare(part: nat, whole: nat)
    ensures IsShare(SixPlaces(Ratio(part, whole)), part, whole)
  {
    NearestStepIsClose(Ratio(part, whole), 0.000001);
    ZeroIsKept();
  }

  lemma ZeroIsKept()
    ensures SixPlaces(0.0) == 0.0
  {
    assert 0.0 / 0.000001 == 0.0 && RoundHalfEven(0.0) == 0;
  }

  // By the counts alone.
  lemma HarmonicByCounts(tp: nat, fp: nat, fn: nat)
    ensures Harmonic(Ratio(tp, tp + fp), Ratio(tp, tp + fn)) == Ratio(2 * tp, 2 * tp + fp + fn)
  {
    if tp > 0 {
      var x, a, b, p, r := tp as real, (tp + fp) as real, (tp + fn) as real, Ratio(tp, tp + fp), Ratio(tp, tp + fn);
      RatioTimes(tp, tp + fp);
      RatioTimes(tp, tp + fn);
      HarmonicIdentity(p, r, a, b, x);
      assert (2 * tp) as real == 2.0 * x && (2 * tp + fp + fn) as real == a + b;
    }
  }

  lemma RatioTimes(part: nat, whole: nat)
    requires 0 < part && 0 < whole
    ensures Ratio(part, whole) > 0.0 && Ratio(part, whole) * whole as real == part as real
  {
  }

  lemma HarmonicIdentity(p: real, r: real, a: real, b: real, x: real)
    requires p > 0.0 && r > 0.0 && a > 0.0 && b > 0.0 && p * a == x && r * b == x
    ensures 2.0 * p * r / (p + r) == 2.0 * x / (a + b)
  {
    // Both sides times both denominators are 2px + 2rx.
    assert p * r * a == r * x && p * r * b == p * x;
    CrossMultiplied(2.0 * p * r, p + r, 2.0 * x, a + b);
  }

  lemma CrossMultiplied(m: real, n: real, k: real, l: real)
    requires n > 0.0 && l > 0.0 && m * l == k * n
    ensures m / n == k / l
  {
    assert m / n * n * l == k / l * l * n;
  }

  // The counts are numbers of samples; precision, recall and F1 are shares of them to six places, and zero where there
  // is nothing to divide by. F1 needs no precision or recall.
  lemma MetricsMean(probs: seq<real>, labels: seq<int>, t: real)
    requires |probs| == |labels|
    ensures var m := MetricsAt(probs, labels, t);
            && m.threshold == t
            && m.truePositives == |Samples(probs, labels, t, true, 1)|
            && m.falsePositives == |Samples(probs, labels, t, true, 0)|
            && m.falseNegatives == |Samples(probs, labels, t, false, 1)|
            && m.trueNegatives == |Samples(probs, labels, t, false, 0)|
            && m.retained == |set i: nat | i < |probs| && probs[i] >= t|
            && m.support == m.truePositives + m.falseNegatives
            && IsShare(m.precision, m.truePositives, m.truePositives + m.falsePositives)
            && IsShare(m.recall, m.truePositives, m.support)
            && IsShare(m.f1, 2 * m.truePositives, 2 * m.truePositives + m.falsePositives + m.falseNegatives)
  {
    AtLeastIsSize(probs, t);
    TallyIsSize(probs, labels, t, true, 1);
    TallyIsSize(probs, labels, t, true, 0);
    TallyIsSize(probs, labels, t, false, 1);
    TallyIsSize(probs, labels, t, false, 0);
    var tp, fp := Tally(probs, labels, t, true, 1), Tally(probs, labels, t, true, 0);
    var fn := Tally(probs, labels, t, false, 1);
    RatioIsShare(tp, tp + fp);
    RatioIsShare(tp, tp + fn);
    RatioIsShare(2 * tp, 2 * tp + fp + fn);
    HarmonicByCounts(tp, fp, fn);
  }

  // Raising the threshold moves samples from one side to the other and never changes how many are positive.
  lemma {:induction false} RaisingMovesSamples(probs: seq<real>, labels: seq<int>, t: real, u: real, outcome: int)
    requires |probs| == |labels| && t <= u
    ensures Tally(probs, labels, u, true, outcome) <= Tally(probs, labels, t, true, outcome)
    ensures Tally(probs, labels, u, true, outcome) + Tally(probs, labels, u, false, outcome)
         == Tally(probs, labels, t, true, outcome) + Tally(probs, labels, t, false, outcome)
    ensures AtLeast(probs, u) <= AtLeast(probs, t)
  {
    if probs != [] {
      var n := |probs| - 1;
      RaisingMovesSamples(probs[..n], labels[..n], t, u, outcome);
    }
  }

  lemma RatioMonotone(a: nat, b: nat, c: nat)
    requires a <= b
    ensures Ratio(a, c) <= Ratio(b, c)
  {
    if c > 0 { ScaleGrows(1.0 / c as real, a as real, b as real); }
  }

  lemma SixPlacesMonotone(x: real, y: real)
    requires x <= y
    ensures SixPlaces(x) <= SixPlaces(y)
  {
    var a, b := x / 0.000001, y / 0.000001;
    RoundingMonotone(a, b);
    ScaleGrows(0.000001, RoundHalfEven(a) as real, RoundHalfEven(b) as real);
  }

  lemma RoundingMonotone(a: real, b: real)
    requires a <= b
    ensures RoundHalfEven(a) <= RoundHalfEven(b)
  {
  }

  // A higher threshold never retains more and never raises recall, as reported.
  lemma RaisingThreshold(probs: seq<real>, labels: seq<int>, t: real, u: real)
    requires |probs| == |labels| && t <= u
    ensures var m, m' := MetricsAt(probs, labels, t), MetricsAt(probs, labels, u);
            m'.retained <= m.retained && m'.support == m.support && m'.recall <= m.recall
  {
    RaisingMovesSamples(probs, labels, t, u, 1);
    var support := Tally(probs, labels, t, true, 1) + Tally(probs, labels, t, false, 1);
    RatioMonotone(Tally(probs, labels, u, true, 1), Tally(probs, labels, t, true, 1), support);
    SixPlacesMonotone(Ratio(Tally(probs, labels, u, true, 1), support),
        Ratio(Tally(probs, labels, t, true, 1), support));
  }

  // ---------------------------------------------------------------------------------------------
  // The recommended thresholds.

  datatype Profile = Conservative | Balanced | Aggressive

  function Recommendation(probs: seq<real>, labels: seq<int>, share: real): Metrics
    requires |probs| == |labels| && probs != [] && 0.0 <= share <= 1.0
  {
    assert RetentionThreshold(probs, share).Some? by { RetentionIsReached(probs, share); }
    MetricsAt(probs, labels, RetentionThreshold(probs, share).value)
  }

  // A recommended threshold keeps at least one sample, and at least its profile's share of all samples but one.
  lemma RecommendationKeepsShare(probs: seq<real>, labels: seq<int>, share: real)
    requires |probs| == |labels| && probs != [] && 0.0 <= share <= 1.0
    ensures var kept := Recommendation(probs, labels, share).retained;
            kept >= 1 && kept as real >= share * (|probs| - 1) as real
  {
    RetentionIsReached(probs, share);
  }

  function Recommendations(probs: seq<real>, labels: seq<int>, targets: seq<(Profile, real)>): (r: seq<Metrics>)
    requires |probs| == |labels| && probs != [] && forall t | t in targets :: 0.0 <= t.1 <= 1.0
    ensures |r| == |targets|
  {
    seq(|targets|, i requires 0 <= i < |targets| => Recommendation(probs, labels, targets[i].1))
  }

  // The first n profiles have the given metrics.
  ghost predicate Holds(targets: seq<(Profile, real)>, values: seq<Metrics>, n: nat, result: map<Profile, Metrics>) {
    && n <= |targets| == |values|
    && result.Keys == (set i | 0 <= i < n :: targets[i].0)
    && forall i | 0 <= i < n :: targets[i].0 in result && result[targets[i].0] == values[i]
  }

  lemma HoldsOneMore(targets: seq<(Profile, real)>, values: seq<Metrics>, n: nat, result: map<Profile, Metrics>)
    requires n < |targets| && Holds(targets, values, n, result)
    requires forall i, j | 0 <= i < j < |targets| :: targets[i].0 != targets[j].0
    ensures Holds(targets, values, n + 1, result[targets[n].0 := values[n]])
  {
  }

  // One recommendation per profile; none at all for no samples or lists that differ in length.
  method ComputeRetentionRecommendations(probs: seq<real>, labels: seq<int>, targets: seq<(Profile, real)>)
    returns (result: map<Profile, Metrics>)
    requires forall t | t in targets :: 0.0 <= t.1 <= 1.0
    requires forall i, j | 0 <= i < j < |targets| :: targets[i].0 != targets[j].0
    ensures |probs| != |labels| || probs == [] ==> result == map[]
    ensures |probs| == |labels| && probs != [] ==>
              Holds(targets, Recommendations(probs, labels, targets), |targets|, result)
  {
    result := map[];
    if |probs| != |labels| || probs == [] { return; }
    ghost var values := Recommendations(probs, labels, targets);
    for i := 0 to |targets|
      invariant Holds(targets, values, i, result)
    {
      HoldsOneMore(targets, values, i, result);
      result := result[targets[i].0 := Recommendation(probs, labels, targets[i].1)];
    }
  }
}
