// Purged walk-forward cross-validation over timestamped samples. Times are in seconds.
module PurgedCv {
  import opened Common
  import Rounding

  datatype Config = Config(splits: nat, embargo: real, purge: real, minTrain: nat, minVal: nat, expanding: bool) {
    // The gap kept before a validation segment is the larger of the two settings, not their sum.
    function Gap(): real { if embargo >= purge then embargo else purge }
  }

  datatype Fold = Fold(id: nat, valStart: real, valEnd: real, train: seq<nat>, val: seq<nat>)

  type Times = seq<real>

  function Segment(ts: Times, cfg: Config): real
    requires ts != []
  {
    (ts[|ts| - 1] - ts[0]) / (cfg.splits + 1) as real
  }

  function ValStart(ts: Times, cfg: Config, id: nat): real
    requires ts != []
  {
    ts[0] + Segment(ts, cfg) * (id + 1) as real
  }

  function TrainAmong(ts: Times, cutoff: real, n: nat): seq<nat>
    requires n <= |ts|
  {
    if n == 0 then [] else TrainAmong(ts, cutoff, n - 1) + if ts[n - 1] < cutoff then [n - 1] else []
  }

  function ValAmong(ts: Times, cutoff: real, from: real, to: real, n: nat): seq<nat>
    requires n <= |ts|
  {
    if n == 0 then []
    else
      ValAmong(ts, cutoff, from, to, n - 1) +
      if !(ts[n - 1] < cutoff) && from <= ts[n - 1] < to then [n - 1] else []
  }

  function FoldAt(ts: Times, cfg: Config, id: nat): Fold
    requires ts != []
  {
    var from, to := ValStart(ts, cfg, id), ValStart(ts, cfg, id + 1);
    Fold(id, from, to, TrainAmong(ts, from - cfg.Gap(), |ts|), ValAmong(ts, from - cfg.Gap(), from, to, |ts|))
  }

  predicate LargeEnough(cfg: Config, f: Fold) { |f.train| >= cfg.minTrain && |f.val| >= cfg.minVal }

  // The folds among the first n that are large enough to be yielded.
  function Folds(ts: Times, cfg: Config, n: nat): seq<Fold>
    requires ts != []
  {
    if n == 0 then []
    else Folds(ts, cfg, n - 1) + if LargeEnough(cfg, FoldAt(ts, cfg, n - 1)) then [FoldAt(ts, cfg, n - 1)] else []
  }

  // Whether there is anything to split.
  predicate Splittable(ts: Times, cfg: Config) {
    |ts| >= cfg.minTrain + cfg.minVal && ts != [] && ts[|ts| - 1] > ts[0]
  }

  // The folds yielded, and whether the generator then fails: on an empty list that the size check lets through, and in
  // rolling mode on the second fold, which refers to a name that does not exist.
  method Split(ts: Times, cfg: Config) returns (folds: seq<Fold>, fails: bool)
    ensures (cfg.expanding || cfg.splits <= 1) && Splittable(ts, cfg) ==> folds == Folds(ts, cfg, cfg.splits)
    ensures fails <==> (ts == [] && cfg.minTrain + cfg.minVal == 0)
                       || (!cfg.expanding && Splittable(ts, cfg) && cfg.splits >= 2)
    ensures fails && ts != [] ==> folds == Folds(ts, cfg, 1)
    ensures ts == [] || !Splittable(ts, cfg) ==> folds == []
  {
    folds, fails := [], false;
    if |ts| < cfg.minTrain + cfg.minVal { return; }
    if ts == [] { return folds, true; }
    if ts[|ts| - 1] - ts[0] <= 0.0 { return; }
    for id := 0 to cfg.splits
      invariant folds == Folds(ts, cfg, id)
      invariant !cfg.expanding ==> id <= 1
    {
      var fold := MakeFold(ts, cfg, id);
      if !cfg.expanding && id > 0 { return folds, true; }
      if LargeEnough(cfg, fold) { folds := folds + [fold]; }
    }
  }

  method MakeFold(ts: Times, cfg: Config, id: nat) returns (fold: Fold)
    requires ts != []
    ensures fold == FoldAt(ts, cfg, id)
  {
    var from, to := ValStart(ts, cfg, id), ValStart(ts, cfg, id + 1);
    var cutoff := from - cfg.Gap();
    var train: seq<nat>, val: seq<nat> := [], [];
    for i := 0 to |ts|
      invariant train == TrainAmong(ts, cutoff, i) && val == ValAmong(ts, cutoff, from, to, i)
    {
      if ts[i] < cutoff {
        train := train + [i];
      } else if from <= ts[i] < to {
        val := val + [i];
      }
    }
    fold := Fold(id, from, to, train, val);
  }

  // ---------------------------------------------------------------------------------------------
  // What the folds contain.

  lemma {:induction false} TrainExact(ts: Times, cutoff: real, n: nat)
    requires Ascending(ts) && n <= |ts|
    ensures var train := TrainAmong(ts, cutoff, n);
            && |train| <= n && (forall i | 0 <= i < |train| :: train[i] == i && ts[i] < cutoff)
            && (forall i | |train| <= i < n :: ts[i] >= cutoff)
  {
    if n > 0 {
      TrainExact(ts, cutoff, n - 1);
      var k := |TrainAmong(ts, cutoff, n - 1)|;
      if k < n - 1 { assert ts[k] <= ts[n - 1]; }
    }
  }

  lemma {:induction false} ValExact(ts: Times, cutoff: real, from: real, to: real, n: nat)
    requires n <= |ts|
    ensures var val := ValAmong(ts, cutoff, from, to, n);
            && (forall i :: i in val <==> 0 <= i < n && ts[i] >= cutoff && from <= ts[i] < to)
            && (forall i | 0 <= i < |val| :: val[i] < n)
            && (forall i, j | 0 <= i < j < |val| :: val[i] < val[j])
  {
    if n > 0 { ValExact(ts, cutoff, from, to, n - 1); }
  }

  lemma {:induction false} TrainMembers(ts: Times, cutoff: real, n: nat)
    requires n <= |ts|
    ensures var train := TrainAmong(ts, cutoff, n);
            && (forall i :: i in train <==> 0 <= i < n && ts[i] < cutoff)
            && (forall i | 0 <= i < |train| :: train[i] < n)
            && (forall i, j | 0 <= i < j < |train| :: train[i] < train[j])
  {
    if n > 0 { TrainMembers(ts, cutoff, n - 1); }
  }

  // A fold in its own terms: the span of the samples is cut into one segment more than there are splits, the fold
  // validates on its segment, from the second one on, and trains on every sample earlier than the segment by more than
  // the embargo and more than the purge. Indices are listed once, in order.
  lemma {:induction false} FoldMeans(ts: Times, cfg: Config, id: nat)
    requires ts != []
    ensures var f, width := FoldAt(ts, cfg, id), (ts[|ts| - 1] - ts[0]) / (cfg.splits as real + 1.0);
            && f.id == id && f.valStart == ts[0] + width * (id as real + 1.0) && f.valEnd == f.valStart + width
            && (forall i :: i in f.train
                       <==> 0 <= i < |ts| && ts[i] + cfg.embargo < f.valStart && ts[i] + cfg.purge < f.valStart)
            && (forall i :: i in f.val <==> 0 <= i < |ts| && f.valStart <= ts[i] < f.valEnd && i !in f.train)
            && (forall i, j | 0 <= i < j < |f.train| :: f.train[i] < f.train[j])
            && (forall i, j | 0 <= i < j < |f.val| :: f.val[i] < f.val[j])
  {
    var from, to := ValStart(ts, cfg, id), ValStart(ts, cfg, id + 1);
    SegmentsFollow(ts, cfg, id);
    MembersMean(ts, cfg, from, to);
  }

  lemma {:induction false} MembersMean(ts: Times, cfg: Config, from: real, to: real)
    ensures var cutoff := from - cfg.Gap();
            var train, val := TrainAmong(ts, cutoff, |ts|), ValAmong(ts, cutoff, from, to, |ts|);
            && (forall i :: i in train <==> 0 <= i < |ts| && ts[i] + cfg.embargo < from && ts[i] + cfg.purge < from)
            && (forall i :: i in val <==> 0 <= i < |ts| && from <= ts[i] < to && i !in train)
            && (forall i, j | 0 <= i < j < |train| :: train[i] < train[j])
            && (forall i, j | 0 <= i < j < |val| :: val[i] < val[j])
  {
    TrainMembers(ts, from - cfg.Gap(), |ts|);
    ValExact(ts, from - cfg.Gap(), from, to, |ts|);
  }

  lemma SegmentsFollow(ts: Times, cfg: Config, id: nat)
    requires ts != []
    ensures var width := (ts[|ts| - 1] - ts[0]) / (cfg.splits as real + 1.0);
            && ValStart(ts, cfg, id) == ts[0] + width * (id as real + 1.0)
            && ValStart(ts, cfg, id + 1) == ValStart(ts, cfg, id) + width
  {
    assert (id + 1) as real == id as real + 1.0 && (id + 2) as real == id as real + 1.0 + 1.0;
    assert (cfg.splits + 1) as real == cfg.splits as real + 1.0;
    Rounding.Distribute(id as real + 1.0, 1.0, Segment(ts, cfg));
  }

  ghost predicate Apart(train: real, val: real, cfg: Config) {
    val - train > cfg.Gap() && val - train > cfg.embargo && val - train > cfg.purge
  }

  // No leakage: the training indices are a prefix, and every training time is more than the gap before every
  // validation time.
  lemma NoLeakage(ts: Times, cfg: Config, id: nat)
    requires Ascending(ts) && ts != []
    ensures var f := FoldAt(ts, cfg, id);
            && (forall i | 0 <= i < |f.train| :: f.train[i] == i < |ts|)
            && (forall v | v in f.val :: v < |ts|)
            && (forall i, v | 0 <= i < |f.train| && v in f.val :: Apart(ts[f.train[i]], ts[v], cfg))
  {
    var from, to := ValStart(ts, cfg, id), ValStart(ts, cfg, id + 1);
    TrainExact(ts, from - cfg.Gap(), |ts|);
    ValExact(ts, from - cfg.Gap(), from, to, |ts|);
  }

  // The documented cutoff subtracts embargo and purge both. Training on the code's cutoff is training on the documented
  // one exactly when no sample falls between the two.
  lemma {:induction false} DocumentedCutoffIff(ts: Times, cfg: Config, from: real, n: nat)
    requires cfg.embargo >= 0.0 && cfg.purge >= 0.0 && n <= |ts|
    ensures TrainAmong(ts, from - cfg.Gap(), n) == TrainAmong(ts, from - cfg.embargo - cfg.purge, n)
       <==> forall k | 0 <= k < n :: !InDocumentedGap(ts[k], cfg, from)
  {
    if n > 0 {
      DocumentedCutoffIff(ts, cfg, from, n - 1);
      TrainSubset(ts, from - cfg.embargo - cfg.purge, from - cfg.Gap(), n - 1);
      var code := TrainAmong(ts, from - cfg.Gap(), n - 1);
      var documented := TrainAmong(ts, from - cfg.embargo - cfg.purge, n - 1);
      if InDocumentedGap(ts[n - 1], cfg, from) {
        assert |TrainAmong(ts, from - cfg.Gap(), n)| == |code| + 1 > |documented|;
      } else {
        AppendCancels(code, documented, if ts[n - 1] < from - cfg.Gap() then [n - 1] else []);
      }
    }
  }

  lemma AppendCancels(a: seq<nat>, b: seq<nat>, c: seq<nat>)
    ensures a + c == b + c <==> a == b
  {
    if a + c == b + c { assert (a + c)[..|a|] == a && (b + c)[..|b|] == b; }
  }

  // On every fold of every split: the training set is the documented one exactly when no sample is in the gap.
  lemma {:induction false} TrainsAsDocumentedIff(ts: Times, cfg: Config, id: nat)
    requires cfg.embargo >= 0.0 && cfg.purge >= 0.0 && ts != []
    ensures var f := FoldAt(ts, cfg, id);
            f.train == TrainAmong(ts, f.valStart - cfg.embargo - cfg.purge, |ts|)
            <==> forall k | 0 <= k < |ts| :: !InDocumentedGap(ts[k], cfg, f.valStart)
  {
    DocumentedCutoffIff(ts, cfg, ValStart(ts, cfg, id), |ts|);
  }

  // Too late for the documented training set, and early enough for the code's.
  predicate InDocumentedGap(t: real, cfg: Config, from: real) { from - cfg.embargo - cfg.purge <= t < from - cfg.Gap() }

  // A later cutoff trains on no fewer samples.
  lemma {:induction false} TrainSubset(ts: Times, cutoff: real, later: real, n: nat)
    requires cutoff <= later && n <= |ts|
    ensures |TrainAmong(ts, cutoff, n)| <= |TrainAmong(ts, later, n)|
  {
    if n > 0 { TrainSubset(ts, cutoff, later, n - 1); }
  }

  // Five seconds of embargo and five of purging before a validation segment that starts at 50: the sample at 42 is
  // trained on, although it lies within ten seconds of the segment.
  lemma TrainsInsideDocumentedGap()
    ensures var ts, cfg := [0.0, 42.0, 60.0, 100.0], Config(1, 5.0, 5.0, 1, 1, true);
            var f := FoldAt(ts, cfg, 0);
            && f.valStart == 50.0 && f.train == [0, 1] && f.val == [2] && LargeEnough(cfg, f)
            && InDocumentedGap(ts[1], cfg, f.valStart)
            && f.train != TrainAmong(ts, f.valStart - cfg.embargo - cfg.purge, |ts|)
  {
    var ts, cfg := [0.0, 42.0, 60.0, 100.0], Config(1, 5.0, 5.0, 1, 1, true);
    assert Segment(ts, cfg) == 50.0 && ValStart(ts, cfg, 0) == 50.0 && ValStart(ts, cfg, 1) == 100.0;
    var cutoff := 45.0;
    assert TrainAmong(ts, cutoff, 1) == [0] && TrainAmong(ts, cutoff, 2) == [0, 1];
    assert TrainAmong(ts, cutoff, 3) == [0, 1] && TrainAmong(ts, cutoff, 4) == [0, 1];
    assert ValAmong(ts, cutoff, 50.0, 100.0, 1) == [] && ValAmong(ts, cutoff, 50.0, 100.0, 2) == [];
    assert ValAmong(ts, cutoff, 50.0, 100.0, 3) == [2] && ValAmong(ts, cutoff, 50.0, 100.0, 4) == [2];
    TrainsAsDocumentedIff(ts, cfg, 0);
  }

  lemma StartsIncrease(ts: Times, cfg: Config, a: nat, b: nat)
    requires ts != [] && ts[|ts| - 1] >= ts[0] && a <= b
    ensures ValStart(ts, cfg, a) <= ValStart(ts, cfg, b)
  {
    SegmentNonNegative(ts, cfg);
    Rounding.ScaleGrows(Segment(ts, cfg), (a + 1) as real, (b + 1) as real);
  }

  lemma SegmentNonNegative(ts: Times, cfg: Config)
    requires ts != [] && ts[|ts| - 1] >= ts[0]
    ensures Segment(ts, cfg) >= 0.0
  {
  }

  lemma TrainGrows(ts: Times, cutoff: real, later: real)
    requires Ascending(ts) && cutoff <= later
    ensures TrainAmong(ts, cutoff, |ts|) <= TrainAmong(ts, later, |ts|)
  {
    TrainExact(ts, cutoff, |ts|);
    TrainExact(ts, later, |ts|);
    var k := |TrainAmong(ts, later, |ts|)|;
    if k < |ts| { assert ts[k] >= later; }
  }

  ghost predicate AllBefore(a: seq<nat>, b: seq<nat>) { forall u, v | u in a && v in b :: u < v }

  lemma ValAdvances(ts: Times, gap: real, from: real, to: real, from': real, to': real)
    requires Ascending(ts) && to <= from'
    ensures AllBefore(ValAmong(ts, from - gap, from, to, |ts|), ValAmong(ts, from' - gap, from', to', |ts|))
  {
    ValExact(ts, from - gap, from, to, |ts|);
    ValExact(ts, from' - gap, from', to', |ts|);
  }

  // Training sets grow with the fold, and validation sets follow each other without overlap.
  lemma FoldsAdvance(ts: Times, cfg: Config, a: nat, b: nat)
    requires Ascending(ts) && ts != [] && a < b
    ensures FoldAt(ts, cfg, a).train <= FoldAt(ts, cfg, b).train
    ensures AllBefore(FoldAt(ts, cfg, a).val, FoldAt(ts, cfg, b).val)
  {
    StartsIncrease(ts, cfg, a, b);
    StartsIncrease(ts, cfg, a + 1, b);
    TrainGrows(ts, ValStart(ts, cfg, a) - cfg.Gap(), ValStart(ts, cfg, b) - cfg.Gap());
    ValAdvances(ts, cfg.Gap(), ValStart(ts, cfg, a), ValStart(ts, cfg, a + 1), ValStart(ts, cfg, b),
        ValStart(ts, cfg, b + 1));
  }

  // A validation set has no holes.
  lemma ValidationIsContiguous(ts: Times, cfg: Config, id: nat, u: nat, v: nat, w: nat)
    requires Ascending(ts) && ts != [] && u <= v <= w && u in FoldAt(ts, cfg, id).val && w in FoldAt(ts, cfg, id).val
    ensures v in FoldAt(ts, cfg, id).val
  {
    var from, to := ValStart(ts, cfg, id), ValStart(ts, cfg, id + 1);
    ValExact(ts, from - cfg.Gap(), from, to, |ts|);
    assert ts[u] <= ts[v] <= ts[w];
  }

  lemma LastSegmentEnds(ts: Times, cfg: Config)
    requires ts != []
    ensures ValStart(ts, cfg, cfg.splits) == ts[|ts| - 1]
  {
    Rounding.QuotientTimesStep(ts[|ts| - 1] - ts[0], (cfg.splits + 1) as real);
  }

  // The segment a time falls into.
  lemma {:induction false} SegmentOf(ts: Times, cfg: Config, t: real, n: nat) returns (id: nat)
    requires ts != [] && ValStart(ts, cfg, 0) <= t < ValStart(ts, cfg, n) && n > 0
    ensures id < n && ValStart(ts, cfg, id) <= t < ValStart(ts, cfg, id + 1)
  {
    if t >= ValStart(ts, cfg, n - 1) { id := n - 1; } else { id := SegmentOf(ts, cfg, t, n - 1); }
  }

  // When every fold is large enough, the validation sets together hold exactly the samples from the first segment's
  // end up to, but not including, the last time.
  lemma ValidationCovers(ts: Times, cfg: Config, i: nat)
    requires Ascending(ts) && ts != [] && i < |ts| && cfg.Gap() >= 0.0
    requires forall id | 0 <= id < cfg.splits :: LargeEnough(cfg, FoldAt(ts, cfg, id))
    ensures (exists f :: f in Folds(ts, cfg, cfg.splits) && i in f.val)
       <==> ts[0] + Segment(ts, cfg) <= ts[i] < ts[|ts| - 1]
  {
    FoldsExact(ts, cfg, cfg.splits);
    if ts[0] + Segment(ts, cfg) <= ts[i] < ts[|ts| - 1] {
      var id := CoveringFold(ts, cfg, i);
      assert FoldAt(ts, cfg, id) in Folds(ts, cfg, cfg.splits);
    }
    if f :| f in Folds(ts, cfg, cfg.splits) && i in f.val { CoveredTimes(ts, cfg, f.id, i); }
  }

  lemma FirstSegmentEnds(ts: Times, cfg: Config)
    requires ts != []
    ensures ValStart(ts, cfg, 0) == ts[0] + Segment(ts, cfg)
  {
  }

  lemma CoveringFold(ts: Times, cfg: Config, i: nat) returns (id: nat)
    requires ts != [] && i < |ts| && cfg.Gap() >= 0.0 && ts[0] + Segment(ts, cfg) <= ts[i] < ts[|ts| - 1]
    ensures id < cfg.splits && i in FoldAt(ts, cfg, id).val
  {
    LastSegmentEnds(ts, cfg);
    FirstSegmentEnds(ts, cfg);
    id := SegmentOf(ts, cfg, ts[i], cfg.splits);
    ValExact(ts, ValStart(ts, cfg, id) - cfg.Gap(), ValStart(ts, cfg, id), ValStart(ts, cfg, id + 1), |ts|);
  }

  lemma CoveredTimes(ts: Times, cfg: Config, id: nat, i: nat)
    requires Ascending(ts) && ts != [] && id < cfg.splits && i in FoldAt(ts, cfg, id).val
    ensures i < |ts| && ts[0] + Segment(ts, cfg) <= ts[i] < ts[|ts| - 1]
  {
    LastSegmentEnds(ts, cfg);
    FirstSegmentEnds(ts, cfg);
    ValExact(ts, ValStart(ts, cfg, id) - cfg.Gap(), ValStart(ts, cfg, id), ValStart(ts, cfg, id + 1), |ts|);
    StartsIncrease(ts, cfg, 0, id);
    StartsIncrease(ts, cfg, id + 1, cfg.splits);
  }

  // The folds yielded are the large enough ones, each under its own id.
  lemma {:induction false} FoldsExact(ts: Times, cfg: Config, n: nat)
    requires ts != []
    ensures forall f :: f in Folds(ts, cfg, n)
                   <==> f.id < n && f == FoldAt(ts, cfg, f.id) && |f.train| >= cfg.minTrain && |f.val| >= cfg.minVal
  {
    if n > 0 { FoldsExact(ts, cfg, n - 1); }
  }
}
