// Layering configuration files: recursive merging of YAML objects.
module ConfigMerge {
  import opened Common

  // Anything that is not an object is a leaf: scalars, lists and null are replaced whole.
  datatype Value = Leaf(text: string) | Object(fields: Config)

  type Config = map<string, Value>

  function Merge(base: Config, over: Config): Config
    decreases Object(over)
  {
    map k | k in base.Keys + over.Keys ::
      if k !in over then base[k]
      else if k in base && base[k].Object? && over[k].Object? then Object(Merge(base[k].fields, over[k].fields))
      else over[k]
  }

  // Merged at the keys already visited, the base's own values elsewhere.
  ghost predicate MergedExcept(base: Config, over: Config, left: set<string>, result: Config) {
    && left <= over.Keys
    && result.Keys == base.Keys + (over.Keys - left)
    && forall k | k in result :: result[k] == if k in left then base[k] else Merge(base, over)[k]
  }

  function Combined(existing: Option<Value>, value: Value): Value {
    if existing.Some? && existing.value.Object? && value.Object?
    then Object(Merge(existing.value.fields, value.fields)) else value
  }

  lemma MergedOneMore(base: Config, over: Config, left: set<string>, result: Config, key: string)
    requires MergedExcept(base, over, left, result) && key in left
    ensures MergedExcept(base, over, left - {key},
                         result[key := Combined(if key in result then Some(result[key]) else None, over[key])])
  {
    assert key in result <==> key in base;
    assert Combined(if key in result then Some(result[key]) else None, over[key]) == Merge(base, over)[key];
  }

  lemma MergedEverywhere(base: Config, over: Config, result: Config)
    requires MergedExcept(base, over, {}, result)
    ensures result == Merge(base, over)
  {
  }

  method DeepMerge(base: Config, over: Config) returns (result: Config)
    ensures result == Merge(base, over)
    decreases Object(over), 1
  {
    result := base;
    var left := over.Keys;
    while left != {}
      invariant MergedExcept(base, over, left, result)
      decreases |left|
    {
      var key :| key in left;
      MergedOneMore(base, over, left, result, key);
      var value := MergeValue(if key in result then Some(result[key]) else None, over[key]);
      result, left := result[key := value], left - {key};
    }
    MergedEverywhere(base, over, result);
  }

  method MergeValue(existing: Option<Value>, value: Value) returns (merged: Value)
    ensures merged == Combined(existing, value)
    decreases value, 2
  {
    if existing.Some? && existing.value.Object? && value.Object? {
      var fields := DeepMerge(existing.value.fields, value.fields);
      return Object(fields);
    }
    return value;
  }

  // ---------------------------------------------------------------------------------------------
  // The algebra of merging.

  lemma {:induction false} EmptyIsIdentity(c: Config)
    ensures Merge(map[], c) == c && Merge(c, map[]) == c
  {
  }

  lemma {:induction false} MergeIsIdempotent(c: Config)
    ensures Merge(c, c) == c
    decreases Object(c)
  {
    forall k | k in c ensures Merge(c, c)[k] == c[k] {
      if c[k].Object? { MergeIsIdempotent(c[k].fields); }
    }
  }

  // Everything a defines is defined by c again: merging c over a leaves nothing of a.
  ghost predicate Covered(a: Config, c: Config)
    decreases Object(c)
  {
    forall k | k in a :: k in c && (a[k].Object? && c[k].Object? ==> Covered(a[k].fields, c[k].fields))
  }

  lemma {:induction false} CoveredMeansReplaced(a: Config, c: Config)
    ensures Merge(a, c) == c <==> Covered(a, c)
    decreases Object(c)
  {
    var m := Merge(a, c);
    forall k | k in a && k in c && a[k].Object? && c[k].Object?
      ensures Merge(a[k].fields, c[k].fields) == c[k].fields <==> Covered(a[k].fields, c[k].fields)
    {
      CoveredMeansReplaced(a[k].fields, c[k].fields);
    }
    if m == c {
      forall k | k in a ensures k in c && (a[k].Object? && c[k].Object? ==> Covered(a[k].fields, c[k].fields)) {
        assert k in m && m[k] == c[k];
      }
    }
    if Covered(a, c) {
      forall k | k in m ensures k in c && m[k] == c[k] { }
      assert m == c;
    }
  }

  // Where the middle file puts a leaf between two objects, the outer objects must not have anything to merge.
  ghost predicate Associates(a: Config, b: Config, c: Config)
    decreases Object(c)
  {
    forall k | k in a && k in b && k in c && a[k].Object? && c[k].Object? ::
      if b[k].Object? then Associates(a[k].fields, b[k].fields, c[k].fields) else Covered(a[k].fields, c[k].fields)
  }

  // Merging is associative on three files exactly when they associate.
  lemma {:induction false} AssociativeIff(a: Config, b: Config, c: Config)
    ensures Merge(Merge(a, b), c) == Merge(a, Merge(b, c)) <==> Associates(a, b, c)
    decreases Object(c)
  {
    var l, r := Merge(Merge(a, b), c), Merge(a, Merge(b, c));
    assert l.Keys == r.Keys;
    forall k | k in l ensures l[k] == r[k] <==> AssociatesAt(a, b, c, k) {
      AssociativeAt(a, b, c, k);
    }
    if l == r {
      forall k | k in a && k in b && k in c && a[k].Object? && c[k].Object? ensures AssociatesAt(a, b, c, k) {
        assert k in l && l[k] == r[k];
      }
    } else {
      var k :| k in l && l[k] != r[k];
      assert !AssociatesAt(a, b, c, k);
    }
  }

  ghost predicate AssociatesAt(a: Config, b: Config, c: Config, k: string) {
    k in a && k in b && k in c && a[k].Object? && c[k].Object? ==>
      if b[k].Object? then Associates(a[k].fields, b[k].fields, c[k].fields) else Covered(a[k].fields, c[k].fields)
  }

  lemma AssociativeAt(a: Config, b: Config, c: Config, k: string)
    requires k in a || k in b || k in c
    ensures Merge(Merge(a, b), c)[k] == Merge(a, Merge(b, c))[k] <==> AssociatesAt(a, b, c, k)
    decreases Object(c), 0
  {
    if k in a && k in b && k in c && a[k].Object? && c[k].Object? {
      if b[k].Object? {
        AssociativeIff(a[k].fields, b[k].fields, c[k].fields);
      } else {
        CoveredMeansReplaced(a[k].fields, c[k].fields);
      }
    }
  }

  // ---------------------------------------------------------------------------------------------
  // Files that agree on what is an object.

  ghost predicate Compatible(a: Config, b: Config)
    decreases Object(b)
  {
    forall k | k in a && k in b ::
      (a[k].Object? <==> b[k].Object?) && (a[k].Object? && b[k].Object? ==> Compatible(a[k].fields, b[k].fields))
  }

  lemma {:induction false} CompatibleAssociate(a: Config, b: Config, c: Config)
    requires Compatible(a, b) && Compatible(b, c)
    ensures Associates(a, b, c)
    decreases Object(c)
  {
    forall k | k in a && k in b && k in c && a[k].Object? && c[k].Object?
      ensures b[k].Object? && Associates(a[k].fields, b[k].fields, c[k].fields)
    {
      CompatibleAssociate(a[k].fields, b[k].fields, c[k].fields);
    }
  }

  lemma {:induction false} MergeStaysCompatible(a: Config, b: Config, c: Config)
    requires Compatible(a, b) && Compatible(a, c) && Compatible(b, c)
    ensures Compatible(Merge(a, b), c)
    decreases Object(c)
  {
    var m := Merge(a, b);
    forall k | k in m && k in c
      ensures (m[k].Object? <==> c[k].Object?)
              && (m[k].Object? && c[k].Object? ==> Compatible(m[k].fields, c[k].fields))
    {
      if k in a && k in b && a[k].Object? && b[k].Object? {
        MergeStaysCompatible(a[k].fields, b[k].fields, c[k].fields);
      }
    }
  }

  // The leaf a path leads to, if it leads to one.
  function LeafAt(c: Config, path: seq<string>): Option<string>
    decreases |path|
  {
    if path == [] || path[0] !in c then None
    else
      match c[path[0]]
      case Leaf(text) => if |path| == 1 then Some(text) else None
      case Object(fields) => LeafAt(fields, path[1..])
  }

  function Later(a: Option<string>, b: Option<string>): Option<string> { if b.Some? then b else a }

  lemma {:induction false} LaterFileWins(a: Config, b: Config, path: seq<string>)
    requires Compatible(a, b)
    ensures LeafAt(Merge(a, b), path) == Later(LeafAt(a, path), LeafAt(b, path))
    decreases |path|
  {
    if path != [] {
      var k := path[0];
      if k in a && k in b && a[k].Object? && b[k].Object? {
        LaterFileWins(a[k].fields, b[k].fields, path[1..]);
      }
    }
  }

  // ---------------------------------------------------------------------------------------------
  // The configuration stack.

  function Stack(files: seq<Config>): Config {
    if files == [] then map[] else Merge(Stack(files[..|files| - 1]), files[|files| - 1])
  }

  // The value of the last file that defines the path.
  function LastDefinition(files: seq<Config>, path: seq<string>): Option<string> {
    if files == [] then None
    else Later(LastDefinition(files[..|files| - 1], path), LeafAt(files[|files| - 1], path))
  }

  ghost predicate AllCompatible(files: seq<Config>) {
    forall i, j | 0 <= i < j < |files| :: Compatible(files[i], files[j])
  }

  lemma {:induction false} StackStaysCompatible(files: seq<Config>, c: Config)
    requires AllCompatible(files) && forall i | 0 <= i < |files| :: Compatible(files[i], c)
    ensures Compatible(Stack(files), c)
  {
    if files != [] {
      var before, last := files[..|files| - 1], files[|files| - 1];
      StackStaysCompatible(before, last);
      StackStaysCompatible(before, c);
      MergeStaysCompatible(Stack(before), last, c);
    }
  }

  // In a stack of files that agree on what is an object, every leaf path takes its value from the last file defining
  // it.
  lemma {:induction false} StackTakesLast(files: seq<Config>, path: seq<string>)
    requires AllCompatible(files)
    ensures LeafAt(Stack(files), path) == LastDefinition(files, path)
  {
    if files != [] {
      var before, last := files[..|files| - 1], files[|files| - 1];
      StackTakesLast(before, path);
      StackStaysCompatible(before, last);
      LaterFileWins(Stack(before), last, path);
    }
  }

  // What is found at a path. An empty file reads as an empty object.
  datatype File = Missing | Empty | NotAnObject | Holds(config: Config)

  predicate Readable(f: File) { f.Empty? || f.Holds? }

  function Content(f: File): Config
    requires Readable(f)
  {
    if f.Empty? then map[] else f.config
  }

  // The outcome of loading: the merged configuration, or the file it failed on.
  datatype Loaded = Merged(config: Config) | Failed(file: nat)

  // Only the model registry may be missing.
  function OptionalFile(f: File): File { if f.Missing? then Empty else f }

  ghost predicate FailsOn(files: seq<File>, i: nat) {
    i < |files| && !Readable(files[i]) && forall j | 0 <= j < i :: Readable(files[j])
  }

  // The six files are read and merged in their order, and the first that cannot be read fails the whole.
  method LoadConfigStack(
    base: File, env: File, symbols: File, riskLimits: File, logging: File, modelRegistry: File) returns (r: Loaded)
    ensures var files := [base, env, symbols, riskLimits, logging, OptionalFile(modelRegistry)];
            match r
            case Failed(i) => FailsOn(files, i)
            case Merged(config) =>
              && (forall i | 0 <= i < |files| :: Readable(files[i]))
              && config == Stack(seq(|files|, i requires 0 <= i < |files| => Content(files[i])))
  {
    if !Readable(base) { return Failed(0); }
    if !Readable(env) { return Failed(1); }
    if !Readable(symbols) { return Failed(2); }
    if !Readable(riskLimits) { return Failed(3); }
    if !Readable(logging) { return Failed(4); }
    if modelRegistry.NotAnObject? { return Failed(5); }
    var registry := OptionalFile(modelRegistry);
    var merged := MergeSix(Content(base), Content(env), Content(symbols), Content(riskLimits), Content(logging),
                           Content(registry));
    ghost var files := [base, env, symbols, riskLimits, logging, registry];
    assert [Content(base), Content(env), Content(symbols), Content(riskLimits), Content(logging), Content(registry)]
        == seq(|files|, i requires 0 <= i < |files| => Content(files[i]));
    return Merged(merged);
  }

  method MergeSix(a: Config, b: Config, c: Config, d: Config, e: Config, f: Config) returns (merged: Config)
    ensures merged == Stack([a, b, c, d, e, f])
  {
    merged := DeepMerge(a, b);
    merged := DeepMerge(merged, c);
    merged := DeepMerge(merged, d);
    merged := DeepMerge(merged, e);
    merged := DeepMerge(merged, f);
    StackOfSix(a, b, c, d, e, f);
  }

  lemma StackOneMore(files: seq<Config>, c: Config)
    ensures Stack(files + [c]) == Merge(Stack(files), c)
  {
    assert (files + [c])[..|files|] == files;
  }

  lemma StackOfOne(c: Config)
    ensures Stack([c]) == c
  {
    StackOneMore([], c);
    EmptyIsIdentity(c);
    assert [] + [c] == [c];
  }

  lemma SixListed<T>(a: T, b: T, c: T, d: T, e: T, f: T)
    ensures [a, b, c, d, e, f] == [a] + [b] + [c] + [d] + [e] + [f]
  {
  }

  lemma StackOfSix(a: Config, b: Config, c: Config, d: Config, e: Config, f: Config)
    ensures Stack([a, b, c, d, e, f]) == Merge(Merge(Merge(Merge(Merge(a, b), c), d), e), f)
  {
    SixListed(a, b, c, d, e, f);
    var two, four := [a] + [b], [a] + [b] + [c] + [d];
    StackOfOne(a);
    StackOneMore([a], b);
    StackOneMore(two, c);
    StackOneMore(two + [c], d);
    StackOneMore(four, e);
    StackOneMore(four + [e], f);
  }

  // A file that puts a leaf where the files around it have objects makes grouping matter.
  lemma LeafBetweenObjects(k: string, x: string, y: string, v: Value, w: Value)
    requires x != y
    ensures var a, b, c := map[k := Object(map[x := v])], map[k := Leaf("")], map[k := Object(map[y := w])];
            Merge(Merge(a, b), c) != Merge(a, Merge(b, c))
  {
    var a: Config, b: Config, c: Config :=
      map[k := Object(map[x := v])], map[k := Leaf("")], map[k := Object(map[y := w])];
    assert x in a[k].fields && x !in c[k].fields;
    assert !Covered(a[k].fields, c[k].fields);
    AssociativeIff(a, b, c);
  }
}
