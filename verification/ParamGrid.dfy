// Expanding a parameter grid by backtracking over one shared dict.
module ParamGrid {
  import opened Common

  // ---------------------------------------------------------------------------------------------
  // The Cartesian product, in lexicographic order.

  function Prepend<V>(v: V, ts: seq<seq<V>>): (r: seq<seq<V>>)
    ensures |r| == |ts| && forall i | 0 <= i < |ts| :: r[i] == [v] + ts[i]
  {
    seq(|ts|, i requires 0 <= i < |ts| => [v] + ts[i])
  }

  function Branches<V>(choices: seq<V>, rest: seq<seq<V>>): seq<seq<V>> {
    if choices == [] then [] else Prepend(choices[0], rest) + Branches(choices[1..], rest)
  }

  function Tuples<V>(values: seq<seq<V>>): seq<seq<V>> {
    if values == [] then [[]] else Branches(values[0], Tuples(values[1..]))
  }

  lemma {:induction false} BranchesOneMore<V>(choices: seq<V>, rest: seq<seq<V>>, j: nat)
    requires j < |choices|
    ensures Branches(choices[..j + 1], rest) == Branches(choices[..j], rest) + Prepend(choices[j], rest)
  {
    if j == 0 {
      assert choices[..1][1..] == [] && choices[..0] == [];
    } else {
      BranchesOneMore(choices[1..], rest, j - 1);
      assert choices[..j + 1][1..] == choices[1..][..j] && choices[..j][1..] == choices[1..][..j - 1];
    }
  }

  // The number of tuples, and the i-th of them read as mixed-radix digits, most significant first.
  function Size<V>(values: seq<seq<V>>): nat {
    if values == [] then 1 else |values[0]| * Size(values[1..])
  }

  function Decode<V>(values: seq<seq<V>>, i: nat): seq<V>
    requires i < Size(values)
  {
    if values == [] then []
    else
      DigitInRange(i, |values[0]|, Size(values[1..]));
      [values[0][i / Size(values[1..])]] + Decode(values[1..], i % Size(values[1..]))
  }

  lemma DigitInRange(i: nat, high: nat, low: nat)
    requires i < high * low
    ensures low > 0 && i / low < high && i % low < low
  {
    assert low > 0;
    assert i == i / low * low + i % low;
    CancelLess(i / low, high, low);
  }

  lemma NextDigit(i: nat, low: nat)
    requires i >= low > 0
    ensures (i - low) / low == i / low - 1 && (i - low) % low == i % low
  {
    assert i == i / low * low + i % low;
    QuotientIsUnique(i - low, low, i / low - 1, i % low);
  }

  lemma QuotientIsUnique(i: int, low: nat, q: int, r: int)
    requires low > 0 && i == q * low + r && 0 <= r < low
    ensures i / low == q && i % low == r
  {
    SameQuotient(low, q, r, i / low, i % low);
  }

  lemma SameQuotient(low: nat, q: int, r: int, p: int, s: int)
    requires low > 0 && q * low + r == p * low + s && 0 <= r < low && 0 <= s < low
    ensures p == q && s == r
  {
    CancelLess(p, q + 1, low);
    CancelLess(q, p + 1, low);
  }

  lemma {:induction false} BranchAt<V>(choices: seq<V>, rest: seq<seq<V>>, i: nat)
    requires i < |choices| * |rest|
    ensures |rest| > 0 && i / |rest| < |choices| && i % |rest| < |rest|
    ensures |Branches(choices, rest)| == |choices| * |rest|
    ensures Branches(choices, rest)[i] == [choices[i / |rest|]] + rest[i % |rest|]
  {
    DigitInRange(i, |choices|, |rest|);
    BranchesSize(choices, rest);
    if i < |rest| {
      QuotientIsUnique(i, |rest|, 0, i);
    } else {
      BranchesSize(choices[1..], rest);
      assert (|choices| - 1) * |rest| == |choices| * |rest| - |rest|;
      BranchAt(choices[1..], rest, i - |rest|);
      NextDigit(i, |rest|);
    }
  }

  lemma {:induction false} BranchesSize<V>(choices: seq<V>, rest: seq<seq<V>>)
    ensures |Branches(choices, rest)| == |choices| * |rest|
  {
    if choices != [] {
      BranchesSize(choices[1..], rest);
      assert (|choices| - 1) * |rest| == |choices| * |rest| - |rest|;
    }
  }

  lemma {:induction false} TuplesSize<V>(values: seq<seq<V>>)
    ensures |Tuples(values)| == Size(values)
  {
    if values != [] {
      TuplesSize(values[1..]);
      BranchesSize(values[0], Tuples(values[1..]));
    }
  }

  // Entry i of the expansion is the mixed-radix decoding of i.
  lemma {:induction false} TupleAt<V>(values: seq<seq<V>>, i: nat)
    requires i < Size(values)
    ensures i < |Tuples(values)| && Tuples(values)[i] == Decode(values, i)
  {
    TuplesSize(values);
    if values != [] {
      TuplesSize(values[1..]);
      BranchAt(values[0], Tuples(values[1..]), i);
      TupleAt(values[1..], i % Size(values[1..]));
    }
  }

  ghost predicate Chosen<V>(values: seq<seq<V>>, t: seq<V>) {
    |t| == |values| && forall j | 0 <= j < |t| :: t[j] in values[j]
  }

  lemma {:induction false} BranchesExact<V>(choices: seq<V>, rest: seq<seq<V>>, t: seq<V>)
    ensures t in Branches(choices, rest) <==> t != [] && t[0] in choices && t[1..] in rest
  {
    if choices != [] {
      BranchesExact(choices[1..], rest, t);
      var mine := Prepend(choices[0], rest);
      assert Branches(choices, rest) == mine + Branches(choices[1..], rest);
      if t in mine {
        var i :| 0 <= i < |mine| && mine[i] == t;
        assert t == [choices[0]] + rest[i] && t[1..] == rest[i];
      }
      if t != [] && t[0] == choices[0] && t[1..] in rest {
        var i :| 0 <= i < |rest| && rest[i] == t[1..];
        assert mine[i] == t;
      }
      assert choices == [choices[0]] + choices[1..];
    }
  }

  // The expansion holds exactly the tuples that pick one value per parameter.
  lemma {:induction false} TuplesExact<V>(values: seq<seq<V>>, t: seq<V>)
    ensures t in Tuples(values) <==> Chosen(values, t)
  {
    if values != [] {
      BranchesExact(values[0], Tuples(values[1..]), t);
      if t != [] {
        TuplesExact(values[1..], t[1..]);
        assert forall j | 0 <= j < |t| - 1 :: t[1..][j] == t[j + 1];
        assert forall j | 0 <= j < |values| - 1 :: values[1..][j] == values[j + 1];
        if Chosen(values[1..], t[1..]) && t[0] in values[0] {
          forall j | 0 <= j < |t| ensures t[j] in values[j] {
            if j > 0 { assert t[1..][j - 1] in values[1..][j - 1]; }
          }
        }
      }
    }
  }

  // ---------------------------------------------------------------------------------------------
  // The backtracking expansion.

  function Named<V>(keys: seq<string>, t: seq<V>): map<string, V>
    requires |t| == |keys| && Distinct(keys)
  {
    map k | k in keys :: t[IndexOf(keys, k)]
  }

  function IndexOf(keys: seq<string>, k: string): (i: nat)
    requires k in keys
    ensures i < |keys| && keys[i] == k
  {
    if keys[0] == k then 0 else 1 + IndexOf(keys[1..], k)
  }

  // One dict per way of completing the prefix.
  function Rows<V>(keys: seq<string>, prefix: seq<V>, ts: seq<seq<V>>): (r: seq<map<string, V>>)
    requires Distinct(keys) && Fit(keys, prefix, ts)
    ensures |r| == |ts| && forall i | 0 <= i < |ts| :: r[i] == Named(keys, prefix + ts[i])
  {
    seq(|ts|, i requires 0 <= i < |ts| => Named(keys, prefix + ts[i]))
  }

  lemma {:induction false} TupleLengths<V>(values: seq<seq<V>>)
    ensures forall t | t in Tuples(values) :: |t| == |values|
  {
    forall t | t in Tuples(values) ensures |t| == |values| { TuplesExact(values, t); }
  }

  // current is the dict all branches share: deeper keys keep stale values between branches.
  class Expansion<V> {
    var current: map<string, V>
    var out: seq<map<string, V>>

    constructor ()
      ensures current == map[] && out == []
    {
      current, out := map[], [];
    }

    // The dict holds the chosen prefix, and nothing but parameter names.
    ghost predicate Holds(keys: seq<string>, prefix: seq<V>)
      reads this
    {
      && |prefix| <= |keys|
      && (forall k | k in current :: k in keys)
      && (forall j | 0 <= j < |prefix| :: keys[j] in current && current[keys[j]] == prefix[j])
    }

    method Product(keys: seq<string>, values: seq<seq<V>>, idx: nat, ghost prefix: seq<V>)
      requires |keys| == |values| && Distinct(keys) && idx == |prefix| && Holds(keys, prefix)
      requires Fit(keys, prefix, Tuples(values[idx..]))
      modifies this
      ensures Holds(keys, prefix)
      ensures out == old(out) + Rows(keys, prefix, Tuples(values[idx..]))
      decreases |keys| - idx, 1
    {
      if idx == |keys| {
        EmitCopy(keys, prefix);
        assert values[idx..] == [];
        return;
      }
      ghost var rest, was := values[idx + 1..], out;
      assert values[idx..][1..] == rest && values[idx..][0] == values[idx];
      for j := 0 to |values[idx]|
        invariant Holds(keys, prefix)
        invariant Fit(keys, prefix, Branches(values[idx][..j], Tuples(rest)))
        invariant out == was + Rows(keys, prefix, Branches(values[idx][..j], Tuples(rest)))
      {
        ProductOf(keys, values, idx, prefix, j, was);
      }
      assert values[idx][..|values[idx]|] == values[idx];
    }

    // One value of the parameter at idx, and everything below it.
    method ProductOf(
      keys: seq<string>, values: seq<seq<V>>, idx: nat, ghost prefix: seq<V>, j: nat, ghost was: seq<map<string, V>>)
      requires |keys| == |values| && Distinct(keys) && idx == |prefix| < |keys| && Holds(keys, prefix)
               && j < |values[idx]|
      requires Fit(keys, prefix, Branches(values[idx][..j], Tuples(values[idx + 1..])))
      requires out == was + Rows(keys, prefix, Branches(values[idx][..j], Tuples(values[idx + 1..])))
      modifies this
      ensures Holds(keys, prefix)
      ensures Fit(keys, prefix, Branches(values[idx][..j + 1], Tuples(values[idx + 1..])))
      ensures out == was + Rows(keys, prefix, Branches(values[idx][..j + 1], Tuples(values[idx + 1..])))
      decreases |keys| - idx, 0
    {
      RowsOneMore(keys, prefix, values[idx], values[idx + 1..], j);
      Choose(keys, idx, prefix, values[idx][j]);
      Product(keys, values, idx + 1, prefix + [values[idx][j]]);
      Reassociate(was, Rows(keys, prefix, Branches(values[idx][..j], Tuples(values[idx + 1..]))),
                  Rows(keys, prefix + [values[idx][j]], Tuples(values[idx + 1..])));
      Shorter(keys, prefix, values[idx][j]);
    }

    method Choose(keys: seq<string>, idx: nat, ghost prefix: seq<V>, v: V)
      requires Distinct(keys) && Holds(keys, prefix) && idx == |prefix| < |keys|
      modifies `current
      ensures Holds(keys, prefix + [v])
    {
      current := current[keys[idx] := v];
    }

    lemma Shorter(keys: seq<string>, prefix: seq<V>, v: V)
      requires Holds(keys, prefix + [v])
      ensures Holds(keys, prefix)
    {
      assert forall j | 0 <= j < |prefix| :: (prefix + [v])[j] == prefix[j];
    }

    method EmitCopy(keys: seq<string>, ghost prefix: seq<V>)
      requires Distinct(keys) && |prefix| == |keys| && Holds(keys, prefix)
      modifies `out
      ensures Fit(keys, prefix, [[]]) && out == old(out) + Rows(keys, prefix, [[]])
    {
      CompletePrefix(keys, prefix);
      out := out + [current];
      assert prefix + [] == prefix;
    }

    // At a leaf the dict is exactly the chosen assignment, stale values and all others having been overwritten.
    lemma CompletePrefix(keys: seq<string>, prefix: seq<V>)
      requires Distinct(keys) && |prefix| == |keys| && Holds(keys, prefix)
      ensures current == Named(keys, prefix)
    {
      forall k | k in keys ensures k in current && current[k] == prefix[IndexOf(keys, k)] { }
    }
  }

  ghost predicate Fit<V>(keys: seq<string>, prefix: seq<V>, ts: seq<seq<V>>) {
    forall i | 0 <= i < |ts| :: |prefix| + |ts[i]| == |keys|
  }

  lemma RowsConcat<V>(keys: seq<string>, prefix: seq<V>, a: seq<seq<V>>, b: seq<seq<V>>)
    requires Distinct(keys) && Fit(keys, prefix, a) && Fit(keys, prefix, b)
    ensures Fit(keys, prefix, a + b) && Rows(keys, prefix, a + b) == Rows(keys, prefix, a) + Rows(keys, prefix, b)
  {
  }

  lemma RowsPrepend<V>(keys: seq<string>, prefix: seq<V>, v: V, ts: seq<seq<V>>)
    requires Distinct(keys) && Fit(keys, prefix + [v], ts)
    ensures Fit(keys, prefix, Prepend(v, ts)) && Rows(keys, prefix, Prepend(v, ts)) == Rows(keys, prefix + [v], ts)
  {
    forall i | 0 <= i < |ts| ensures prefix + Prepend(v, ts)[i] == prefix + [v] + ts[i] { }
  }

  lemma RowsOneMore<V>(keys: seq<string>, prefix: seq<V>, choices: seq<V>, rest: seq<seq<V>>, j: nat)
    requires Distinct(keys) && j < |choices| && |prefix| + 1 + |rest| == |keys|
    requires Fit(keys, prefix, Branches(choices[..j], Tuples(rest)))
    ensures Fit(keys, prefix, Branches(choices[..j + 1], Tuples(rest)))
            && Fit(keys, prefix + [choices[j]], Tuples(rest))
    ensures Rows(keys, prefix, Branches(choices[..j + 1], Tuples(rest)))
         == Rows(keys, prefix, Branches(choices[..j], Tuples(rest))) + Rows(keys, prefix + [choices[j]], Tuples(rest))
  {
    BranchesOneMore(choices, Tuples(rest), j);
    TupleLengths(rest);
    RowsPrepend(keys, prefix, choices[j], Tuples(rest));
    RowsConcat(keys, prefix, Branches(choices[..j], Tuples(rest)), Prepend(choices[j], Tuples(rest)));
  }

  // The grid expands to one dict per tuple, in lexicographic order of the lists.
  method ExpandGrid<V>(keys: seq<string>, values: seq<seq<V>>) returns (result: seq<map<string, V>>)
    requires |keys| == |values| && Distinct(keys)
    ensures Fit(keys, [], Tuples(values)) && result == Rows(keys, [], Tuples(values))
  {
    TupleLengths(values);
    if keys == [] {
      assert Named<V>(keys, []) == map[];
      return [map[]];
    }
    var expansion := new Expansion<V>();
    assert values[0..] == values;
    expansion.Product(keys, values, 0, []);
    result := expansion.out;
  }
}
