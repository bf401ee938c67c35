// Small shared vocabulary: optional values and insertion-ordered dictionaries.
module Common {

  datatype Option<+T> = None | Some(value: T)

  ghost predicate Distinct<T>(s: seq<T>) {
    forall i, j | 0 <= i < j < |s| :: s[i] != s[j]
  }

  ghost function Elements<T>(s: seq<T>): set<T> { set x | x in s }

  // An insertion-ordered dictionary: the keys in order of first insertion, and the value each key has now.
  datatype Dict<V> = Dict(keys: seq<string>, entries: map<string, V>) {

    // Each key is listed exactly once.
    ghost predicate Listed() {
      && (forall i | 0 <= i < |keys| :: keys[i] in entries)
      && (forall k | k in entries :: k in keys)
      && Distinct(keys)
    }

    function Put(k: string, v: V): (d: Dict<V>)
      ensures Listed() ==> d.Listed()
    {
      Dict(if k in entries then keys else keys + [k], entries[k := v])
    }

    predicate Has(k: string) { k in entries }

    function Get(k: string): Option<V> {
      if k in entries then Some(entries[k]) else None
    }
  }

  function EmptyDict<V>(): (d: Dict<V>)
    ensures d.Listed()
  {
    Dict([], map[])
  }

  // A trade of the public stream; its time is in microseconds.
  datatype Trade = Trade(symbol: string, time: int, price: real, size: real)

  ghost predicate Ascending(s: seq<real>) { forall i, j | 0 <= i <= j < |s| :: s[i] <= s[j] }

  lemma ThreeListed<T>(a: T, b: T, c: T)
    ensures [] + [a] == [a] && [a] + [b] == [a, b] && [a, b] + [c] == [a, b, c]
  {
  }

  lemma LastTakenOut<T>(a: seq<T>)
    requires a != []
    ensures multiset(a) == multiset(a[..|a| - 1]) + multiset{a[|a| - 1]}
  {
    assert a == a[..|a| - 1] + [a[|a| - 1]];
  }

  lemma MiddleTakenOut<T>(b: seq<T>, i: nat)
    requires i < |b|
    ensures multiset(b) == multiset(b[..i] + b[i + 1..]) + multiset{b[i]}
  {
    assert b == b[..i] + ([b[i]] + b[i + 1..]);
  }

  // Two permutations of each other stay so when the same element is taken out of both.
  lemma PermutationWithout<T>(a: seq<T>, b: seq<T>, i: nat)
    requires multiset(a) == multiset(b) && a != [] && i < |b| && b[i] == a[|a| - 1]
    ensures multiset(a[..|a| - 1]) == multiset(b[..i] + b[i + 1..])
  {
    LastTakenOut(a);
    MiddleTakenOut(b, i);
    SameRest(multiset(a[..|a| - 1]), multiset(b[..i] + b[i + 1..]), b[i]);
  }

  lemma SameRest<T>(a: multiset<T>, b: multiset<T>, x: T)
    requires a + multiset{x} == b + multiset{x}
    ensures a == b
  {
    assert a == a + multiset{x} - multiset{x} && b == b + multiset{x} - multiset{x};
  }

  lemma Reassociate<T>(a: seq<T>, b: seq<T>, c: seq<T>)
    ensures a + (b + c) == a + b + c
  {
  }

  lemma CancelLess(a: int, b: int, c: int)
    requires c > 0 && a * c < b * c
    ensures a < b
  {
  }
}
