/** Keyed lookups the screens build with `forEach`, and the listing of a table. */
module Lookup {

  /** Position of the last element of `s` whose key is `k`, or -1 when none has it. */
  function LastIndexWith<T>(s: seq<T>, key: T -> int, k: int): (r: int)
    ensures -1 <= r < |s|
    ensures r >= 0 ==> key(s[r]) == k
    ensures forall j :: r < j < |s| ==> key(s[j]) != k
  {
    if s == [] then -1
    else if key(s[|s| - 1]) == k then |s| - 1
    else LastIndexWith(s[..|s| - 1], key, k)
  }

  lemma LastIndexSnoc<T>(s: seq<T>, n: nat, key: T -> int, k: int)
    requires n < |s|
    ensures LastIndexWith(s[..n + 1], key, k) ==
      if key(s[n]) == k then n else LastIndexWith(s[..n], key, k)
  {
    assert s[..n + 1][..n] == s[..n];
  }

  /** `s.forEach(x => m[key(x)] = x)`: every key present in `s` maps to the last
      element carrying it, and no other key is present. */
  method IndexBy<T>(s: seq<T>, key: T -> int) returns (m: map<int, T>)
    ensures forall k :: k in m <==> LastIndexWith(s, key, k) >= 0
    ensures forall k :: k in m ==> m[k] == s[LastIndexWith(s, key, k)]
  {
    m := map[];
    var n := 0;
    while n < |s|
      invariant 0 <= n <= |s|
      invariant forall k :: k in m <==> LastIndexWith(s[..n], key, k) >= 0
      invariant forall k :: k in m ==> m[k] == s[LastIndexWith(s[..n], key, k)]
    {
      forall k {
        LastIndexSnoc(s, n, key, k);
      }
      m := m[key(s[n]) := s[n]];
      n := n + 1;
    }
    assert s[..n] == s;
  }

  lemma EmptyOrHasElement(s: set<int>)
    ensures s == {} || exists k :: k in s
  {
    if forall k :: k !in s {
      assert s == {};
    }
  }

  lemma SubsetCardinality(a: set<int>, b: set<int>)
    requires a <= b
    ensures |a| <= |b|
    decreases |b|
  {
    EmptyOrHasElement(b);
    if b != {} {
      var x :| x in b;
      SubsetCardinality(a - {x}, b - {x});
    }
  }

  /** `v` is stored in `m` under some key. */
  ghost predicate Stored<V>(m: map<int, V>, v: V) {
    exists k :: k in m && m[k] == v
  }

  /** The values of a table, one per key, in some order. */
  method ValuesOf<V(==)>(m: map<int, V>) returns (s: seq<V>)
    ensures |s| == |m.Keys|
    ensures forall i :: 0 <= i < |s| ==> Stored(m, s[i])
    ensures forall k :: k in m ==> m[k] in s
  {
    s := [];
    var rest := m.Keys;
    while rest != {}
      invariant rest <= m.Keys
      invariant |s| + |rest| == |m.Keys|
      invariant forall i :: 0 <= i < |s| ==> Stored(m, s[i])
      invariant forall k :: k in m && k !in rest ==> m[k] in s
      decreases |rest|
    {
      EmptyOrHasElement(rest);
      var k :| k in rest;
      s := s + [m[k]];
      rest := rest - {k};
    }
  }
}
