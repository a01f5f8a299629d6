/** The list operations the screens build their projections from: JavaScript's
    `filter`, `reduce` into a sum, `find`, and order-preserving selection. */
module Seqs {
  import opened Wrappers

  /** The elements of `s` that satisfy `p`, in their original order
      (`s.filter(p)`). */
  function Filter<T>(s: seq<T>, p: T -> bool): (r: seq<T>)
    ensures |r| <= |s|
    ensures forall i :: 0 <= i < |r| ==> r[i] in s && p(r[i])
    ensures forall i :: 0 <= i < |s| && p(s[i]) ==> s[i] in r
  {
    if s == [] then []
    else Filter(s[..|s| - 1], p) + (if p(s[|s| - 1]) then [s[|s| - 1]] else [])
  }

  /** The complement of a predicate. */
  function Neg<T>(p: T -> bool): T -> bool {
    x => !p(x)
  }

  /** Both predicates at once. */
  function Both<T>(p: T -> bool, q: T -> bool): T -> bool {
    x => p(x) && q(x)
  }

  /** Number of elements of `s` satisfying `p` (`s.filter(p).length`). */
  function Count<T>(s: seq<T>, p: T -> bool): nat {
    |Filter(s, p)|
  }

  /** `s.reduce((sum, x) => sum + f(x), 0)`. */
  function SumBy<T>(s: seq<T>, f: T -> int): int {
    if s == [] then 0 else SumBy(s[..|s| - 1], f) + f(s[|s| - 1])
  }

  /** `a` is `b` with some elements left out, the rest in the same order. */
  predicate IsSubseq<T(==)>(a: seq<T>, b: seq<T>)
    decreases |b|
  {
    if b == [] then a == []
    else
      (a != [] && a[|a| - 1] == b[|b| - 1] && IsSubseq(a[..|a| - 1], b[..|b| - 1]))
      || IsSubseq(a, b[..|b| - 1])
  }

  /** Index of the first element satisfying `p`, or `|s|` when there is none. */
  function FirstIndex<T>(s: seq<T>, p: T -> bool): (k: nat)
    ensures k <= |s|
    ensures forall j :: 0 <= j < k ==> !p(s[j])
    ensures k < |s| ==> p(s[k])
  {
    if s == [] then 0
    else if p(s[0]) then 0
    else 1 + FirstIndex(s[1..], p)
  }

  /** `s.find(p)`: the first element satisfying `p`, if any. */
  function Find<T>(s: seq<T>, p: T -> bool): (r: Option<T>)
    ensures r.None? <==> forall j :: 0 <= j < |s| ==> !p(s[j])
    ensures r.Some? ==> r.value in s && p(r.value)
  {
    var k := FirstIndex(s, p);
    if k < |s| then Some(s[k]) else None
  }

  /** The first element `filter` keeps is the one `FirstIndex` points at, and
      `filter` keeps nothing exactly when no element passes. */
  lemma {:induction false} FilterHead<T>(s: seq<T>, p: T -> bool)
    ensures Filter(s, p) == [] <==> FirstIndex(s, p) == |s|
    ensures Filter(s, p) != [] ==> Filter(s, p)[0] == s[FirstIndex(s, p)]
  {
    if s != [] {
      assert s == [s[0]] + s[1..];
      FilterConcat([s[0]], s[1..], p);
      assert [s[0]][..0] == [];
      FilterHead(s[1..], p);
    }
  }

  /** Appending one element extends the filtered list by that element exactly when
      it passes. */
  lemma FilterSnoc<T>(s: seq<T>, x: T, p: T -> bool)
    ensures Filter(s + [x], p) == Filter(s, p) + (if p(x) then [x] else [])
  {
    assert (s + [x])[..|s + [x]| - 1] == s;
  }

  /** Filtering distributes over concatenation. */
  lemma {:induction false} FilterConcat<T>(a: seq<T>, b: seq<T>, p: T -> bool)
    ensures Filter(a + b, p) == Filter(a, p) + Filter(b, p)
    decreases |b|
  {
    if b == [] {
      assert a + b == a;
    } else {
      var b', x := b[..|b| - 1], b[|b| - 1];
      assert a + b == (a + b') + [x];
      FilterSnoc(a + b', x, p);
      FilterConcat(a, b', p);
      FilterSnoc(b', x, p);
      assert b == b' + [x];
    }
  }

  /** Filtering with a predicate every element passes changes nothing. */
  lemma {:induction false} FilterAll<T>(s: seq<T>, p: T -> bool)
    requires forall i :: 0 <= i < |s| ==> p(s[i])
    ensures Filter(s, p) == s
  {
    if s != [] {
      FilterAll(s[..|s| - 1], p);
    }
  }

  /** Predicates that agree on every element of `s` keep the same elements. */
  lemma {:induction false} FilterCongruent<T>(s: seq<T>, p: T -> bool, q: T -> bool)
    requires forall i :: 0 <= i < |s| ==> p(s[i]) == q(s[i])
    ensures Filter(s, p) == Filter(s, q)
  {
    if s != [] {
      FilterCongruent(s[..|s| - 1], p, q);
    }
  }

  /** Filtering twice is filtering once by both predicates. */
  lemma {:induction false} FilterFilter<T>(s: seq<T>, p: T -> bool, q: T -> bool)
    ensures Filter(Filter(s, p), q) == Filter(s, Both(p, q))
  {
    if s != [] {
      var s', x := s[..|s| - 1], s[|s| - 1];
      FilterFilter(s', p, q);
      assert Filter(s, Both(p, q)) == Filter(s', Both(p, q)) + (if p(x) && q(x) then [x] else []);
      if p(x) {
        assert Filter(s, p) == Filter(s', p) + [x];
        FilterSnoc(Filter(s', p), x, q);
      } else {
        assert Filter(s, p) == Filter(s', p);
      }
    }
  }

  /** Sums of pointwise sums split into the two sums. */
  lemma {:induction false} SumByAdd<T>(s: seq<T>, f: T -> int, g: T -> int, h: T -> int)
    requires forall i :: 0 <= i < |s| ==> f(s[i]) == g(s[i]) + h(s[i])
    ensures SumBy(s, f) == SumBy(s, g) + SumBy(s, h)
  {
    if s != [] {
      SumByAdd(s[..|s| - 1], f, g, h);
    }
  }

  /** Something passes the filter exactly when some element satisfies the predicate. */
  lemma CountPositiveIff<T>(s: seq<T>, p: T -> bool)
    ensures Count(s, p) > 0 <==> exists i :: 0 <= i < |s| && p(s[i])
  {
    if Count(s, p) > 0 {
      var r := Filter(s, p);
      assert p(r[0]) && r[0] in s;
    }
  }

  /** A predicate implied by another keeps at least as many elements. */
  lemma {:induction false} CountMonotone<T>(s: seq<T>, p: T -> bool, q: T -> bool)
    requires forall i :: 0 <= i < |s| ==> p(s[i]) ==> q(s[i])
    ensures Count(s, p) <= Count(s, q)
  {
    if s != [] {
      CountMonotone(s[..|s| - 1], p, q);
    }
  }

  /** Every element lands in exactly one of `Filter(s, p)` and `Filter(s, Neg(p))`,
      so the two sizes add up to `|s|`. */
  lemma {:induction false} PartitionCount<T>(s: seq<T>, p: T -> bool)
    ensures Count(s, p) + Count(s, Neg(p)) == |s|
  {
    if s != [] {
      PartitionCount(s[..|s| - 1], p);
    }
  }

  /** Sums over the two halves of a partition add up to the sum over the whole. */
  lemma {:induction false} PartitionSum<T>(s: seq<T>, p: T -> bool, f: T -> int)
    ensures SumBy(Filter(s, p), f) + SumBy(Filter(s, Neg(p)), f) == SumBy(s, f)
  {
    if s != [] {
      var s', x := s[..|s| - 1], s[|s| - 1];
      PartitionSum(s', p, f);
      if p(x) {
        assert !Neg(p)(x);
        assert Filter(s, p) == Filter(s', p) + [x];
        assert Filter(s, Neg(p)) == Filter(s', Neg(p));
        SumSnoc(Filter(s', p), x, f);
      } else {
        assert Neg(p)(x);
        assert Filter(s, p) == Filter(s', p);
        assert Filter(s, Neg(p)) == Filter(s', Neg(p)) + [x];
        SumSnoc(Filter(s', Neg(p)), x, f);
      }
    }
  }

  /** Replacing one element changes a filtered sum by the old element's share
      out and the new element's share in. */
  lemma {:induction false} FilterSumUpdate<T>(s: seq<T>, i: nat, x: T, p: T -> bool, f: T -> int)
    requires i < |s|
    ensures SumBy(Filter(s[i := x], p), f)
      == SumBy(Filter(s, p), f) - (if p(s[i]) then f(s[i]) else 0) + (if p(x) then f(x) else 0)
  {
    var n := |s| - 1;
    var t := s[i := x];
    var before, after := s[..n], t[..n];
    var sx := if p(x) then f(x) else 0;
    var si := if p(s[i]) then f(s[i]) else 0;
    FilterSumLast(t, p, f);
    FilterSumLast(s, p, f);
    if i == n {
      assert after == before;
      assert SumBy(Filter(t, p), f) == SumBy(Filter(before, p), f) + sx;
      assert SumBy(Filter(s, p), f) == SumBy(Filter(before, p), f) + si;
    } else {
      assert after == before[i := x];
      assert before[i] == s[i];
      FilterSumUpdate(before, i, x, p, f);
      assert SumBy(Filter(after, p), f) == SumBy(Filter(before, p), f) - si + sx;
      assert t[n] == s[n];
    }
  }

  /** A filtered sum grows by the last element's share. */
  lemma FilterSumLast<T>(s: seq<T>, p: T -> bool, f: T -> int)
    requires s != []
    ensures SumBy(Filter(s, p), f)
      == SumBy(Filter(s[..|s| - 1], p), f) + (if p(s[|s| - 1]) then f(s[|s| - 1]) else 0)
  {
    var n := |s| - 1;
    if p(s[n]) {
      assert Filter(s, p) == Filter(s[..n], p) + [s[n]];
      SumSnoc(Filter(s[..n], p), s[n], f);
    } else {
      assert Filter(s, p) == Filter(s[..n], p);
    }
  }

  lemma {:induction false} SumConcat<T>(a: seq<T>, b: seq<T>, f: T -> int)
    ensures SumBy(a + b, f) == SumBy(a, f) + SumBy(b, f)
  {
    if b != [] {
      var n := |b| - 1;
      SumConcat(a, b[..n], f);
      assert (a + b)[..|a + b| - 1] == a + b[..n];
    } else {
      assert a + b == a;
    }
  }

  /** Reordering a list does not change a sum over it. */
  lemma {:induction false} SumPermutation<T>(a: seq<T>, b: seq<T>, f: T -> int)
    requires multiset(a) == multiset(b)
    ensures SumBy(a, f) == SumBy(b, f)
    decreases |a|
  {
    if a != [] {
      var n := |a| - 1;
      var x := a[n];
      assert a == a[..n] + [x];
      assert x in multiset(b);
      var j :| 0 <= j < |b| && b[j] == x;
      var rest := b[..j] + b[j + 1..];
      assert b == b[..j] + [x] + b[j + 1..];
      assert multiset(a) == multiset(a[..n]) + multiset{x};
      assert multiset(b) == multiset(b[..j]) + multiset{x} + multiset(b[j + 1..]);
      assert multiset(rest) == multiset(b[..j]) + multiset(b[j + 1..]);
      calc {
        multiset(a[..n]);
        multiset(a) - multiset{x};
        multiset(b) - multiset{x};
        multiset(rest);
      }
      SumPermutation(a[..n], rest, f);
      SumConcat(b[..j] + [x], b[j + 1..], f);
      SumSnoc(b[..j], x, f);
      SumConcat(b[..j], b[j + 1..], f);
    } else {
      assert |multiset(b)| == 0;
    }
  }

  lemma SumSnoc<T>(s: seq<T>, x: T, f: T -> int)
    ensures SumBy(s + [x], f) == SumBy(s, f) + f(x)
  {
    assert (s + [x])[..|s + [x]| - 1] == s;
  }

  /** A sum of non-negative terms over a filtered list never exceeds the sum over
      the whole list. */
  lemma FilterSumLe<T>(s: seq<T>, p: T -> bool, f: T -> int)
    requires forall i :: 0 <= i < |s| ==> f(s[i]) >= 0
    ensures SumBy(Filter(s, p), f) <= SumBy(s, f)
  {
    PartitionSum(s, p, f);
    SumNonNegative(Filter(s, Neg(p)), f);
  }

  lemma {:induction false} SumNonNegative<T>(s: seq<T>, f: T -> int)
    requires forall i :: 0 <= i < |s| ==> f(s[i]) >= 0
    ensures SumBy(s, f) >= 0
  {
    if s != [] {
      SumNonNegative(s[..|s| - 1], f);
    }
  }

  /** Filtering keeps the order of what it keeps. */
  lemma {:induction false} FilterIsSubseq<T>(s: seq<T>, p: T -> bool)
    ensures IsSubseq(Filter(s, p), s)
  {
    if s != [] {
      var s', x := s[..|s| - 1], s[|s| - 1];
      FilterIsSubseq(s', p);
      var r := Filter(s, p);
      if p(x) {
        assert r == Filter(s', p) + [x];
        assert r[..|r| - 1] == Filter(s', p);
        assert r[|r| - 1] == s[|s| - 1];
      } else {
        assert r == Filter(s', p);
      }
    }
  }

  /** Filtering by a weaker predicate keeps everything a stronger one keeps, in
      the same order. */
  lemma {:induction false} FilterWeakerSubseq<T>(s: seq<T>, p: T -> bool, q: T -> bool)
    requires forall i :: 0 <= i < |s| ==> p(s[i]) ==> q(s[i])
    ensures IsSubseq(Filter(s, p), Filter(s, q))
  {
    if s == [] {
    } else {
      var n := |s| - 1;
      var x := s[n];
      FilterWeakerSubseq(s[..n], p, q);
      var a, b := Filter(s[..n], p), Filter(s[..n], q);
      if p(x) {
        assert Filter(s, p) == a + [x] && Filter(s, q) == b + [x];
        assert (a + [x])[..|a|] == a && (b + [x])[..|b|] == b;
      } else if q(x) {
        assert Filter(s, p) == a && Filter(s, q) == b + [x];
        assert (b + [x])[..|b|] == b;
        SubseqSnoc(a, b, x);
      } else {
        assert Filter(s, p) == a && Filter(s, q) == b;
      }
    }
  }

  lemma SubseqSnoc<T>(a: seq<T>, b: seq<T>, x: T)
    requires IsSubseq(a, b)
    ensures IsSubseq(a, b + [x])
  {
    assert (b + [x])[..|b|] == b;
  }

  lemma {:induction false} SubseqRefl<T>(s: seq<T>)
    ensures IsSubseq(s, s)
  {
    if s != [] {
      SubseqRefl(s[..|s| - 1]);
    }
  }

  /** A subsequence of a subsequence is a subsequence. */
  lemma {:induction false} SubseqTrans<T>(a: seq<T>, b: seq<T>, c: seq<T>)
    requires IsSubseq(a, b) && IsSubseq(b, c)
    ensures IsSubseq(a, c)
    decreases |c|
  {
    if c == [] {
      assert b == [];
    } else {
      var c' := c[..|c| - 1];
      if b != [] && b[|b| - 1] == c[|c| - 1] && IsSubseq(b[..|b| - 1], c') {
        var b' := b[..|b| - 1];
        if a != [] && a[|a| - 1] == b[|b| - 1] && IsSubseq(a[..|a| - 1], b') {
          SubseqTrans(a[..|a| - 1], b', c');
        } else {
          SubseqTrans(a, b', c');
        }
      } else {
        SubseqTrans(a, b, c');
      }
    }
  }
}
