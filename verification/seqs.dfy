/** Generic sequence helpers that stand for the JavaScript array methods the
    application leans on: `filter`, `reduce((sum, x) => sum + f(x), 0)` and
    `slice(0, n)`. Every later module builds on these, so their contracts are
    the ones that matter: a filter is the order-preserving subsequence of
    exactly the kept elements, and a sum splits over concatenation. */
module Seqs {

  function Min(a: int, b: int): int { if a <= b then a else b }

  /** `s.filter(keep)`. */
  function Filter<T>(s: seq<T>, keep: T -> bool): (r: seq<T>)
    ensures |r| <= |s|
    ensures forall i :: 0 <= i < |r| ==> keep(r[i])
  {
    if |s| == 0 then []
    else (if keep(s[0]) then [s[0]] else []) + Filter(s[1..], keep)
  }

  /** A filter keeps only elements of `s`, and every element of `s` that
      satisfies `keep`. */
  lemma {:induction false} FilterMembers<T>(s: seq<T>, keep: T -> bool)
    ensures forall i :: 0 <= i < |Filter(s, keep)| ==> Filter(s, keep)[i] in s
    ensures forall i :: 0 <= i < |s| && keep(s[i]) ==> s[i] in Filter(s, keep)
  {
    if |s| > 0 {
      FilterMembers(s[1..], keep);
      var h := if keep(s[0]) then [s[0]] else [];
      var t := Filter(s[1..], keep);
      assert Filter(s, keep) == h + t;
      forall i | 0 <= i < |h + t|
        ensures (h + t)[i] in s
      {
        if i >= |h| {
          assert (h + t)[i] == t[i - |h|];
        }
      }
      forall i | 0 <= i < |s| && keep(s[i])
        ensures s[i] in h + t
      {
        if i > 0 {
          assert s[i] == s[1..][i - 1];
          assert s[i] in t;
        }
      }
    }
  }

  /** The positions of `s` that `Filter` keeps, in increasing order: the
      reference description of a filter, by index. */
  function KeptIndices<T>(s: seq<T>, keep: T -> bool): seq<nat>
  {
    if |s| == 0 then []
    else (if keep(s[0]) then [0] else []) + Shift(KeptIndices(s[1..], keep))
  }

  function Shift(idx: seq<nat>): (r: seq<nat>)
    ensures |r| == |idx|
    ensures forall k :: 0 <= k < |r| ==> r[k] == idx[k] + 1
  {
    seq(|idx|, k requires 0 <= k < |idx| => idx[k] + 1)
  }

  lemma {:induction false} KeptIndicesSelect<T>(s: seq<T>, keep: T -> bool)
    ensures |KeptIndices(s, keep)| == |Filter(s, keep)|
    ensures forall k :: 0 <= k < |KeptIndices(s, keep)| ==>
      KeptIndices(s, keep)[k] < |s| && Filter(s, keep)[k] == s[KeptIndices(s, keep)[k]]
  {
    if |s| > 0 {
      KeptIndicesSelect(s[1..], keep);
      var rest := KeptIndices(s[1..], keep);
      var h: seq<nat> := if keep(s[0]) then [0] else [];
      var idx := h + Shift(rest);
      var fh := if keep(s[0]) then [s[0]] else [];
      var f := fh + Filter(s[1..], keep);
      assert KeptIndices(s, keep) == idx;
      assert Filter(s, keep) == f;
      assert |idx| == |f|;
      forall k | 0 <= k < |idx|
        ensures idx[k] < |s| && f[k] == s[idx[k]]
      {
        if k < |h| {
          assert idx[k] == 0 && f[k] == s[0];
        } else {
          var k' := k - |h|;
          assert idx[k] == rest[k'] + 1;
          assert f[k] == Filter(s[1..], keep)[k'];
          assert s[1..][rest[k']] == s[rest[k'] + 1];
        }
      }
    }
  }

  lemma KeptIndicesIncrease<T>(s: seq<T>, keep: T -> bool)
    ensures forall i :: i in KeptIndices(s, keep) ==> i < |s|
    ensures forall k, l :: 0 <= k < l < |KeptIndices(s, keep)| ==>
      KeptIndices(s, keep)[k] < KeptIndices(s, keep)[l]
  {
    KeptIndicesBelow(s, keep);
    KeptIndicesSorted(s, keep);
  }

  lemma {:induction false} KeptIndicesBelow<T>(s: seq<T>, keep: T -> bool)
    ensures forall k :: 0 <= k < |KeptIndices(s, keep)| ==> KeptIndices(s, keep)[k] < |s|
  {
    if |s| > 0 {
      KeptIndicesBelow(s[1..], keep);
      var rest := KeptIndices(s[1..], keep);
      var h: seq<nat> := if keep(s[0]) then [0] else [];
      var idx := h + Shift(rest);
      assert KeptIndices(s, keep) == idx;
      forall k | 0 <= k < |idx|
        ensures idx[k] < |s|
      {
        if k >= |h| {
          assert idx[k] == rest[k - |h|] + 1;
        }
      }
    }
  }

  lemma {:induction false} KeptIndicesSorted<T>(s: seq<T>, keep: T -> bool)
    ensures forall k, l :: 0 <= k < l < |KeptIndices(s, keep)| ==>
      KeptIndices(s, keep)[k] < KeptIndices(s, keep)[l]
  {
    if |s| > 0 {
      KeptIndicesSorted(s[1..], keep);
      var rest := KeptIndices(s[1..], keep);
      var h: seq<nat> := if keep(s[0]) then [0] else [];
      var idx := h + Shift(rest);
      assert KeptIndices(s, keep) == idx;
      forall k, l | 0 <= k < l < |idx|
        ensures idx[k] < idx[l]
      {
        assert idx[l] == rest[l - |h|] + 1;
        if k >= |h| {
          assert idx[k] == rest[k - |h|] + 1;
        } else {
          assert idx[k] == 0;
        }
      }
    }
  }

  lemma {:induction false} KeptIndicesComplete<T>(s: seq<T>, keep: T -> bool)
    ensures forall i :: 0 <= i < |s| && keep(s[i]) ==> i in KeptIndices(s, keep)
  {
    if |s| > 0 {
      KeptIndicesComplete(s[1..], keep);
      var rest := KeptIndices(s[1..], keep);
      var h: seq<nat> := if keep(s[0]) then [0] else [];
      var idx := h + Shift(rest);
      forall i | 0 <= i < |s| && keep(s[i])
        ensures i in idx
      {
        if i == 0 {
          assert idx[0] == 0;
        } else {
          assert s[1..][i - 1] == s[i];
          var k :| 0 <= k < |rest| && rest[k] == i - 1;
          assert idx[|h| + k] == i;
        }
      }
    }
  }

  lemma KeptIndicesExact<T>(s: seq<T>, keep: T -> bool)
    ensures forall i :: 0 <= i < |s| ==> (i in KeptIndices(s, keep) <==> keep(s[i]))
  {
    var idx := KeptIndices(s, keep);
    KeptIndicesSelect(s, keep);
    KeptIndicesComplete(s, keep);
    forall i | 0 <= i < |s| && i in idx
      ensures keep(s[i])
    {
      var k :| 0 <= k < |idx| && idx[k] == i;
      assert Filter(s, keep)[k] == s[i];
    }
  }

  /** `Filter(s, keep)` is the subsequence of `s` at the kept positions, which
      increase and are exactly the positions whose element satisfies `keep`:
      the filter keeps precisely the kept elements, in their original order. */
  lemma FilterIsOrderedSubsequence<T>(s: seq<T>, keep: T -> bool)
    ensures var idx := KeptIndices(s, keep);
      && |idx| == |Filter(s, keep)|
      && (forall k :: 0 <= k < |idx| ==> idx[k] < |s| && Filter(s, keep)[k] == s[idx[k]])
      && (forall k, l :: 0 <= k < l < |idx| ==> idx[k] < idx[l])
      && (forall i :: 0 <= i < |s| ==> (i in idx <==> keep(s[i])))
  {
    KeptIndicesSelect(s, keep);
    KeptIndicesIncrease(s, keep);
    KeptIndicesExact(s, keep);
  }

  /** `s.reduce((sum, x) => sum + f(x), 0)`. */
  function SumBy<T>(s: seq<T>, f: T -> int): int
  {
    if |s| == 0 then 0 else f(s[0]) + SumBy(s[1..], f)
  }

  /** A sum splits over concatenation. */
  lemma {:induction false} SumByAppend<T>(a: seq<T>, b: seq<T>, f: T -> int)
    ensures SumBy(a + b, f) == SumBy(a, f) + SumBy(b, f)
  {
    if |a| == 0 {
      assert a + b == b;
    } else {
      assert (a + b)[1..] == a[1..] + b;
      SumByAppend(a[1..], b, f);
    }
  }

  /** A filter splits over concatenation. */
  lemma {:induction false} FilterAppend<T>(a: seq<T>, b: seq<T>, keep: T -> bool)
    ensures Filter(a + b, keep) == Filter(a, keep) + Filter(b, keep)
  {
    if |a| == 0 {
      assert a + b == b;
    } else {
      assert (a + b)[1..] == a[1..] + b;
      FilterAppend(a[1..], b, keep);
      var h := if keep(a[0]) then [a[0]] else [];
      assert Filter(a + b, keep) == h + (Filter(a[1..], keep) + Filter(b, keep));
      assert h + (Filter(a[1..], keep) + Filter(b, keep)) == (h + Filter(a[1..], keep)) + Filter(b, keep);
    }
  }

  /** A filter keeps nothing exactly when no element satisfies `keep`. */
  lemma {:induction false} FilterEmpty<T>(s: seq<T>, keep: T -> bool)
    ensures Filter(s, keep) == [] <==> forall i :: 0 <= i < |s| ==> !keep(s[i])
  {
    if |s| > 0 {
      FilterEmpty(s[1..], keep);
      assert forall i :: 1 <= i < |s| ==> s[i] == s[1..][i - 1];
    }
  }

  /** A sum of nonnegative terms is nonnegative. */
  lemma {:induction false} SumByNonneg<T>(s: seq<T>, f: T -> int)
    requires forall i :: 0 <= i < |s| ==> f(s[i]) >= 0
    ensures SumBy(s, f) >= 0
  {
    if |s| > 0 {
      SumByNonneg(s[1..], f);
    }
  }

  /** Splitting a sequence by a predicate and its negation splits its sum. */
  lemma {:induction false} SumByPartition<T>(s: seq<T>, f: T -> int, p: T -> bool, q: T -> bool)
    requires forall x :: q(x) == !p(x)
    ensures SumBy(Filter(s, p), f) + SumBy(Filter(s, q), f) == SumBy(s, f)
  {
    if |s| > 0 {
      SumByPartition(s[1..], f, p, q);
      var hp := if p(s[0]) then [s[0]] else [];
      var hq := if q(s[0]) then [s[0]] else [];
      SumByAppend(hp, Filter(s[1..], p), f);
      SumByAppend(hq, Filter(s[1..], q), f);
    }
  }

  /** Splitting a sequence by a predicate and its negation splits its length. */
  lemma {:induction false} FilterPartitionLength<T>(s: seq<T>, p: T -> bool, q: T -> bool)
    requires forall x :: q(x) == !p(x)
    ensures |Filter(s, p)| + |Filter(s, q)| == |s|
  {
    if |s| > 0 {
      FilterPartitionLength(s[1..], p, q);
    }
  }

  /** With nonnegative terms, the sum over a filtered part is at most the whole sum. */
  lemma {:induction false} SumByFilterLe<T>(s: seq<T>, f: T -> int, p: T -> bool)
    requires forall i :: 0 <= i < |s| ==> f(s[i]) >= 0
    ensures SumBy(Filter(s, p), f) <= SumBy(s, f)
  {
    if |s| > 0 {
      SumByFilterLe(s[1..], f, p);
      var h := if p(s[0]) then [s[0]] else [];
      SumByAppend(h, Filter(s[1..], p), f);
    }
  }

  /** When `p` holds exactly when one of two exclusive predicates does, the
      sum over `p` is the sum of the two partial sums. */
  lemma {:induction false} SumByDisjointUnion<T>(s: seq<T>, f: T -> int, p: T -> bool, p1: T -> bool, p2: T -> bool)
    requires forall x :: p(x) == (p1(x) || p2(x))
    requires forall x :: !(p1(x) && p2(x))
    ensures SumBy(Filter(s, p), f) == SumBy(Filter(s, p1), f) + SumBy(Filter(s, p2), f)
  {
    if |s| > 0 {
      SumByDisjointUnion(s[1..], f, p, p1, p2);
      var h := if p(s[0]) then [s[0]] else [];
      var h1 := if p1(s[0]) then [s[0]] else [];
      var h2 := if p2(s[0]) then [s[0]] else [];
      SumByAppend(h, Filter(s[1..], p), f);
      SumByAppend(h1, Filter(s[1..], p1), f);
      SumByAppend(h2, Filter(s[1..], p2), f);
    }
  }

  /** A filter that keeps every element is the identity. */
  lemma {:induction false} FilterKeepsAll<T>(s: seq<T>, keep: T -> bool)
    requires forall i :: 0 <= i < |s| ==> keep(s[i])
    ensures Filter(s, keep) == s
  {
    if |s| > 0 {
      assert s == [s[0]] + s[1..];
      FilterKeepsAll(s[1..], keep);
    }
  }

  /** Filtering twice is filtering once by the conjunction. */
  lemma {:induction false} FilterFilter<T>(s: seq<T>, p: T -> bool, q: T -> bool, both: T -> bool)
    requires forall x :: both(x) == (p(x) && q(x))
    ensures Filter(Filter(s, p), q) == Filter(s, both)
  {
    if |s| > 0 {
      FilterFilter(s[1..], p, q, both);
      var h := if p(s[0]) then [s[0]] else [];
      FilterAppend(h, Filter(s[1..], p), q);
    }
  }

  /** Two filters whose predicates agree on the sequence keep the same elements. */
  lemma {:induction false} FilterCongruent<T>(s: seq<T>, p: T -> bool, q: T -> bool)
    requires forall i :: 0 <= i < |s| ==> p(s[i]) == q(s[i])
    ensures Filter(s, p) == Filter(s, q)
  {
    if |s| > 0 {
      FilterCongruent(s[1..], p, q);
    }
  }

  /** `s.slice(0, n)`. */
  function Prefix<T>(s: seq<T>, n: nat): (r: seq<T>)
    ensures |r| == Min(n, |s|)
    ensures forall i :: 0 <= i < |r| ==> r[i] == s[i]
  {
    s[..Min(n, |s|)]
  }
  /** Two lists that agree pointwise on their tests keep as many elements. */
  lemma {:induction false} FilterLengthAligned<T, U>(a: seq<T>, b: seq<U>, p: T -> bool, q: U -> bool)
    requires |a| == |b|
    requires forall i :: 0 <= i < |a| ==> p(a[i]) == q(b[i])
    ensures |Filter(a, p)| == |Filter(b, q)|
  {
    if |a| > 0 {
      FilterLengthAligned(a[1..], b[1..], p, q);
    }
  }

  /** Filtering two arrangements of the same elements keeps as many. */
  lemma {:induction false} FilterLengthPermutation<T>(a: seq<T>, b: seq<T>, keep: T -> bool)
    requires multiset(a) == multiset(b)
    ensures |Filter(a, keep)| == |Filter(b, keep)|
  {
    if |a| == 0 {
      assert |b| == |multiset(b)| == 0;
    } else {
      assert a[0] in multiset(b);
      var k :| 0 <= k < |b| && b[k] == a[0];
      RemoveAt(a, 0);
      RemoveAt(b, k);
      assert a[..0] + a[1..] == a[1..];
      FilterLengthPermutation(a[1..], b[..k] + b[k + 1..], keep);
      FilterLengthRemoveAt(a, 0, keep);
      FilterLengthRemoveAt(b, k, keep);
    }
  }

  /** Removing the element at `k` removes one occurrence of it. */
  lemma RemoveAt<T>(s: seq<T>, k: int)
    requires 0 <= k < |s|
    ensures multiset(s[..k] + s[k + 1..]) == multiset(s) - multiset{s[k]}
  {
    assert s == s[..k] + [s[k]] + s[k + 1..];
  }

  /** Removing the element at `k` changes the filter's length by whether it is kept. */
  lemma FilterLengthRemoveAt<T>(s: seq<T>, k: int, keep: T -> bool)
    requires 0 <= k < |s|
    ensures |Filter(s, keep)| == |Filter(s[..k] + s[k + 1..], keep)| + (if keep(s[k]) then 1 else 0)
  {
    assert s == s[..k] + [s[k]] + s[k + 1..];
    FilterAppend(s[..k], s[k + 1..], keep);
    FilterAppend(s[..k] + [s[k]], s[k + 1..], keep);
    FilterAppend(s[..k], [s[k]], keep);
  }
}
