/**
 Sequence operations that the expense tracker leans on everywhere: JavaScript's
 `Array.prototype.filter`, the insertion-ordered `Set` used to deduplicate a
 list, `slice(-5).reverse()`, and the notion of a subsequence that states what
 a filter keeps.
 */
module Seqs {

  datatype Option<+T> = None | Some(value: T)

  function Min(a: int, b: int): int {
    if a <= b then a else b
  }

  /** True iff `a` can be obtained from `b` by deleting elements (order kept). */
  predicate IsSubsequence<T(==)>(a: seq<T>, b: seq<T>)
    decreases |b|
  {
    if |a| == 0 then true
    else if |b| == 0 then false
    else if a[0] == b[0] then IsSubsequence(a[1..], b[1..])
    else IsSubsequence(a, b[1..])
  }

  /** `Array.prototype.filter`: the elements satisfying `p`, in their original order. */
  function Filter<T>(s: seq<T>, p: T -> bool): (r: seq<T>)
    ensures |r| <= |s|
    decreases |s|
  {
    if |s| == 0 then []
    else
      var rest := Filter(s[1..], p);
      if p(s[0]) then [s[0]] + rest else rest
  }

  /** The filter keeps the relative order of what it keeps. */
  lemma {:induction false} FilterIsSubsequence<T(!new)>(s: seq<T>, p: T -> bool)
    ensures IsSubsequence(Filter(s, p), s)
    decreases |s|
  {
    if |s| > 0 {
      var rest := Filter(s[1..], p);
      FilterIsSubsequence(s[1..], p);
      if p(s[0]) {
        assert ([s[0]] + rest)[1..] == rest;
      } else {
        SubsequenceDropHead(rest, s);
      }
    }
  }

  /** A value survives the filter exactly when it occurs and satisfies `p`. */
  lemma {:induction false} FilterMembers<T(!new)>(s: seq<T>, p: T -> bool)
    ensures forall x :: x in Filter(s, p) <==> x in s && p(x)
    decreases |s|
  {
    if |s| > 0 {
      FilterMembers(s[1..], p);
      assert s == [s[0]] + s[1..];
    }
  }

  /**
   Every occurrence of a kept value is kept and nothing else is; together with
   `IsSubsequence` this pins the filter's result down uniquely.
   */
  lemma {:induction false} FilterMultiset<T(!new)>(s: seq<T>, p: T -> bool)
    ensures forall x :: multiset(Filter(s, p))[x] == if p(x) then multiset(s)[x] else 0
    decreases |s|
  {
    if |s| > 0 {
      FilterMultiset(s[1..], p);
      assert s == [s[0]] + s[1..];
    }
  }

  /** A predicate and its negation split the elements between them. */
  lemma {:induction false} FilterLengthPartition<T(!new)>(s: seq<T>, p: T -> bool, q: T -> bool)
    requires forall x :: q(x) == !p(x)
    ensures |Filter(s, p)| + |Filter(s, q)| == |s|
    decreases |s|
  {
    if |s| > 0 {
      FilterLengthPartition(s[1..], p, q);
    }
  }

  /** Dropping the head of the longer sequence is allowed when the shorter one skips it. */
  lemma {:induction false} SubsequenceDropHead<T>(a: seq<T>, b: seq<T>)
    requires |b| > 0
    requires IsSubsequence(a, b[1..])
    ensures IsSubsequence(a, b)
    decreases |a| + |b|
  {
    if |a| > 0 && a[0] == b[0] {
      // matching the head instead of skipping it is never worse
      SubsequenceSkip(a, b[1..]);
    }
  }

  lemma {:induction false} SubsequenceSkip<T>(a: seq<T>, b: seq<T>)
    requires |a| > 0
    requires IsSubsequence(a, b)
    ensures IsSubsequence(a[1..], b)
    decreases |a| + |b|
  {
    if |b| > 0 {
      if a[0] == b[0] {
        SubsequenceDropHead(a[1..], b);
      } else {
        SubsequenceSkip(a, b[1..]);
        SubsequenceDropHead(a[1..], b);
      }
    }
  }

  /** A filter whose predicate holds everywhere returns its input unchanged. */
  lemma {:induction false} FilterKeepsAll<T(!new)>(s: seq<T>, p: T -> bool)
    requires forall i :: 0 <= i < |s| ==> p(s[i])
    ensures Filter(s, p) == s
    decreases |s|
  {
    if |s| > 0 {
      FilterKeepsAll(s[1..], p);
    }
  }

  /** The sum of `f` over the elements. */
  function SumBy<T>(s: seq<T>, f: T -> int): int
    decreases |s|
  {
    if |s| == 0 then 0 else f(s[0]) + SumBy(s[1..], f)
  }

  /** The sum over a concatenation is the sum of the two sums. */
  lemma {:induction false} SumByAppend<T>(a: seq<T>, b: seq<T>, f: T -> int)
    ensures SumBy(a + b, f) == SumBy(a, f) + SumBy(b, f)
    decreases |a|
  {
    if |a| == 0 {
      assert a + b == b;
    } else {
      assert (a + b)[1..] == a[1..] + b;
      SumByAppend(a[1..], b, f);
    }
  }

  /** Filters with predicates that agree everywhere give the same result. */
  lemma {:induction false} FilterCongruent<T(!new)>(s: seq<T>, p: T -> bool, q: T -> bool)
    requires forall x :: p(x) == q(x)
    ensures Filter(s, p) == Filter(s, q)
    decreases |s|
  {
    if |s| > 0 {
      FilterCongruent(s[1..], p, q);
    }
  }

  /** Filtering distributes over concatenation. */
  lemma {:induction false} FilterAppend<T(!new)>(a: seq<T>, b: seq<T>, p: T -> bool)
    ensures Filter(a + b, p) == Filter(a, p) + Filter(b, p)
    decreases |a|
  {
    if |a| == 0 {
      assert a + b == b;
    } else {
      FilterAppend(a[1..], b, p);
      assert (a + b)[1..] == a[1..] + b;
      if p(a[0]) {
        assert Filter(a + b, p) == [a[0]] + Filter(a[1..] + b, p);
      }
    }
  }

  /** A filter that rejects exactly one position removes just that element. */
  lemma FilterRemoveOne<T(!new)>(s: seq<T>, p: T -> bool, i: nat)
    requires i < |s| && !p(s[i])
    requires forall j :: 0 <= j < |s| && j != i ==> p(s[j])
    ensures Filter(s, p) == s[..i] + s[i + 1..]
  {
    var pre, post := s[..i], s[i + 1..];
    assert s == pre + [s[i]] + post;
    forall j | 0 <= j < |pre| ensures p(pre[j]) {
      assert pre[j] == s[j];
    }
    forall j | 0 <= j < |post| ensures p(post[j]) {
      assert post[j] == s[i + 1 + j];
    }
    FilterAroundOne(pre, s[i], post, p);
  }

  /** Filtering out a single rejected element between two kept stretches. */
  lemma FilterAroundOne<T(!new)>(pre: seq<T>, x: T, post: seq<T>, p: T -> bool)
    requires !p(x)
    requires forall j :: 0 <= j < |pre| ==> p(pre[j])
    requires forall j :: 0 <= j < |post| ==> p(post[j])
    ensures Filter(pre + [x] + post, p) == pre + post
  {
    FilterAppend(pre + [x], post, p);
    FilterAppend(pre, [x], p);
    FilterKeepsAll(pre, p);
    FilterKeepsAll(post, p);
    assert Filter([x], p) == [];
    assert pre + [] == pre;
  }

  /** True iff no value occurs twice. */
  predicate NoDuplicates<T(==)>(s: seq<T>) {
    forall i, j :: 0 <= i < j < |s| ==> s[i] != s[j]
  }

  /** Position of the first occurrence of `x` in `s`. */
  function IndexOf<T(==)>(s: seq<T>, x: T): (r: nat)
    requires x in s
    ensures r < |s| && s[r] == x
    ensures forall k :: 0 <= k < r ==> s[k] != x
  {
    if s[0] == x then 0 else 1 + IndexOf(s[1..], x)
  }

  /** The first occurrence of a value in a prefix is its first occurrence in the whole. */
  lemma IndexOfPrefix<T>(s: seq<T>, m: nat, x: T)
    requires m <= |s| && x in s[..m]
    ensures x in s && IndexOf(s, x) == IndexOf(s[..m], x)
  {
    var i := IndexOf(s[..m], x);
    assert s[i] == x;
    var j := IndexOf(s, x);
    assert j <= i;
    assert s[..m][j] == x;
  }

  /**
   The distinct values of `s` in first-seen order, as `[...new Set(s)]`
   produces them: each value is added when it is first met and never moved.
   */
  function Dedup<T(==,!new)>(s: seq<T>): (r: seq<T>)
    ensures forall x :: x in r <==> x in s
    ensures NoDuplicates(r)
    ensures forall i, j :: 0 <= i < j < |r| ==> IndexOf(s, r[i]) < IndexOf(s, r[j])
    decreases |s|
  {
    if |s| == 0 then []
    else
      var n := |s| - 1;
      var d := Dedup(s[..n]);
      assert forall x :: x in s <==> x in s[..n] || x == s[n] by {
        assert s == s[..n] + [s[n]];
      }
      forall x | x in d ensures IndexOf(s, x) == IndexOf(s[..n], x) {
        IndexOfPrefix(s, n, x);
      }
      if s[n] in d then d
      else
        assert IndexOf(s, s[n]) == n by {
          assert forall k :: 0 <= k < n ==> s[k] == s[..n][k];
        }
        d + [s[n]]
  }

  /**
   The last `min(n, |s|)` elements; for `n > 0` this is `s.slice(-n)`
   (JavaScript's `slice(-0)` is the whole array).
   */
  function LastN<T>(s: seq<T>, n: nat): (r: seq<T>)
    ensures |r| == Min(n, |s|)
    ensures forall i :: 0 <= i < |r| ==> r[i] == s[|s| - |r| + i]
  {
    if |s| <= n then s else s[|s| - n..]
  }

  /** `Array.prototype.reverse` on a copy. */
  function Reverse<T>(s: seq<T>): (r: seq<T>)
    ensures |r| == |s|
    ensures forall i :: 0 <= i < |s| ==> r[i] == s[|s| - 1 - i]
  {
    if |s| == 0 then [] else [s[|s| - 1]] + Reverse(s[..|s| - 1])
  }
}
