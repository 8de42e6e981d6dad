/**
 A stable sort keyed by an integer, the behaviour `Array.prototype.sort`
 guarantees (since ECMAScript 2019) for a consistent comparator such as
 `(a, b) => key(a) - key(b)`. Written as an insertion sort.
 */
module Sorting {
  import opened Seqs

  predicate SortedBy<T>(s: seq<T>, key: T -> int) {
    forall i, j :: 0 <= i < j < |s| ==> key(s[i]) <= key(s[j])
  }

  /** Insert `x` in front of the first element whose key is not smaller. */
  function Insert<T>(x: T, s: seq<T>, key: T -> int): seq<T>
    decreases |s|
  {
    if |s| == 0 then [x]
    else if key(x) <= key(s[0]) then [x] + s
    else [s[0]] + Insert(x, s[1..], key)
  }

  lemma {:induction false} InsertMultiset<T>(x: T, s: seq<T>, key: T -> int)
    ensures multiset(Insert(x, s, key)) == multiset(s) + multiset{x}
    decreases |s|
  {
    if |s| > 0 && key(x) > key(s[0]) {
      InsertMultiset(x, s[1..], key);
      assert s == [s[0]] + s[1..];
    }
  }

  /** A lower bound on the keys of `x` and of `s` is a lower bound on the keys of the insertion. */
  lemma {:induction false} InsertBound<T>(x: T, s: seq<T>, key: T -> int, b: int)
    requires b <= key(x)
    requires forall i :: 0 <= i < |s| ==> b <= key(s[i])
    ensures forall i :: 0 <= i < |Insert(x, s, key)| ==> b <= key(Insert(x, s, key)[i])
    decreases |s|
  {
    if |s| > 0 && key(x) > key(s[0]) {
      InsertBound(x, s[1..], key, b);
    }
  }

  lemma {:induction false} InsertSorted<T>(x: T, s: seq<T>, key: T -> int)
    requires SortedBy(s, key)
    ensures SortedBy(Insert(x, s, key), key)
    decreases |s|
  {
    if |s| > 0 && key(x) > key(s[0]) {
      InsertSorted(x, s[1..], key);
      InsertBound(x, s[1..], key, key(s[0]));
      var rest := Insert(x, s[1..], key);
      var r := [s[0]] + rest;
      forall i, j | 0 <= i < j < |r| ensures key(r[i]) <= key(r[j]) {
        assert r[j] == rest[j - 1];
        if i > 0 {
          assert r[i] == rest[i - 1];
        }
      }
    }
  }

  /** The elements of `s` rearranged so that their keys never decrease. */
  function SortBy<T>(s: seq<T>, key: T -> int): (r: seq<T>)
    ensures SortedBy(r, key)
    ensures multiset(r) == multiset(s)
    decreases |s|
  {
    if |s| == 0 then []
    else
      var rest := SortBy(s[1..], key);
      InsertSorted(s[0], rest, key);
      InsertMultiset(s[0], rest, key);
      assert s == [s[0]] + s[1..];
      Insert(s[0], rest, key)
  }

  lemma {:induction false} InsertSumBy<T>(x: T, s: seq<T>, key: T -> int, f: T -> int)
    ensures SumBy(Insert(x, s, key), f) == f(x) + SumBy(s, f)
    decreases |s|
  {
    if |s| > 0 && key(x) > key(s[0]) {
      InsertSumBy(x, s[1..], key, f);
      assert ([s[0]] + Insert(x, s[1..], key))[1..] == Insert(x, s[1..], key);
    } else if |s| > 0 {
      assert ([x] + s)[1..] == s;
    }
  }

  /** Sorting keeps every sum over the elements. */
  lemma {:induction false} SortBySum<T>(s: seq<T>, key: T -> int, f: T -> int)
    ensures SumBy(SortBy(s, key), f) == SumBy(s, f)
    decreases |s|
  {
    if |s| > 0 {
      SortBySum(s[1..], key, f);
      InsertSumBy(s[0], SortBy(s[1..], key), key, f);
    }
  }

  /** The elements whose key is `k`, in order. */
  function WithKey<T>(s: seq<T>, key: T -> int, k: int): seq<T> {
    Filter(s, (x: T) => key(x) == k)
  }

  /** The first element with a key no earlier element has heads that key's elements. */
  lemma {:induction false} WithKeyHead<T>(s: seq<T>, key: T -> int, p: nat)
    requires p < |s|
    requires forall q :: 0 <= q < p ==> key(s[q]) != key(s[p])
    ensures |WithKey(s, key, key(s[p]))| > 0 && WithKey(s, key, key(s[p]))[0] == s[p]
    decreases |s|
  {
    if p > 0 {
      WithKeyHead(s[1..], key, p - 1);
    }
  }

  lemma {:induction false} InsertWithKey<T>(x: T, s: seq<T>, key: T -> int, k: int)
    ensures WithKey(Insert(x, s, key), key, k) == (if key(x) == k then [x] else []) + WithKey(s, key, k)
    decreases |s|
  {
    if |s| > 0 {
      if key(x) <= key(s[0]) {
        assert ([x] + s)[1..] == s;
      } else {
        var rest := Insert(x, s[1..], key);
        InsertWithKey(x, s[1..], key, k);
        assert ([s[0]] + rest)[1..] == rest;
        var a := if key(s[0]) == k then [s[0]] else [];
        var b := if key(x) == k then [x] else [];
        assert WithKey([s[0]] + rest, key, k) == a + (b + WithKey(s[1..], key, k));
        // the two keys differ, so at most one of `a` and `b` is non-empty
        assert a == [] || b == [];
      }
    }
  }

  /** Stability: elements with equal keys keep their original relative order. */
  lemma {:induction false} SortByStable<T>(s: seq<T>, key: T -> int, k: int)
    ensures WithKey(SortBy(s, key), key, k) == WithKey(s, key, k)
    decreases |s|
  {
    if |s| > 0 {
      SortByStable(s[1..], key, k);
      InsertWithKey(s[0], SortBy(s[1..], key), key, k);
    }
  }

  /** Sorting does not add or drop values. */
  lemma SortByMembers<T>(s: seq<T>, key: T -> int)
    ensures forall x :: x in SortBy(s, key) <==> x in s
  {
    var r := SortBy(s, key);
    forall x ensures x in r <==> x in s {
      assert x in r <==> x in multiset(r);
      assert x in s <==> x in multiset(s);
    }
  }

  predicate DistinctKeys<T>(s: seq<T>, key: T -> int) {
    forall i, j :: 0 <= i < j < |s| ==> key(s[i]) != key(s[j])
  }

  lemma {:induction false} WithKeyHasOne<T>(s: seq<T>, key: T -> int, j: nat)
    requires j < |s|
    ensures |WithKey(s, key, key(s[j]))| >= 1
    decreases |s|
  {
    if j > 0 {
      WithKeyHasOne(s[1..], key, j - 1);
    }
  }

  lemma {:induction false} WithKeyHasTwo<T>(s: seq<T>, key: T -> int, i: nat, j: nat)
    requires i < j < |s| && key(s[i]) == key(s[j])
    ensures |WithKey(s, key, key(s[i]))| >= 2
    decreases |s|
  {
    if i > 0 {
      WithKeyHasTwo(s[1..], key, i - 1, j - 1);
    } else {
      WithKeyHasOne(s[1..], key, j - 1);
    }
  }

  lemma {:induction false} WithKeyAtMostOne<T>(s: seq<T>, key: T -> int, k: int)
    requires DistinctKeys(s, key)
    ensures |WithKey(s, key, k)| <= 1
    decreases |s|
  {
    if |s| > 0 {
      if key(s[0]) == k {
        forall j | 0 <= j < |s[1..]| ensures key(s[1..][j]) != k {
          assert s[1..][j] == s[j + 1];
        }
        WithKeyNone(s[1..], key, k);
      } else {
        WithKeyAtMostOne(s[1..], key, k);
      }
    }
  }

  lemma {:induction false} WithKeyNone<T>(s: seq<T>, key: T -> int, k: int)
    requires forall j :: 0 <= j < |s| ==> key(s[j]) != k
    ensures WithKey(s, key, k) == []
    decreases |s|
  {
    if |s| > 0 {
      WithKeyNone(s[1..], key, k);
    }
  }

  /** Sorting a sequence whose keys are pairwise distinct makes the keys strictly increase. */
  lemma SortByDistinct<T>(s: seq<T>, key: T -> int)
    requires DistinctKeys(s, key)
    ensures forall i, j :: 0 <= i < j < |SortBy(s, key)| ==> key(SortBy(s, key)[i]) < key(SortBy(s, key)[j])
  {
    var r := SortBy(s, key);
    forall i, j | 0 <= i < j < |r| ensures key(r[i]) < key(r[j]) {
      if key(r[i]) == key(r[j]) {
        WithKeyHasTwo(r, key, i, j);
        SortByStable(s, key, key(r[i]));
        WithKeyAtMostOne(s, key, key(r[i]));
      }
    }
  }
}
