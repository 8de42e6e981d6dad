/**
 Group-and-sum: the `expenses.reduce((acc, e) => { acc[key] = (acc[key] || 0)
 + amount; return acc }, {})` idiom that the dashboard, the suggestion route
 and both charts use, followed by `Object.entries` / `Object.values`.

 A JavaScript object used as an accumulator is a map from keys to values
 that also remembers the order in which keys were first inserted; `Tally`
 holds exactly that.
 */
module Grouping {
  import opened Seqs
  import opened Expenses

  /** One `[key, summedAmount]` pair of `Object.entries`. */
  datatype Group<K> = Group(key: K, amount: int)

  /** An accumulator object: its keys in insertion order and the value stored under each. */
  datatype Tally<K> = Tally(order: seq<K>, sums: map<K, int>)

  ghost predicate Valid<K(!new)>(t: Tally<K>) {
    && NoDuplicates(t.order)
    && forall k :: k in t.sums <==> k in t.order
  }

  function CategoryOf(e: Expense): string {
    e.category
  }

  /** `new Date(e.date).getDate()`. */
  function DayOf(e: Expense): nat {
    e.date.day
  }

  /** The grouping key of every expense, in list order. */
  function KeysOf<K>(es: seq<Expense>, key: Expense -> K): (r: seq<K>)
    ensures |r| == |es|
    ensures forall i :: 0 <= i < |es| ==> r[i] == key(es[i])
  {
    seq(|es|, i requires 0 <= i < |es| => key(es[i]))
  }

  /** The summed amount of the expenses whose key is `k`: the independent meaning of a group's value. */
  function SumWhere<K(==)>(es: seq<Expense>, key: Expense -> K, k: K): int
    decreases |es|
  {
    if |es| == 0 then 0
    else (if key(es[0]) == k then es[0].amount else 0) + SumWhere(es[1..], key, k)
  }

  lemma {:induction false} SumWhereAppend<K>(a: seq<Expense>, b: seq<Expense>, key: Expense -> K, k: K)
    ensures SumWhere(a + b, key, k) == SumWhere(a, key, k) + SumWhere(b, key, k)
    decreases |a|
  {
    if |a| == 0 {
      assert a + b == b;
    } else {
      assert (a + b)[1..] == a[1..] + b;
      SumWhereAppend(a[1..], b, key, k);
    }
  }

  lemma {:induction false} SumWhereAbsent<K>(es: seq<Expense>, key: Expense -> K, k: K)
    requires forall i :: 0 <= i < |es| ==> key(es[i]) != k
    ensures SumWhere(es, key, k) == 0
    decreases |es|
  {
    if |es| > 0 {
      SumWhereAbsent(es[1..], key, k);
    }
  }

  /** `acc[k] = (acc[k] || 0) + a`: add to an existing key, or insert the key at the end. */
  function Accumulate<K>(t: Tally<K>, k: K, a: int): Tally<K> {
    if k in t.sums then Tally(t.order, t.sums[k := t.sums[k] + a])
    else Tally(t.order + [k], t.sums[k := a])
  }

  /** Sum of the values stored under the keys of `order`. */
  function SumOver<K>(order: seq<K>, sums: map<K, int>): int
    requires forall i :: 0 <= i < |order| ==> order[i] in sums
    decreases |order|
  {
    if |order| == 0 then 0 else sums[order[0]] + SumOver(order[1..], sums)
  }

  lemma {:induction false} SumOverSnoc<K>(order: seq<K>, sums: map<K, int>, k: K)
    requires forall i :: 0 <= i < |order| ==> order[i] in sums
    requires k in sums
    ensures SumOver(order + [k], sums) == SumOver(order, sums) + sums[k]
    decreases |order|
  {
    if |order| == 0 {
      assert order + [k] == [k];
    } else {
      assert (order + [k])[1..] == order[1..] + [k];
      SumOverSnoc(order[1..], sums, k);
    }
  }

  /** Updating a key that `order` does not mention leaves the sum alone. */
  lemma {:induction false} SumOverUpdateOutside<K>(order: seq<K>, sums: map<K, int>, k: K, v: int)
    requires forall i :: 0 <= i < |order| ==> order[i] in sums
    requires k !in order
    ensures SumOver(order, sums[k := v]) == SumOver(order, sums)
    decreases |order|
  {
    if |order| > 0 {
      SumOverUpdateOutside(order[1..], sums, k, v);
    }
  }

  /** Adding `a` under a key listed once in `order` adds `a` to the sum. */
  lemma {:induction false} SumOverUpdateInside<K>(order: seq<K>, sums: map<K, int>, k: K, a: int)
    requires forall i :: 0 <= i < |order| ==> order[i] in sums
    requires NoDuplicates(order) && k in order
    ensures SumOver(order, sums[k := sums[k] + a]) == SumOver(order, sums) + a
    decreases |order|
  {
    if order[0] == k {
      assert k !in order[1..];
      SumOverUpdateOutside(order[1..], sums, k, sums[k] + a);
    } else {
      SumOverUpdateInside(order[1..], sums, k, a);
    }
  }

  /** The accumulator after `reduce` has visited every expense, in list order. */
  function TallyBy<K>(es: seq<Expense>, key: Expense -> K): Tally<K>
    decreases |es|
  {
    if |es| == 0 then Tally([], map[])
    else Accumulate(TallyBy(es[..|es| - 1], key), key(es[|es| - 1]), es[|es| - 1].amount)
  }

  /** The accumulator's keys are the distinct keys of the list, in first-seen order. */
  lemma {:induction false} TallyOrder<K(!new)>(es: seq<Expense>, key: Expense -> K)
    ensures Valid(TallyBy(es, key))
    ensures TallyBy(es, key).order == Dedup(KeysOf(es, key))
    decreases |es|
  {
    if |es| > 0 {
      var n := |es| - 1;
      TallyOrder(es[..n], key);
      assert KeysOf(es, key)[..n] == KeysOf(es[..n], key);
    }
  }

  /** The value under each key is the summed amount of that key's expenses. */
  lemma {:induction false} TallySums<K(!new)>(es: seq<Expense>, key: Expense -> K)
    ensures forall k :: k in TallyBy(es, key).sums ==> TallyBy(es, key).sums[k] == SumWhere(es, key, k)
    decreases |es|
  {
    if |es| > 0 {
      var n := |es| - 1;
      var e := es[n];
      TallySums(es[..n], key);
      TallyOrder(es[..n], key);
      assert es == es[..n] + [e];
      forall k ensures SumWhere(es, key, k) == SumWhere(es[..n], key, k) + (if key(e) == k then e.amount else 0) {
        SumWhereAppend(es[..n], [e], key, k);
        assert [e][1..] == [];
      }
      var t := TallyBy(es[..n], key);
      if key(e) !in t.sums {
        forall i | 0 <= i < n ensures key(es[..n][i]) != key(e) {
          assert KeysOf(es[..n], key)[i] == key(es[..n][i]);
        }
        SumWhereAbsent(es[..n], key, key(e));
      }
    }
  }

  /** The values of the accumulator add up to the total of the list. */
  lemma {:induction false} TallyTotal<K(!new)>(es: seq<Expense>, key: Expense -> K)
    ensures Valid(TallyBy(es, key))
    ensures SumOver(TallyBy(es, key).order, TallyBy(es, key).sums) == Total(es)
    decreases |es|
  {
    if |es| > 0 {
      var n := |es| - 1;
      var e := es[n];
      var t := TallyBy(es[..n], key);
      TallyTotal(es[..n], key);
      TotalSnoc(es);
      StepTotal(t, key(e), e.amount);
      assert TallyBy(es, key) == Accumulate(t, key(e), e.amount);
    }
  }

  /** One accumulation step adds its amount to the sum of the values. */
  lemma StepTotal<K(!new)>(t: Tally<K>, k: K, a: int)
    requires Valid(t)
    ensures Valid(Accumulate(t, k, a))
    ensures SumOver(Accumulate(t, k, a).order, Accumulate(t, k, a).sums) == SumOver(t.order, t.sums) + a
  {
    assert forall i :: 0 <= i < |t.order| ==> t.order[i] in t.sums;
    if k in t.sums {
      SumOverUpdateInside(t.order, t.sums, k, a);
    } else {
      var m := t.sums[k := a];
      assert forall i :: 0 <= i < |t.order| ==> t.order[i] in m;
      SumOverUpdateOutside(t.order, t.sums, k, a);
      SumOverSnoc(t.order, m, k);
      assert NoDuplicates(t.order + [k]);
    }
  }

  function Keys<K>(g: seq<Group<K>>): (r: seq<K>)
    ensures |r| == |g|
    ensures forall i :: 0 <= i < |g| ==> r[i] == g[i].key
  {
    seq(|g|, i requires 0 <= i < |g| => g[i].key)
  }

  /** The sort key that puts larger amounts first: `(a, b) => b.amount - a.amount`. */
  function NegAmount<K>(g: Group<K>): int {
    -g.amount
  }

  function GroupAmount<K>(g: Group<K>): int {
    g.amount
  }

  function SumAmounts<K>(g: seq<Group<K>>): int {
    SumBy(g, GroupAmount)
  }

  /** `Object.entries(acc)`: one pair per key, in insertion order. */
  function Entries<K>(t: Tally<K>): (r: seq<Group<K>>)
    requires forall i :: 0 <= i < |t.order| ==> t.order[i] in t.sums
    ensures Keys(r) == t.order
    ensures forall i :: 0 <= i < |r| ==> r[i].amount == t.sums[r[i].key]
  {
    seq(|t.order|, i requires 0 <= i < |t.order| && t.order[i] in t.sums => Group(t.order[i], t.sums[t.order[i]]))
  }

  lemma {:induction false} SumAmountsEntries<K>(order: seq<K>, sums: map<K, int>)
    requires forall i :: 0 <= i < |order| ==> order[i] in sums
    ensures SumAmounts(Entries(Tally(order, sums))) == SumOver(order, sums)
    decreases |order|
  {
    if |order| > 0 {
      assert Entries(Tally(order, sums))[1..] == Entries(Tally(order[1..], sums));
      SumAmountsEntries(order[1..], sums);
    }
  }

  lemma EntriesKeys<K(!new)>(es: seq<Expense>, key: Expense -> K)
    ensures Valid(TallyBy(es, key))
    ensures Keys(Entries(TallyBy(es, key))) == Dedup(KeysOf(es, key))
  {
    TallyOrder(es, key);
  }

  lemma EntriesAmounts<K(!new)>(es: seq<Expense>, key: Expense -> K)
    ensures Valid(TallyBy(es, key))
    ensures forall g :: g in Entries(TallyBy(es, key)) ==> g.amount == SumWhere(es, key, g.key)
  {
    TallyOrder(es, key);
    TallySums(es, key);
  }

  lemma EntriesTotal<K(!new)>(es: seq<Expense>, key: Expense -> K)
    ensures Valid(TallyBy(es, key))
    ensures SumAmounts(Entries(TallyBy(es, key))) == Total(es)
  {
    var t := TallyBy(es, key);
    TallyTotal(es, key);
    SumAmountsEntries(t.order, t.sums);
  }

  /**
   Group-and-sum followed by `Object.entries`: one group per distinct key in
   first-seen order, each holding the summed amount of its key's expenses,
   and the groups together holding the whole total.
   */
  function GroupBy<K(==,!new)>(es: seq<Expense>, key: Expense -> K): (r: seq<Group<K>>)
    ensures Keys(r) == Dedup(KeysOf(es, key))
    ensures forall i :: 0 <= i < |r| ==> r[i].amount == SumWhere(es, key, r[i].key)
    ensures SumAmounts(r) == Total(es)
  {
    EntriesKeys(es, key);
    EntriesAmounts(es, key);
    EntriesTotal(es, key);
    Entries(TallyBy(es, key))
  }

  /** The group keys are exactly the keys that occur, each once. */
  lemma GroupByKeys<K(!new)>(es: seq<Expense>, key: Expense -> K)
    ensures NoDuplicates(Keys(GroupBy(es, key)))
    ensures forall k :: k in Keys(GroupBy(es, key)) <==> exists i :: 0 <= i < |es| && key(es[i]) == k
  {
    var ks := KeysOf(es, key);
    assert forall k :: k in ks <==> exists i :: 0 <= i < |es| && key(es[i]) == k;
  }
}
