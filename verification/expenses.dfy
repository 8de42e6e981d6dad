/**
 The expense record shared by every part of the tracker, and the running
 total that the dashboard, the suggestion route and the charts all compute
 with `reduce((sum, e) => sum + Number(e.amount), 0)`.

 Amounts are whole cents; a date is the calendar triple the UI reads back
 with `getFullYear`, `getMonth` and `getDate`.
 */
module Expenses {
  import opened Seqs

  datatype Date = Date(year: int, month: int, day: nat)

  datatype Expense = Expense(id: string, name: string, amount: int, category: string, date: Date)

  function AmountOf(e: Expense): int {
    e.amount
  }

  /** Sum of the amounts, the value `reduce((sum, e) => sum + e.amount, 0)` computes. */
  function Total(es: seq<Expense>): int {
    SumBy(es, AmountOf)
  }

  lemma TotalSingleton(e: Expense)
    ensures Total([e]) == e.amount
  {
    assert [e][1..] == [];
    assert SumBy([e], AmountOf) == AmountOf(e) + SumBy([], AmountOf);
  }

  lemma TotalAppend(a: seq<Expense>, b: seq<Expense>)
    ensures Total(a + b) == Total(a) + Total(b)
  {
    SumByAppend(a, b, AmountOf);
  }

  /** Splitting off the last element, the order in which `reduce` visits it. */
  lemma TotalSnoc(es: seq<Expense>)
    requires |es| > 0
    ensures Total(es) == Total(es[..|es| - 1]) + es[|es| - 1].amount
  {
    assert es == es[..|es| - 1] + [es[|es| - 1]];
    TotalAppend(es[..|es| - 1], [es[|es| - 1]]);
    TotalSingleton(es[|es| - 1]);
  }

  /** A predicate and its negation split the total between them. */
  lemma {:induction false} TotalPartition(es: seq<Expense>, p: Expense -> bool, q: Expense -> bool)
    requires forall e :: q(e) == !p(e)
    ensures Total(Filter(es, p)) + Total(Filter(es, q)) == Total(es)
    decreases |es|
  {
    if |es| > 0 {
      TotalPartition(es[1..], p, q);
    }
  }

  /** Replacing one element changes the total by the difference of the two amounts. */
  lemma TotalUpdate(es: seq<Expense>, i: nat, e: Expense)
    requires i < |es|
    ensures Total(es[i := e]) == Total(es) - es[i].amount + e.amount
  {
    assert es == es[..i] + [es[i]] + es[i + 1..];
    assert es[i := e] == es[..i] + [e] + es[i + 1..];
    TotalAppend(es[..i] + [es[i]], es[i + 1..]);
    TotalAppend(es[..i], [es[i]]);
    TotalAppend(es[..i] + [e], es[i + 1..]);
    TotalAppend(es[..i], [e]);
    TotalSingleton(es[i]);
    TotalSingleton(e);
  }
}
