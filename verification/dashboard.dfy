/**
 The dashboard page's state and the handlers that change it: add, edit and
 delete an expense, each followed by recomputing the balance as the initial
 amount minus the sum of all amounts; the month filter feeding the charts and
 the list; the "Monthly Overview" card; and the "Top Category" card.
 */
module Dashboard {
  import opened Seqs
  import opened Expenses
  import opened Grouping
  import opened Sorting

  datatype State = State(initialAmount: int, currency: string, expenses: seq<Expense>, balance: int)

  /** The relation every handler re-establishes. */
  predicate BalanceConsistent(d: State) {
    d.balance == d.initialAmount - Total(d.expenses)
  }

  /** Store the updated list and recompute the balance from it. */
  function WithExpenses(d: State, updated: seq<Expense>): State {
    State(d.initialAmount, d.currency, updated, d.initialAmount - Total(updated))
  }

  /**
   The page's first load: stored values or their defaults (`|| "0"`,
   `|| "THB"`, `|| "[]"`), then the balance. An empty stored currency string
   is falsy and also falls back to "THB".
   */
  function Load(storedAmount: Option<int>, storedCurrency: Option<string>, storedExpenses: Option<seq<Expense>>): (d: State)
    ensures BalanceConsistent(d)
    ensures storedAmount == None ==> d.initialAmount == 0
    ensures storedAmount.Some? ==> d.initialAmount == storedAmount.value
    ensures (storedCurrency == None || storedCurrency == Some("")) ==> d.currency == "THB"
    ensures storedCurrency.Some? && storedCurrency.value != "" ==> d.currency == storedCurrency.value
    ensures storedExpenses == None ==> d.expenses == [] && d.balance == d.initialAmount
    ensures storedExpenses.Some? ==> d.expenses == storedExpenses.value
  {
    var amount := match storedAmount case Some(a) => a case None => 0;
    var currency := match storedCurrency case Some(c) => (if c == "" then "THB" else c) case None => "THB";
    var es := match storedExpenses case Some(s) => s case None => [];
    State(amount, currency, es, amount - Total(es))
  }

  /**
   `handleAddExpense`: the new expense, with a freshly generated id, goes last;
   everything before it is untouched. When the balance was consistent before,
   it drops by exactly the new amount.
   */
  function AddExpense(d: State, newExpense: Expense, freshId: string): (r: State)
    ensures |r.expenses| == |d.expenses| + 1
    ensures r.expenses[..|d.expenses|] == d.expenses
    ensures r.expenses[|d.expenses|] == newExpense.(id := freshId)
    ensures BalanceConsistent(r)
    ensures BalanceConsistent(d) ==> r.balance == d.balance - newExpense.amount
    ensures r.initialAmount == d.initialAmount && r.currency == d.currency
  {
    var updated := d.expenses + [newExpense.(id := freshId)];
    TotalAppend(d.expenses, [newExpense.(id := freshId)]);
    TotalSingleton(newExpense.(id := freshId));
    WithExpenses(d, updated)
  }

  /** `expenses.map(e => e.id === edited.id ? edited : e)`. */
  function ReplaceById(es: seq<Expense>, edited: Expense): (r: seq<Expense>)
    ensures |r| == |es|
    ensures forall i :: 0 <= i < |es| ==> r[i] == if es[i].id == edited.id then edited else es[i]
    decreases |es|
  {
    if |es| == 0 then []
    else [if es[0].id == edited.id then edited else es[0]] + ReplaceById(es[1..], edited)
  }

  /** `handleEditExpense`: same length, matching ids replaced, balance recomputed. */
  function EditExpense(d: State, edited: Expense): (r: State)
    ensures |r.expenses| == |d.expenses|
    ensures forall i :: 0 <= i < |d.expenses| ==>
      r.expenses[i] == if d.expenses[i].id == edited.id then edited else d.expenses[i]
    ensures BalanceConsistent(r)
    ensures r.initialAmount == d.initialAmount && r.currency == d.currency
  {
    WithExpenses(d, ReplaceById(d.expenses, edited))
  }

  /** The id occurs at position `i` and nowhere else. */
  predicate UniqueIdAt(es: seq<Expense>, id: string, i: int) {
    0 <= i < |es| && es[i].id == id && forall j :: 0 <= j < |es| && j != i ==> es[j].id != id
  }

  /** Editing the one expense with a given id moves the balance by the old amount minus the new. */
  lemma EditBalance(d: State, edited: Expense, i: int)
    requires BalanceConsistent(d)
    requires UniqueIdAt(d.expenses, edited.id, i)
    ensures EditExpense(d, edited).balance == d.balance + d.expenses[i].amount - edited.amount
  {
    assert ReplaceById(d.expenses, edited) == d.expenses[i := edited];
    TotalUpdate(d.expenses, i, edited);
  }

  /** `expenses.filter(e => e.id !== id)`. */
  function RemoveById(es: seq<Expense>, id: string): (r: seq<Expense>)
    ensures IsSubsequence(r, es)
    ensures forall e :: e in r <==> e in es && e.id != id
    ensures forall e :: multiset(r)[e] == if e.id != id then multiset(es)[e] else 0
  {
    FilterIsSubsequence(es, (e: Expense) => e.id != id);
    FilterMembers(es, (e: Expense) => e.id != id);
    FilterMultiset(es, (e: Expense) => e.id != id);
    Filter(es, (e: Expense) => e.id != id)
  }

  /** `handleDeleteExpense`: exactly the expenses with that id go, the rest keep their order. */
  function DeleteExpense(d: State, id: string): (r: State)
    ensures IsSubsequence(r.expenses, d.expenses)
    ensures forall e :: e in r.expenses <==> e in d.expenses && e.id != id
    ensures forall e :: multiset(r.expenses)[e] == if e.id != id then multiset(d.expenses)[e] else 0
    ensures BalanceConsistent(r)
    ensures r.initialAmount == d.initialAmount && r.currency == d.currency
  {
    WithExpenses(d, RemoveById(d.expenses, id))
  }

  /** Deleting an id nobody has changes nothing. */
  lemma DeleteAbsent(d: State, id: string)
    requires BalanceConsistent(d)
    requires forall i :: 0 <= i < |d.expenses| ==> d.expenses[i].id != id
    ensures DeleteExpense(d, id) == d
  {
    FilterKeepsAll(d.expenses, (e: Expense) => e.id != id);
  }

  /** Deleting the one expense with a given id gives its amount back to the balance. */
  lemma DeleteBalance(d: State, i: int)
    requires BalanceConsistent(d)
    requires 0 <= i < |d.expenses| && UniqueIdAt(d.expenses, d.expenses[i].id, i)
    ensures DeleteExpense(d, d.expenses[i].id).balance == d.balance + d.expenses[i].amount
  {
    var es := d.expenses;
    var id := es[i].id;
    FilterRemoveOne(es, (e: Expense) => e.id != id, i);
    assert es == es[..i] + [es[i]] + es[i + 1..];
    TotalAppend(es[..i], es[i + 1..]);
    TotalAppend(es[..i], [es[i]]);
    TotalAppend(es[..i] + [es[i]], es[i + 1..]);
    TotalSingleton(es[i]);
  }

  /** `getMonth()` and `getFullYear()` of the expense's date equal the selected ones. */
  predicate DatedIn(e: Expense, year: int, month: int) {
    e.date.month == month && e.date.year == year
  }

  /** The charts' and the list's input: the expenses dated in the selected month of the selected year. */
  function InMonth(es: seq<Expense>, year: int, month: int): (r: seq<Expense>)
    ensures IsSubsequence(r, es)
    ensures forall e :: e in r <==> e in es && DatedIn(e, year, month)
    ensures forall e :: multiset(r)[e] == if DatedIn(e, year, month) then multiset(es)[e] else 0
  {
    FilterIsSubsequence(es, (e: Expense) => DatedIn(e, year, month));
    FilterMembers(es, (e: Expense) => DatedIn(e, year, month));
    FilterMultiset(es, (e: Expense) => DatedIn(e, year, month));
    Filter(es, (e: Expense) => DatedIn(e, year, month))
  }

  /** What the "Monthly Overview" card shows: an amount and a transaction count. */
  datatype Overview = Overview(spent: int, transactions: nat)

  /** The card as written: it sums and counts the whole list, whatever month is selected. */
  function MonthlyOverviewAsWritten(d: State, year: int, month: int): (o: Overview)
    ensures o.spent == Total(d.expenses) && o.transactions == |d.expenses|
  {
    Overview(Total(d.expenses), |d.expenses|)
  }

  /** Two expenses in different months, for the example below. */
  const Lunch := Expense("1", "Lunch", 500, "Food & Dining", Date(2025, 1, 10))
  const Bus := Expense("2", "Bus", 200, "Transportation", Date(2025, 2, 3))

  /** Of the two, only the lunch is dated in January 2025. */
  lemma JanuaryHoldsLunchOnly()
    ensures InMonth([Lunch, Bus], 2025, 1) == [Lunch]
  {
    var m := InMonth([Lunch, Bus], 2025, 1);
    assert multiset(m) == multiset{Lunch} by {
      assert multiset([Lunch, Bus]) == multiset{Lunch, Bus};
    }
    assert |m| == 1 by {
      assert |multiset(m)| == 1;
    }
    assert m[0] in m;
  }

  /** With January selected, the card as written also counts the February expense. */
  lemma MonthlyOverviewCountsOtherMonths()
    ensures MonthlyOverviewAsWritten(State(1000, "USD", [Lunch, Bus], 300), 2025, 1) == Overview(700, 2)
    ensures MonthlyOverview(State(1000, "USD", [Lunch, Bus], 300), 2025, 1) == Overview(500, 1)
  {
    JanuaryHoldsLunchOnly();
    TotalSingleton(Lunch);
    TotalSingleton(Bus);
    TotalAppend([Lunch], [Bus]);
    assert [Lunch] + [Bus] == [Lunch, Bus];
  }

  /**
   The card as its labels describe it ("Current month spending", "transactions
   this month"): the selected month's spending and count. Together with the
   other months it accounts for the whole total.
   */
  function MonthlyOverview(d: State, year: int, month: int): (o: Overview)
    ensures o.spent == Total(InMonth(d.expenses, year, month))
    ensures o.transactions == |InMonth(d.expenses, year, month)|
    ensures o.spent + Total(Filter(d.expenses, (e: Expense) => !DatedIn(e, year, month))) == Total(d.expenses)
    ensures o.transactions + |Filter(d.expenses, (e: Expense) => !DatedIn(e, year, month))| == |d.expenses|
    ensures (forall i :: 0 <= i < |d.expenses| ==> DatedIn(d.expenses[i], year, month))
      ==> o == MonthlyOverviewAsWritten(d, year, month)
  {
    var m := InMonth(d.expenses, year, month);
    TotalPartition(d.expenses, (e: Expense) => DatedIn(e, year, month), (e: Expense) => !DatedIn(e, year, month));
    FilterLengthPartition(d.expenses, (e: Expense) => DatedIn(e, year, month), (e: Expense) => !DatedIn(e, year, month));
    assert (forall i :: 0 <= i < |d.expenses| ==> DatedIn(d.expenses[i], year, month))
      ==> m == d.expenses by {
      if forall i :: 0 <= i < |d.expenses| ==> DatedIn(d.expenses[i], year, month) {
        FilterKeepsAll(d.expenses, (e: Expense) => DatedIn(e, year, month));
      }
    }
    Overview(Total(m), |m|)
  }

  /**
   The "Top Category" card: group by category, sort by amount descending,
   take the first entry. With no expenses there is no entry and the card
   reads "None".
   */
  function TopCategory(es: seq<Expense>): (r: Option<Group<string>>)
    ensures r.None? <==> |es| == 0
    ensures r.Some? ==> r.value in GroupBy(es, CategoryOf)
  {
    if |es| == 0 then None
    else
      var groups := GroupBy(es, CategoryOf);
      assert KeysOf(es, CategoryOf)[0] in Dedup(KeysOf(es, CategoryOf));
      var sorted := SortBy(groups, NegAmount);
      SortByMembers(groups, NegAmount);
      assert |sorted| > 0 by {
        assert |multiset(sorted)| == |multiset(groups)|;
      }
      Some(sorted[0])
  }

  /** The card's heading: the category with the most spending, or "None". */
  function TopCategoryLabel(es: seq<Expense>): (s: string)
    ensures |es| == 0 ==> s == "None"
    ensures |es| > 0 ==> exists i :: 0 <= i < |es| && es[i].category == s
    ensures |es| > 0 ==> forall i :: 0 <= i < |es| ==> SumWhere(es, CategoryOf, es[i].category) <= SumWhere(es, CategoryOf, s)
  {
    if |es| == 0 then "None"
    else
      TopCategoryKeyIsMaximum(es);
      TopCategory(es).value.key
  }

  /**
   The top category has the largest sum, and among categories with that sum
   it is the one seen first (the descending sort is stable).
   */
  lemma TopCategoryIsFirstMaximum(es: seq<Expense>)
    requires |es| > 0
    ensures var g := GroupBy(es, CategoryOf);
      var top := TopCategory(es).value;
      && (forall q :: 0 <= q < |g| ==> g[q].amount <= top.amount)
      && exists p :: 0 <= p < |g| && g[p] == top && forall q :: 0 <= q < p ==> g[q].amount < top.amount
  {
    var g := GroupBy(es, CategoryOf);
    assert |g| > 0 by {
      assert KeysOf(es, CategoryOf)[0] in Dedup(KeysOf(es, CategoryOf));
    }
    SortedHeadIsMaximum(g);
    SortedHeadIsFirst(g);
  }

  /** No category has more spending than the top category. */
  lemma TopCategoryKeyIsMaximum(es: seq<Expense>)
    requires |es| > 0
    ensures TopCategory(es).Some?
    ensures forall i :: 0 <= i < |es| ==>
      SumWhere(es, CategoryOf, es[i].category) <= SumWhere(es, CategoryOf, TopCategory(es).value.key)
  {
    var g := GroupBy(es, CategoryOf);
    var top := TopCategory(es).value;
    assert |g| > 0 && top == SortBy(g, NegAmount)[0] by {
      assert KeysOf(es, CategoryOf)[0] in Dedup(KeysOf(es, CategoryOf));
    }
    SortedHeadIsMaximum(g);
    forall i | 0 <= i < |es| ensures exists q :: 0 <= q < |g| && g[q].key == es[i].category {
      assert KeysOf(es, CategoryOf)[i] == es[i].category;
      assert es[i].category in Keys(g);
    }
    GroupDominates(es, g, top);
  }

  /** A group at least as large as every group dominates every category's sum. */
  lemma GroupDominates(es: seq<Expense>, g: seq<Group<string>>, top: Group<string>)
    requires top in g
    requires forall q :: 0 <= q < |g| ==> g[q].amount <= top.amount
    requires forall q :: 0 <= q < |g| ==> g[q].amount == SumWhere(es, CategoryOf, g[q].key)
    requires forall i :: 0 <= i < |es| ==> exists q :: 0 <= q < |g| && g[q].key == es[i].category
    ensures forall i :: 0 <= i < |es| ==> SumWhere(es, CategoryOf, es[i].category) <= SumWhere(es, CategoryOf, top.key)
  {
  }

  /** The head of the descending sort has the largest amount. */
  lemma SortedHeadIsMaximum<K>(g: seq<Group<K>>)
    requires |g| > 0
    ensures |SortBy(g, NegAmount)| > 0
    ensures forall q :: 0 <= q < |g| ==> g[q].amount <= SortBy(g, NegAmount)[0].amount
  {
    var sorted := SortBy(g, NegAmount);
    SortByMembers(g, NegAmount);
    assert g[0] in sorted;
    forall q | 0 <= q < |g| ensures g[q].amount <= sorted[0].amount {
      assert g[q] in sorted;
      var j :| 0 <= j < |sorted| && sorted[j] == g[q];
      if j > 0 {
        assert NegAmount(sorted[0]) <= NegAmount(sorted[j]);
      }
    }
  }

  /** The head of the descending sort is the first group with its amount. */
  lemma SortedHeadIsFirst<K>(g: seq<Group<K>>)
    requires |g| > 0
    ensures |SortBy(g, NegAmount)| > 0
    ensures exists p :: 0 <= p < |g| && g[p] == SortBy(g, NegAmount)[0] &&
                        forall q :: 0 <= q < p ==> g[q].amount < SortBy(g, NegAmount)[0].amount
  {
    var sorted := SortBy(g, NegAmount);
    SortedHeadIsMaximum(g);
    var top := sorted[0];
    SortByMembers(g, NegAmount);
    assert top in g;
    var p0 :| 0 <= p0 < |g| && g[p0] == top;
    var p := FirstWithAmount(g, top.amount, p0);
    WithKeyHead(g, NegAmount, p);
    WithKeyHead(sorted, NegAmount, 0);
    SortByStable(g, NegAmount, -top.amount);
    assert g[p] == top;
    forall q | 0 <= q < p ensures g[q].amount < top.amount {
      assert g[q].amount <= top.amount;
    }
  }

  /** The first position whose amount is `a`, given that `p0` has it. */
  function FirstWithAmount<K>(g: seq<Group<K>>, a: int, p0: nat): (p: nat)
    requires p0 < |g| && g[p0].amount == a
    ensures p <= p0 && g[p].amount == a
    ensures forall q :: 0 <= q < p ==> g[q].amount != a
  {
    if g[0].amount == a then 0
    else 1 + FirstWithAmount(g[1..], a, p0 - 1)
  }
}
