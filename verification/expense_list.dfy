/**
 The expense table: the category choices of its filter, the rows it shows
 for a search term and a category, and the badge colour of each category.
 */
module ExpenseList {
  import opened Seqs
  import opened Expenses
  import opened Grouping
  import opened Text
  import ExpenseForm

  /** The filter value that lets every category through. */
  const AllCategories := "all"

  /**
   `["all", ...new Set(categories)]`: "all", then every category that occurs,
   once each, in the order of first appearance.
   */
  function CategoryOptions(es: seq<Expense>): (r: seq<string>)
    ensures |r| >= 1 && r[0] == AllCategories
    ensures forall c :: c in r[1..] <==> exists i :: 0 <= i < |es| && es[i].category == c
    ensures NoDuplicates(r[1..])
    ensures forall i, j :: 1 <= i < j < |r| ==>
      r[i] in KeysOf(es, CategoryOf) && r[j] in KeysOf(es, CategoryOf) &&
      IndexOf(KeysOf(es, CategoryOf), r[i]) < IndexOf(KeysOf(es, CategoryOf), r[j])
  {
    var ks := KeysOf(es, CategoryOf);
    assert forall c :: c in ks <==> exists i :: 0 <= i < |es| && es[i].category == c;
    [AllCategories] + Dedup(ks)
  }

  /** The options are duplicate-free exactly when no expense is itself filed under "all". */
  lemma CategoryOptionsDistinct(es: seq<Expense>)
    ensures NoDuplicates(CategoryOptions(es)) <==> forall i :: 0 <= i < |es| ==> es[i].category != AllCategories
  {
    var r := CategoryOptions(es);
    if NoDuplicates(r) {
      forall i | 0 <= i < |es| ensures es[i].category != AllCategories {
        forall j | 1 <= j < |r| ensures r[j] != AllCategories {
          assert r[0] != r[j];
        }
        assert es[i].category in r[1..];
      }
    } else {
      forall a, b | 1 <= a < b < |r| ensures r[a] != r[b] {
        assert r[a] == r[1..][a - 1] && r[b] == r[1..][b - 1];
      }
      var i, j :| 0 <= i < j < |r| && r[i] == r[j];
      assert r[j] == r[1..][j - 1];
    }
  }

  /** The search is case-insensitive (for ASCII letters) and looks for the term anywhere in the name. */
  predicate MatchesSearch(e: Expense, term: string) {
    Includes(Lower(e.name), Lower(term))
  }

  predicate MatchesCategory(e: Expense, filter: string) {
    filter == AllCategories || e.category == filter
  }

  predicate Shown(e: Expense, term: string, filter: string) {
    MatchesSearch(e, term) && MatchesCategory(e, filter)
  }

  /**
   `filteredExpenses`: the expenses whose lower-cased name contains the
   lower-cased term and whose category is the chosen one (any, for "all"),
   in their stored order.
   */
  function Visible(es: seq<Expense>, term: string, filter: string): (r: seq<Expense>)
    ensures IsSubsequence(r, es)
    ensures forall e :: e in r <==>
      && e in es
      && (exists i :: OccursAt(Lower(e.name), Lower(term), i))
      && (filter == AllCategories || e.category == filter)
    ensures forall e :: multiset(r)[e] ==
              if (exists i :: OccursAt(Lower(e.name), Lower(term), i)) && (filter == AllCategories || e.category == filter)
              then multiset(es)[e] else 0
  {
    FilterIsSubsequence(es, (e: Expense) => Shown(e, term, filter));
    FilterMembers(es, (e: Expense) => Shown(e, term, filter));
    FilterMultiset(es, (e: Expense) => Shown(e, term, filter));
    Filter(es, (e: Expense) => Shown(e, term, filter))
  }

  /** The initial state of the table, no term and "all", shows every expense. */
  lemma VisibleInitially(es: seq<Expense>)
    ensures Visible(es, "", AllCategories) == es
  {
    forall i | 0 <= i < |es| ensures Shown(es[i], "", AllCategories) {
      assert Lower("") == "";
      IncludesEmpty(Lower(es[i].name));
    }
    FilterKeepsAll(es, (e: Expense) => Shown(e, "", AllCategories));
  }

  /** Typing the term in upper or lower case shows the same rows. */
  lemma VisibleIgnoresCase(es: seq<Expense>, term: string, filter: string)
    ensures Visible(es, Lower(term), filter) == Visible(es, term, filter)
  {
    LowerIdempotent(term);
    FilterCongruent(es, (e: Expense) => Shown(e, Lower(term), filter), (e: Expense) => Shown(e, term, filter));
  }

  /** Typing more characters never brings a row back. */
  lemma SearchNarrows(es: seq<Expense>, term: string, more: string, filter: string)
    ensures forall e :: e in Visible(es, term + more, filter) ==> e in Visible(es, term, filter)
  {
    LowerAppend(term, more);
    forall e | e in Visible(es, term + more, filter) ensures e in Visible(es, term, filter) {
      assert Shown(e, term + more, filter);
      IncludesPrefix(Lower(e.name), Lower(term), Lower(more));
    }
  }

  lemma {:induction false} FilterCategoryTotal(es: seq<Expense>, c: string)
    requires c != AllCategories
    ensures Total(Filter(es, (e: Expense) => Shown(e, "", c))) == SumWhere(es, CategoryOf, c)
    decreases |es|
  {
    if |es| > 0 {
      assert Lower("") == "";
      IncludesEmpty(Lower(es[0].name));
      FilterCategoryTotal(es[1..], c);
    }
  }

  /**
   Choosing a category (other than "all") with no search term lists exactly
   the expenses that make up that category's group: their amounts add up to
   the group's sum.
   */
  lemma CategoryRowsTotal(es: seq<Expense>, c: string)
    requires c != AllCategories
    ensures Total(Visible(es, "", c)) == SumWhere(es, CategoryOf, c)
  {
    FilterCategoryTotal(es, c);
  }

  /** The badge colours; anything missing falls back to gray. */
  const CategoryColors: map<string, string> := map[
    "Food & Dining" := "bg-green-100 text-green-800",
    "Transportation" := "bg-blue-100 text-blue-800",
    "Entertainment" := "bg-purple-100 text-purple-800",
    "Utilities" := "bg-red-100 text-red-800",
    "Shopping" := "bg-pink-100 text-pink-800",
    "Health & Fitness" := "bg-emerald-100 text-emerald-800",
    "Travel" := "bg-indigo-100 text-indigo-800",
    "Education" := "bg-cyan-100 text-cyan-800",
    "Personal Care" := "bg-yellow-100 text-yellow-800",
    "Gifts & Donations" := "bg-orange-100 text-orange-800",
    "Investments" := "bg-teal-100 text-teal-800",
    "Bills & Fees" := "bg-rose-100 text-rose-800",
    "Home" := "bg-amber-100 text-amber-800",
    "Other" := "bg-gray-100 text-gray-800"]

  const Gray := "bg-gray-100 text-gray-800"

  /** `getCategoryColor`: the table's entry, or gray. */
  function CategoryColor(category: string): (r: string)
    ensures category in CategoryColors ==> r == CategoryColors[category]
    ensures category !in CategoryColors ==> r == Gray
  {
    if category in CategoryColors then CategoryColors[category] else Gray
  }

  /**
   Every category the dialog offers has its own colour except "General",
   which has no entry and shares the gray of "Other".
   */
  lemma DialogCategoryColors()
    ensures forall i :: 0 <= i < |ExpenseForm.Categories| ==>
      (ExpenseForm.Categories[i] in CategoryColors <==> ExpenseForm.Categories[i] != "General")
    ensures CategoryColor("General") == CategoryColor("Other") == Gray
  {
  }
}
