/**
 The data behind the two charts. The bar chart groups by category, or, in the
 monthly report, by day of the month, labelling each bar "Day <n>" and
 ordering the bars by the day read back from the label. The pie chart groups
 by category and colours slice `i` with the palette's entry `i % 10`.
 */
module Charts {
  import opened Seqs
  import opened Expenses
  import opened Grouping
  import opened Sorting
  import opened Text

  /** One bar or slice: its label and the summed amount (`value` in the pie chart). */
  datatype ChartDatum = ChartDatum(name: string, amount: int)

  function DatumAmount(d: ChartDatum): int {
    d.amount
  }

  function ChartTotal(data: seq<ChartDatum>): int {
    SumBy(data, DatumAmount)
  }

  function Names(data: seq<ChartDatum>): (r: seq<string>)
    ensures |r| == |data| && forall i :: 0 <= i < |data| ==> r[i] == data[i].name
  {
    seq(|data|, i requires 0 <= i < |data| => data[i].name)
  }

  // ---------------------------------------------------------------- by category

  function CategoryDatum(g: Group<string>): ChartDatum {
    ChartDatum(g.key, g.amount)
  }

  /**
   Category mode (`Object.values` of the category accumulator): one datum per
   category in first-seen order, each holding its category's summed amount.
   */
  function CategoryData(es: seq<Expense>): (r: seq<ChartDatum>)
    ensures Names(r) == Dedup(KeysOf(es, CategoryOf))
    ensures forall i :: 0 <= i < |r| ==> r[i].amount == SumWhere(es, CategoryOf, r[i].name)
  {
    var g := GroupBy(es, CategoryOf);
    var r := seq(|g|, i requires 0 <= i < |g| => CategoryDatum(g[i]));
    assert Names(r) == Keys(g);
    r
  }

  lemma {:induction false} CategoryDataSum(g: seq<Group<string>>)
    ensures ChartTotal(seq(|g|, i requires 0 <= i < |g| => CategoryDatum(g[i]))) == SumAmounts(g)
    decreases |g|
  {
    if |g| > 0 {
      var r := seq(|g|, i requires 0 <= i < |g| => CategoryDatum(g[i]));
      assert r[1..] == seq(|g[1..]|, i requires 0 <= i < |g[1..]| => CategoryDatum(g[1..][i]));
      CategoryDataSum(g[1..]);
    }
  }

  /** The category bars (or slices) together hold the whole total. */
  lemma CategoryDataTotal(es: seq<Expense>)
    ensures ChartTotal(CategoryData(es)) == Total(es)
  {
    CategoryDataSum(GroupBy(es, CategoryOf));
  }

  // ---------------------------------------------------------------- by day

  function DayDatum(g: Group<nat>): ChartDatum {
    ChartDatum(DayLabel(g.key), g.amount)
  }

  /**
   The comparator's key, `parseInt(name.split(" ")[1])`. Every label here is
   "Day <n>", which always reads back; the fallback is never taken.
   */
  function LabelKey(d: ChartDatum): int {
    match LabelDay(d.name)
    case Some(n) => n
    case None => 0
  }

  function DayData(g: seq<Group<nat>>): (r: seq<ChartDatum>)
    ensures |r| == |g|
    ensures forall i :: 0 <= i < |g| ==> r[i] == DayDatum(g[i]) && LabelKey(r[i]) == g[i].key
  {
    forall i | 0 <= i < |g| ensures LabelKey(DayDatum(g[i])) == g[i].key {
      LabelDayRoundTrip(g[i].key);
    }
    seq(|g|, i requires 0 <= i < |g| => DayDatum(g[i]))
  }

  /** Ordering the per-day groups by the day read back from each label. */
  function SortDays(g: seq<Group<nat>>): seq<ChartDatum> {
    SortBy(DayData(g), LabelKey)
  }

  lemma DistinctDays(g: seq<Group<nat>>)
    requires NoDuplicates(Keys(g))
    ensures DistinctKeys(DayData(g), LabelKey)
  {
    var unsorted := DayData(g);
    forall i, j | 0 <= i < j < |unsorted| ensures LabelKey(unsorted[i]) != LabelKey(unsorted[j]) {
      assert Keys(g)[i] != Keys(g)[j];
    }
  }

  /** Each sorted bar is one of the day bars before sorting. */
  lemma SortDaysBars(g: seq<Group<nat>>)
    ensures |SortDays(g)| == |g|
    ensures forall i :: 0 <= i < |SortDays(g)| ==> SortDays(g)[i] in DayData(g)
  {
    var unsorted := DayData(g);
    var r := SortBy(unsorted, LabelKey);
    SortByMembers(unsorted, LabelKey);
    assert |r| == |unsorted| by {
      assert |multiset(r)| == |multiset(unsorted)|;
    }
  }

  /** Each sorted bar is labelled with, and holds the amount of, one of the day groups. */
  lemma SortDaysGroups(g: seq<Group<nat>>)
    ensures forall i :: 0 <= i < |SortDays(g)| ==>
      && LabelKey(SortDays(g)[i]) >= 0
      && SortDays(g)[i].name == DayLabel(LabelKey(SortDays(g)[i]) as nat)
      && Group(LabelKey(SortDays(g)[i]) as nat, SortDays(g)[i].amount) in g
  {
    var r := SortDays(g);
    SortDaysBars(g);
    forall i | 0 <= i < |r|
      ensures LabelKey(r[i]) >= 0
      ensures r[i].name == DayLabel(LabelKey(r[i]) as nat)
      ensures Group(LabelKey(r[i]) as nat, r[i].amount) in g
    {
      var k :| 0 <= k < |g| && DayData(g)[k] == r[i];
      assert g[k] in g;
    }
  }

  /** With one group per day the bars' days strictly increase. */
  lemma SortDaysAscending(g: seq<Group<nat>>)
    requires NoDuplicates(Keys(g))
    ensures forall i, j :: 0 <= i < j < |SortDays(g)| ==> LabelKey(SortDays(g)[i]) < LabelKey(SortDays(g)[j])
  {
    DistinctDays(g);
    SortByDistinct(DayData(g), LabelKey);
  }

  /** A bar is labelled with day `d` exactly when there is a group for `d`. */
  lemma SortDaysNames(g: seq<Group<nat>>, d: nat)
    ensures DayLabel(d) in Names(SortDays(g)) <==> d in Keys(g)
  {
    SortDaysNamesSound(g, d);
    SortDaysNamesComplete(g, d);
  }

  lemma SortDaysNamesSound(g: seq<Group<nat>>, d: nat)
    ensures DayLabel(d) in Names(SortDays(g)) ==> d in Keys(g)
  {
    var r := SortDays(g);
    if DayLabel(d) !in Names(r) {
      return;
    }
    SortDaysGroups(g);
    var i :| 0 <= i < |r| && Names(r)[i] == DayLabel(d);
    DayLabelInjective(LabelKey(r[i]) as nat, d);
    var k :| 0 <= k < |g| && g[k] == Group(d, r[i].amount);
    assert Keys(g)[k] == d;
  }

  lemma SortDaysNamesComplete(g: seq<Group<nat>>, d: nat)
    ensures d in Keys(g) ==> DayLabel(d) in Names(SortDays(g))
  {
    if d !in Keys(g) {
      return;
    }
    var unsorted := DayData(g);
    var r := SortDays(g);
    SortByMembers(unsorted, LabelKey);
    var j :| 0 <= j < |g| && Keys(g)[j] == d;
    assert unsorted[j] in r;
    var i :| 0 <= i < |r| && r[i] == unsorted[j];
    assert Names(r)[i] == DayLabel(d);
  }

  lemma DayLabelInjective(a: nat, b: nat)
    requires DayLabel(a) == DayLabel(b)
    ensures a == b
  {
    LabelDayRoundTrip(a);
    LabelDayRoundTrip(b);
  }

  /**
   Monthly mode: one bar per day of the month that has expenses, labelled
   "Day <n>", in strictly increasing day order, each holding that day's
   summed amount.
   */
  function DailyData(es: seq<Expense>): (r: seq<ChartDatum>)
    ensures |r| == |GroupBy(es, DayOf)|
    ensures forall i :: 0 <= i < |r| ==>
      && LabelKey(r[i]) >= 0
      && r[i] == ChartDatum(DayLabel(LabelKey(r[i]) as nat), SumWhere(es, DayOf, LabelKey(r[i]) as nat))
    ensures forall i, j :: 0 <= i < j < |r| ==> LabelKey(r[i]) < LabelKey(r[j])
  {
    var g := GroupBy(es, DayOf);
    GroupByKeys(es, DayOf);
    SortDaysSums(g, es);
    SortDays(g)
  }

  /** Sorting per-day groups that hold their days' sums: the facts `DailyData` promises. */
  lemma SortDaysSums(g: seq<Group<nat>>, es: seq<Expense>)
    requires NoDuplicates(Keys(g))
    requires forall i :: 0 <= i < |g| ==> g[i].amount == SumWhere(es, DayOf, g[i].key)
    ensures |SortDays(g)| == |g|
    ensures forall i :: 0 <= i < |SortDays(g)| ==>
      && LabelKey(SortDays(g)[i]) >= 0
      && SortDays(g)[i] == ChartDatum(DayLabel(LabelKey(SortDays(g)[i]) as nat), SumWhere(es, DayOf, LabelKey(SortDays(g)[i]) as nat))
    ensures forall i, j :: 0 <= i < j < |SortDays(g)| ==> LabelKey(SortDays(g)[i]) < LabelKey(SortDays(g)[j])
  {
    SortDaysBars(g);
    SortDaysGroups(g);
    SortDaysAscending(g);
    var r := SortDays(g);
    forall i | 0 <= i < |r| ensures r[i].amount == SumWhere(es, DayOf, LabelKey(r[i]) as nat) {
      var k :| 0 <= k < |g| && g[k] == Group(LabelKey(r[i]) as nat, r[i].amount);
    }
  }

  lemma {:induction false} DayDataSum(g: seq<Group<nat>>)
    ensures ChartTotal(DayData(g)) == SumAmounts(g)
    decreases |g|
  {
    if |g| > 0 {
      assert DayData(g)[1..] == DayData(g[1..]);
      DayDataSum(g[1..]);
    }
  }

  /** The daily bars together hold the whole total. */
  lemma DailyDataTotal(es: seq<Expense>)
    ensures ChartTotal(DailyData(es)) == Total(es)
  {
    var g := GroupBy(es, DayOf);
    GroupByKeys(es, DayOf);
    DayDataSum(g);
    SortBySum(DayData(g), LabelKey, DatumAmount);
  }

  /** There is a bar for day `d` exactly when some expense falls on day `d`. */
  lemma DailyDataCovers(es: seq<Expense>, d: nat)
    ensures DayLabel(d) in Names(DailyData(es)) <==> exists k :: 0 <= k < |es| && DayOf(es[k]) == d
  {
    var g := GroupBy(es, DayOf);
    GroupByKeys(es, DayOf);
    SortDaysNames(g, d);
  }

  // ---------------------------------------------------------------- the charts

  /** The bar chart's data: empty for no expenses, otherwise by day or by category. */
  function BarChart(es: seq<Expense>, monthlyReport: bool): (r: seq<ChartDatum>)
    ensures |es| == 0 ==> r == []
    ensures |es| > 0 && monthlyReport ==> r == DailyData(es)
    ensures |es| > 0 && !monthlyReport ==> r == CategoryData(es)
    ensures ChartTotal(r) == Total(es)
  {
    DailyDataTotal(es);
    CategoryDataTotal(es);
    if |es| == 0 then [] else if monthlyReport then DailyData(es) else CategoryData(es)
  }

  /** The pie chart's data: the bar chart's category mode, under another field name. */
  function PieChart(es: seq<Expense>): (r: seq<ChartDatum>)
    ensures r == BarChart(es, false)
    ensures ChartTotal(r) == Total(es)
  {
    CategoryDataTotal(es);
    if |es| == 0 then [] else CategoryData(es)
  }

  /** Either chart has data exactly when there are expenses ("No data available" otherwise). */
  lemma ChartEmptyIffNoExpenses(es: seq<Expense>, monthlyReport: bool)
    ensures BarChart(es, monthlyReport) == [] <==> |es| == 0
    ensures PieChart(es) == [] <==> |es| == 0
  {
    if |es| > 0 {
      assert CategoryOf(es[0]) in KeysOf(es, CategoryOf);
      assert DayOf(es[0]) in KeysOf(es, DayOf);
      assert |Names(CategoryData(es))| > 0;
      assert |GroupBy(es, DayOf)| > 0 by {
        assert DayOf(es[0]) in Keys(GroupBy(es, DayOf));
      }
    }
  }

  // ---------------------------------------------------------------- colours

  const Palette: seq<string> := [
    "#8b5cf6", "#3b82f6", "#10b981", "#f59e0b", "#ef4444",
    "#ec4899", "#6366f1", "#14b8a6", "#f97316", "#8b5cf6"]

  /** `COLORS[index % COLORS.length]`. */
  function SliceColor(index: nat): (c: string)
    ensures c in Palette
  {
    Palette[index % |Palette|]
  }

  /** The colours repeat every ten slices. */
  lemma SliceColorPeriodic(index: nat)
    ensures SliceColor(index + 10) == SliceColor(index)
  {
    assert |Palette| == 10;
    assert (index + 10) % 10 == index % 10;
  }

  /**
   Within the first ten slices the only two that share a colour are the first
   and the tenth: the palette lists the same violet at both ends.
   */
  lemma SliceColorsWithinTen(i: nat, j: nat)
    requires i < j < |Palette|
    ensures SliceColor(i) == SliceColor(j) <==> i == 0 && j == 9
  {
    SliceColorFirstTen(i);
    SliceColorFirstTen(j);
  }

  /** The first ten slices take the palette's entries in order. */
  lemma SliceColorFirstTen(index: nat)
    requires index < |Palette|
    ensures SliceColor(index) == Palette[index]
  {
    assert index % |Palette| == index;
  }
}
