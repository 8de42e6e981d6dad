/**
 The suggestion route: a POST carrying the expenses, the user's API key and
 the currency symbol. It validates the request, summarises the spending
 (total, categories by share, the last five expenses) into the prompt, asks
 the model, and turns the reply into numbered suggestions or an error
 response.

 The upstream call is the parameter `upstream`, from the prompt's data to the
 reply; `JSON.parse` of the extracted text is the parameter `parse`, which
 yields the array's items or `None` when the text is not a JSON array.
 */
module Suggestions {
  import opened Seqs
  import opened Expenses
  import opened Grouping
  import opened Sorting
  import Extraction

  // ---------------------------------------------------------------- request

  /**
   One entry of the `expenses` array: an expense record, or `null` (or
   `undefined`), on which reading `expense.amount` throws.
   */
  datatype Item = Record(expense: Expense) | Nullish

  /** The `expenses` field as it arrives: absent, some non-array value, or an array. */
  datatype ExpensesField = Missing | NotAnArray | Items(items: seq<Item>)

  /**
   A body `request.json()` could not read, or the three destructured fields.
   The dashboard's suggestion panel sends no `currencySymbol`, so it may be
   absent.
   */
  datatype RequestBody =
    | Unreadable
    | Body(expenses: ExpensesField, apiKey: Option<string>, currencySymbol: Option<string>)

  /** `!apiKey`: absent or the empty string. */
  predicate HasKey(apiKey: Option<string>) {
    apiKey.Some? && apiKey.value != ""
  }

  /** `!expenses || !Array.isArray(expenses) || expenses.length === 0` fails. */
  predicate ValidExpenses(f: ExpensesField) {
    f.Items? && |f.items| > 0
  }

  predicate AllRecords(items: seq<Item>) {
    forall i :: 0 <= i < |items| ==> items[i].Record?
  }

  /** The expenses an array of records holds, in order. */
  function Records(items: seq<Item>): (es: seq<Expense>)
    requires AllRecords(items)
    ensures |es| == |items| && forall i :: 0 <= i < |items| ==> es[i] == items[i].expense
  {
    seq(|items|, i requires 0 <= i < |items| => items[i].expense)
  }

  /** A request that passes validation and whose expenses can all be read. */
  predicate Accepted(body: RequestBody) {
    && body.Body? && HasKey(body.apiKey) && ValidExpenses(body.expenses)
    && AllRecords(body.expenses.items)
  }

  /** `${currencySymbol}` in a template literal: an absent symbol prints as "undefined". */
  function SymbolText(symbol: Option<string>): string {
    match symbol
    case Some(text) => text
    case None => "undefined"
  }

  // ---------------------------------------------------------------- response

  datatype Suggestion = Suggestion(id: int, title: string, description: string)

  datatype Response =
    | Suggestions(items: seq<Suggestion>)
    | Failure(status: int, message: string)

  const InternalError := "Internal server error"
  const KeyRequired := "API key is required"
  const ExpensesRequired := "Valid expenses data is required"
  const UpstreamFailed := "Failed to get suggestions from Gemini API"
  const ParseFailed := "Failed to parse AI suggestions"

  /**
   The model's reply: its HTTP status and how far its JSON body can be read.
   `NoCandidate` is a body without `candidates[0].content.parts[0]`;
   `NonStringText` is one whose `text` there is not a string.
   */
  datatype ReplyBody = NotJson | NoCandidate | NonStringText | Text(text: string)

  datatype Reply = Reply(status: int, body: ReplyBody)

  /** `response.ok`. */
  predicate Ok(status: int) {
    200 <= status <= 299
  }

  // ---------------------------------------------------------------- summary

  /** `amount / total * 100`: NaN or an infinity when the total is zero. */
  datatype Percentage = Percent(value: real) | NonFinite

  function PercentOf(amount: int, total: int): (p: Percentage)
    ensures p.NonFinite? <==> total == 0
  {
    if total == 0 then NonFinite else Percent((amount as real) / (total as real) * 100.0)
  }

  /** A finite percentage is the share that, scaled by the total, gives back a hundred times the amount. */
  lemma PercentOfScales(amount: int, total: int)
    requires total != 0
    ensures PercentOf(amount, total).value * (total as real) == (amount as real) * 100.0
  {
  }

  datatype CategoryShare = CategoryShare(category: string, amount: int, percentage: Percentage)

  function Shares(groups: seq<Group<string>>, total: int): (r: seq<CategoryShare>)
    ensures |r| == |groups|
    ensures forall i :: 0 <= i < |r| ==>
      r[i] == CategoryShare(groups[i].key, groups[i].amount, PercentOf(groups[i].amount, total))
  {
    seq(|groups|, i requires 0 <= i < |groups| =>
      CategoryShare(groups[i].key, groups[i].amount, PercentOf(groups[i].amount, total)))
  }

  /** The per-category sums ordered by amount, largest first (stable for ties). */
  function ByAmount(es: seq<Expense>): seq<Group<string>> {
    SortBy(GroupBy(es, CategoryOf), NegAmount)
  }

  /**
   `sortedCategories`: one share per category, amounts never increasing, each
   amount the sum of that category's expenses and each percentage taken of
   the whole total.
   */
  function SortedCategories(es: seq<Expense>): (r: seq<CategoryShare>)
    ensures |r| == |GroupBy(es, CategoryOf)|
    ensures forall i, j :: 0 <= i < j < |r| ==> r[i].amount >= r[j].amount
    ensures forall i :: 0 <= i < |r| ==> r[i].amount == SumWhere(es, CategoryOf, r[i].category)
    ensures forall i :: 0 <= i < |r| ==> r[i].percentage == PercentOf(r[i].amount, Total(es))
  {
    var g := GroupBy(es, CategoryOf);
    SortKeepsSums(g, es);
    Shares(SortBy(g, NegAmount), Total(es))
  }

  /** Reordering groups that hold their categories' sums keeps every group's sum attached to it. */
  lemma SortKeepsSums(g: seq<Group<string>>, es: seq<Expense>)
    requires forall i :: 0 <= i < |g| ==> g[i].amount == SumWhere(es, CategoryOf, g[i].key)
    ensures |SortBy(g, NegAmount)| == |g|
    ensures forall i :: 0 <= i < |SortBy(g, NegAmount)| ==>
      SortBy(g, NegAmount)[i].amount == SumWhere(es, CategoryOf, SortBy(g, NegAmount)[i].key)
  {
    var sorted := SortBy(g, NegAmount);
    assert |multiset(sorted)| == |multiset(g)|;
    SortByMembers(g, NegAmount);
    forall i | 0 <= i < |sorted| ensures sorted[i].amount == SumWhere(es, CategoryOf, sorted[i].key) {
      assert sorted[i] in sorted;
      var j :| 0 <= j < |g| && g[j] == sorted[i];
    }
  }

  function CategoryNames(r: seq<CategoryShare>): (cs: seq<string>)
    ensures |cs| == |r| && forall i :: 0 <= i < |r| ==> cs[i] == r[i].category
  {
    seq(|r|, i requires 0 <= i < |r| => r[i].category)
  }

  lemma ByAmountKeys(g: seq<Group<string>>, total: int)
    ensures forall c :: c in CategoryNames(Shares(SortBy(g, NegAmount), total)) <==> c in Keys(g)
  {
    SharesCategories(SortBy(g, NegAmount), total);
    SortedKeys(g);
  }

  /** The shares list the groups' keys, in order. */
  lemma SharesCategories(g: seq<Group<string>>, total: int)
    ensures CategoryNames(Shares(g, total)) == Keys(g)
  {
  }

  /** Sorting the groups keeps the same keys. */
  lemma SortedKeys(g: seq<Group<string>>)
    ensures forall c :: c in Keys(SortBy(g, NegAmount)) <==> c in Keys(g)
  {
    SortByMembers(g, NegAmount);
    forall c ensures c in Keys(SortBy(g, NegAmount)) <==> c in Keys(g) {
      if c in Keys(SortBy(g, NegAmount)) {
        KeyOfMember(SortBy(g, NegAmount), g, c);
      }
      if c in Keys(g) {
        KeyOfMember(g, SortBy(g, NegAmount), c);
      }
    }
  }

  /** A key of `a` is a key of `b` when every group of `a` is in `b`. */
  lemma KeyOfMember(a: seq<Group<string>>, b: seq<Group<string>>, c: string)
    requires forall x :: x in a ==> x in b
    requires c in Keys(a)
    ensures c in Keys(b)
  {
    var i :| 0 <= i < |a| && Keys(a)[i] == c;
    assert a[i] in a;
    var j :| 0 <= j < |b| && b[j] == a[i];
    assert Keys(b)[j] == c;
  }

  /** The categories listed are exactly the categories of the expenses, each once. */
  lemma SortedCategoriesCover(es: seq<Expense>)
    ensures forall c :: c in CategoryNames(SortedCategories(es)) <==> exists i :: 0 <= i < |es| && es[i].category == c
  {
    var g := GroupBy(es, CategoryOf);
    GroupByKeys(es, CategoryOf);
    ByAmountKeys(g, Total(es));
  }

  /** Reordering the groups by amount keeps their sum. */
  lemma SortByAmountSum<K>(g: seq<Group<K>>)
    ensures SumAmounts(SortBy(g, NegAmount)) == SumAmounts(g)
  {
    SortBySum(g, NegAmount, GroupAmount);
  }

  function ShareAmount(s: CategoryShare): int {
    s.amount
  }

  function AmountSum(r: seq<CategoryShare>): int {
    SumBy(r, ShareAmount)
  }

  function PercentValue(p: Percentage): real {
    match p
    case Percent(v) => v
    case NonFinite => 0.0
  }

  function PercentSum(r: seq<CategoryShare>): real
    decreases |r|
  {
    if |r| == 0 then 0.0 else PercentValue(r[0].percentage) + PercentSum(r[1..])
  }

  lemma {:induction false} SharesSums(g: seq<Group<string>>, total: int)
    requires total != 0
    ensures AmountSum(Shares(g, total)) == SumAmounts(g)
    ensures PercentSum(Shares(g, total)) * (total as real) == (SumAmounts(g) as real) * 100.0
    decreases |g|
  {
    if |g| > 0 {
      var r := Shares(g, total);
      assert r[1..] == Shares(g[1..], total);
      SharesSums(g[1..], total);
      var a, rest := PercentValue(r[0].percentage), PercentSum(r[1..]);
      PercentOfScales(g[0].amount, total);
      assert a * (total as real) == (g[0].amount as real) * 100.0;
      assert (a + rest) * (total as real) == a * (total as real) + rest * (total as real);
    }
  }

  /** The category amounts add up to the total spending. */
  lemma SortedCategoriesTotal(es: seq<Expense>)
    ensures AmountSum(SortedCategories(es)) == Total(es)
  {
    var g := GroupBy(es, CategoryOf);
    SortByAmountSum(g);
    AmountSumShares(SortBy(g, NegAmount), Total(es));
  }

  lemma {:induction false} AmountSumShares(g: seq<Group<string>>, total: int)
    ensures AmountSum(Shares(g, total)) == SumAmounts(g)
    decreases |g|
  {
    if |g| > 0 {
      assert Shares(g, total)[1..] == Shares(g[1..], total);
      AmountSumShares(g[1..], total);
    }
  }

  lemma CancelTotal(x: real, s: real, t: real)
    requires t != 0.0 && s == t && x * t == s * 100.0
    ensures x == 100.0
  {
    assert (x - 100.0) * t == 0.0;
  }

  /** Shares of groups that make up the whole total add up to a hundred percent. */
  lemma SharesPercentSum(g: seq<Group<string>>, total: int)
    requires total != 0 && SumAmounts(g) == total
    ensures PercentSum(Shares(g, total)) == 100.0
  {
    SharesSums(g, total);
    CancelTotal(PercentSum(Shares(g, total)), SumAmounts(g) as real, total as real);
  }

  lemma ByAmountPercentages(g: seq<Group<string>>, total: int)
    requires total != 0 && SumAmounts(g) == total
    ensures PercentSum(Shares(SortBy(g, NegAmount), total)) == 100.0
  {
    SortByAmountSum(g);
    SharesPercentSum(SortBy(g, NegAmount), total);
  }

  /** With a non-zero total the percentages add up to exactly one hundred. */
  lemma PercentagesSumToHundred(es: seq<Expense>)
    requires Total(es) != 0
    ensures PercentSum(SortedCategories(es)) == 100.0
  {
    var g := GroupBy(es, CategoryOf);
    ByAmountPercentages(g, Total(es));
  }

  /** The shares of exactly `amount`, in order. */
  function WithAmount(r: seq<CategoryShare>, amount: int): seq<CategoryShare> {
    Filter(r, (c: CategoryShare) => c.amount == amount)
  }

  /**
   Among categories of equal amount the first-seen one is listed first: the
   categories listed with a given amount are, in order, the categories with
   that sum in the order their first expense appears.
   */
  lemma SortedCategoriesStable(es: seq<Expense>, amount: int)
    ensures CategoryNames(WithAmount(SortedCategories(es), amount))
         == Keys(WithKey(GroupBy(es, CategoryOf), NegAmount, -amount))
  {
    var g := GroupBy(es, CategoryOf);
    assert SortedCategories(es) == Shares(SortBy(g, NegAmount), Total(es));
    SortedSharesStable(g, Total(es), amount);
  }

  lemma SortedSharesStable(g: seq<Group<string>>, total: int, amount: int)
    ensures CategoryNames(WithAmount(Shares(SortBy(g, NegAmount), total), amount))
         == Keys(WithKey(g, NegAmount, -amount))
  {
    var sorted := SortBy(g, NegAmount);
    var kept := WithKey(sorted, NegAmount, -amount);
    assert WithAmount(Shares(sorted, total), amount) == Shares(kept, total) by {
      SharesFilter(sorted, total, amount);
    }
    assert CategoryNames(Shares(kept, total)) == Keys(kept) by {
      SharesCategories(kept, total);
    }
    assert kept == WithKey(g, NegAmount, -amount) by {
      SortByStable(g, NegAmount, -amount);
    }
  }

  /** Keeping the shares of one amount is keeping the groups of that amount. */
  lemma {:induction false} SharesFilter(g: seq<Group<string>>, total: int, amount: int)
    ensures WithAmount(Shares(g, total), amount)
         == Shares(WithKey(g, NegAmount, -amount), total)
    decreases |g|
  {
    if |g| > 0 {
      var r := Shares(g, total);
      assert r[1..] == Shares(g[1..], total);
      SharesFilter(g[1..], total, amount);
      var rest := WithKey(g[1..], NegAmount, -amount);
      if g[0].amount == amount {
        assert WithKey(g, NegAmount, -amount) == [g[0]] + rest;
        assert Shares([g[0]] + rest, total) == [r[0]] + Shares(rest, total);
      } else {
        assert WithKey(g, NegAmount, -amount) == rest;
      }
    }
  }

  // ---------------------------------------------------------------- prompt

  /**
   Everything the prompt says about the expenses; the surrounding wording is
   fixed and amounts are rendered with `toFixed`, which the model leaves out.
   */
  datatype PromptData = PromptData(
    currencySymbol: string,
    totalAmount: int,
    transactions: nat,
    topCategories: seq<CategoryShare>,
    recent: seq<Expense>)

  /** `expenses.slice(-5).reverse()`: the newest expense first. */
  function Recent(es: seq<Expense>): (r: seq<Expense>)
    ensures |r| == Min(5, |es|)
    ensures forall i :: 0 <= i < |r| ==> r[i] == es[|es| - 1 - i]
  {
    Reverse(LastN(es, 5))
  }

  /**
   The prompt's data: the total and count of all expenses, the three largest
   categories (fewer when there are fewer), none smaller than any category
   left out, and the five newest expenses newest first.
   */
  function Prompt(es: seq<Expense>, currencySymbol: string): (p: PromptData)
    ensures p.currencySymbol == currencySymbol
    ensures p.totalAmount == Total(es) && p.transactions == |es|
    ensures |p.topCategories| == Min(3, |SortedCategories(es)|)
    ensures p.topCategories == SortedCategories(es)[..|p.topCategories|]
    ensures forall i, j :: 0 <= i < |p.topCategories| <= j < |SortedCategories(es)| ==>
      p.topCategories[i].amount >= SortedCategories(es)[j].amount
    ensures |p.recent| == Min(5, |es|)
    ensures forall i :: 0 <= i < |p.recent| ==> p.recent[i] == es[|es| - 1 - i]
  {
    var sorted := SortedCategories(es);
    PromptData(currencySymbol, Total(es), |es|, sorted[..Min(3, |sorted|)], Recent(es))
  }

  // ---------------------------------------------------------------- reply

  /** `suggestions.map((s, index) => ({...s, id: index + 1}))`. */
  function NumberFrom(s: seq<Suggestion>, first: int): (r: seq<Suggestion>)
    ensures |r| == |s|
    ensures forall i :: 0 <= i < |r| ==> r[i] == s[i].(id := first + i)
    decreases |s|
  {
    if |s| == 0 then [] else [s[0].(id := first)] + NumberFrom(s[1..], first + 1)
  }

  /** The ids are 1, 2, 3, …, overriding whatever id the model supplied; every other field stays. */
  function AssignIds(s: seq<Suggestion>): (r: seq<Suggestion>)
    ensures |r| == |s|
    ensures forall i :: 0 <= i < |r| ==> r[i].id == i + 1
    ensures forall i :: 0 <= i < |r| ==> r[i].title == s[i].title && r[i].description == s[i].description
  {
    NumberFrom(s, 1)
  }

  /** The assigned ids are distinct and positive. */
  lemma AssignIdsDistinct(s: seq<Suggestion>)
    ensures forall i, j :: 0 <= i < j < |AssignIds(s)| ==> 0 < AssignIds(s)[i].id < AssignIds(s)[j].id
  {
  }

  /** Handling the model's reply once the request has been accepted. */
  function HandleReply(reply: Reply, parse: string -> Option<seq<Suggestion>>): (r: Response)
    ensures !Ok(reply.status) && reply.body != NotJson ==> r == Failure(reply.status, UpstreamFailed)
    ensures reply.body == NotJson || (Ok(reply.status) && reply.body == NoCandidate) ==> r == Failure(500, InternalError)
    ensures Ok(reply.status) && reply.body == NonStringText ==> r == Failure(500, ParseFailed)
    ensures Ok(reply.status) && reply.body.Text? ==>
      match parse(Extraction.JsonText(reply.body.text))
      case None => r == Failure(500, ParseFailed)
      case Some(items) => r == Suggestions(AssignIds(items))
  {
    if !Ok(reply.status) then
      // `response.json()` of an unreadable error body throws into the outer catch
      if reply.body == NotJson then Failure(500, InternalError) else Failure(reply.status, UpstreamFailed)
    else
      match reply.body
      case NotJson => Failure(500, InternalError)
      case NoCandidate => Failure(500, InternalError)
      case NonStringText => Failure(500, ParseFailed)
      case Text(text) =>
        match parse(Extraction.JsonText(text))
        case None => Failure(500, ParseFailed)
        case Some(items) => Suggestions(AssignIds(items))
  }

  /** The whole handler. */
  function Post(body: RequestBody, upstream: PromptData -> Reply, parse: string -> Option<seq<Suggestion>>): (r: Response)
    ensures body.Unreadable? ==> r == Failure(500, InternalError)
    ensures body.Body? && !HasKey(body.apiKey) ==> r == Failure(400, KeyRequired)
    ensures body.Body? && HasKey(body.apiKey) && !ValidExpenses(body.expenses) ==> r == Failure(400, ExpensesRequired)
    ensures body.Body? && HasKey(body.apiKey) && ValidExpenses(body.expenses) && !AllRecords(body.expenses.items) ==>
      r == Failure(500, InternalError)
    ensures Accepted(body) ==>
      r == HandleReply(upstream(Prompt(Records(body.expenses.items), SymbolText(body.currencySymbol))), parse)
    ensures Accepted(body) && body.currencySymbol == None ==>
      r == HandleReply(upstream(Prompt(Records(body.expenses.items), "undefined")), parse)
  {
    match body
    case Unreadable => Failure(500, InternalError)
    case Body(expenses, apiKey, symbol) =>
      if !HasKey(apiKey) then Failure(400, KeyRequired)
      else if !ValidExpenses(expenses) then Failure(400, ExpensesRequired)
      else if !AllRecords(expenses.items) then Failure(500, InternalError)
      else HandleReply(upstream(Prompt(Records(expenses.items), SymbolText(symbol))), parse)
  }

  /**
   A request that fails validation, or whose expenses include a `null` the
   totals cannot read, gets its answer without the model being consulted.
   */
  lemma RejectedWithoutUpstream(body: RequestBody, u1: PromptData -> Reply, u2: PromptData -> Reply,
                                p1: string -> Option<seq<Suggestion>>, p2: string -> Option<seq<Suggestion>>)
    requires !Accepted(body)
    ensures Post(body, u1, p1) == Post(body, u2, p2)
    ensures Post(body, u1, p1).Failure? && Post(body, u1, p1).status in {400, 500}
  {
  }

  /** The five error messages the route can send. */
  predicate KnownMessage(m: string) {
    m == InternalError || m == KeyRequired || m == ExpensesRequired || m == UpstreamFailed || m == ParseFailed
  }

  /** Every answer to an accepted request is numbered suggestions or an error with a known message. */
  lemma ReplyShapes(reply: Reply, parse: string -> Option<seq<Suggestion>>)
    ensures HandleReply(reply, parse).Failure? ==> KnownMessage(HandleReply(reply, parse).message)
    ensures HandleReply(reply, parse).Suggestions? ==>
      forall i :: 0 <= i < |HandleReply(reply, parse).items| ==> HandleReply(reply, parse).items[i].id == i + 1
  {
  }

  /** Every response is either the suggestions, numbered from 1, or an error with one of the five messages. */
  lemma ResponseShapes(body: RequestBody, upstream: PromptData -> Reply, parse: string -> Option<seq<Suggestion>>)
    ensures Post(body, upstream, parse).Failure? ==> KnownMessage(Post(body, upstream, parse).message)
    ensures Post(body, upstream, parse).Suggestions? ==>
      forall i :: 0 <= i < |Post(body, upstream, parse).items| ==> Post(body, upstream, parse).items[i].id == i + 1
  {
    if Accepted(body) {
      ReplyShapes(upstream(Prompt(Records(body.expenses.items), SymbolText(body.currencySymbol))), parse);
    }
  }
}
