# Expense tracker core in Dafny

A model of the pure logic of a small Next.js expense tracker. The user records
expenses (id, name, amount, category, date) against an initial amount. The
dashboard keeps the balance, filters by month and shows a few summary cards.
A table lists, searches and filters the expenses. Two charts group the
spending by category or by day. A server route asks a language model for
saving tips.

Amounts are integer cents. Dates are `(year, month, day)` triples. Strings
are `seq<char>`. Everything is a pure function over immutable datatypes.

The modules:

- `Seqs`: options, filtering, subsequences, first-seen de-duplication, the
  last `n` elements, reversal and sums.
- `Expenses`: the expense record and the total of a list.
- `Text`: JavaScript's `trim` (ECMAScript white space), ASCII lower-casing,
  substring search, and the `"Day <n>"` labels with the `parseInt` that reads
  them back.
- `Grouping`: the "reduce into an object keyed by category or day" pattern.
  Keys keep their first-seen order and each key carries the sum of its
  expenses.
- `Sorting`: a stable insertion sort by an integer key, modelling
  `Array.prototype.sort` with a numeric comparator.
- `Currency`: the dashboard's and the charts' currency-symbol tables and the
  currencies the setup screen offers.
- `Dashboard`: loading the stored state, the add, edit and delete handlers
  with the balance recomputed after each, the month filter, the "Monthly
  Overview" card and the "Top Category" card.
- `ExpenseForm`: the add/edit dialog, its validation, its submit and the
  field edits that clear one error each.
- `ExpenseList`: the table's category options, its search and category
  filter, and the badge colours.
- `Charts`: the bar chart's two modes, the pie chart, and the slice colours.
- `Extraction`: cutting the JSON array out of the model's reply with the
  greedy pattern `/\[[\s\S]*\]/`.
- `Suggestions`: the suggestion route. It validates the request and
  summarises the spending into the prompt's data: the total, the
  categories by share, the top three and the last five expenses. Then it
  maps the model's reply to a response.

Outside effects are parameters:

- the call to the model is `upstream: PromptData -> Reply`;
- `JSON.parse` of the extracted text is `parse`;
- `Number(text)` in the dialog is `number`;
- `new Date(text)` is `parseDate`;
- `Date.now().toString()` ids are `freshId`;
- today's date string is `today`.

The suggestion route cuts the array out of the model's reply with the
greedy pattern `/\[[\s\S]*\]/` (app/api/ai-suggestions/route.ts:137). It
matches from the first `[` to the last `]` of the whole reply, so prose that
contains a `]` after the array is cut along with it.
`Extraction.ArrayMatchIsLeftmostLongest` states exactly this span.

The dialog builds the expense with `new Date(date).toISOString()`
(components/add-expense-dialog.tsx:93). A date string that is non-empty, and
so passes validation, but does not parse makes that call throw. Then nothing
is emitted and the form keeps its input, even though every field passed its
check. `ExpenseForm.Submit` states this case.

## Model

| member | source | states |
|---|---|---|
| Dashboard.Load | app/dashboard/page.tsx:54-72 | missing stored values fall back to 0, "THB" (also for an empty string) and no expenses; stored ones are kept; the balance is the initial amount minus the total |
| Dashboard.AddExpense | app/dashboard/page.tsx:75-91 | the expense is appended with a fresh id and the earlier expenses are untouched; the balance is consistent again and drops by exactly the new amount |
| Dashboard.ReplaceById | app/dashboard/page.tsx:97-99 | same length; every expense whose id matches is replaced by the edited one and every other expense is kept |
| Dashboard.EditExpense | app/dashboard/page.tsx:96-111 | the list is updated position by position as above; the balance is consistent; initial amount and currency unchanged |
| Dashboard.EditBalance | app/dashboard/page.tsx:96-111 | editing the single expense with a given id moves the balance by its old amount minus its new amount |
| Dashboard.RemoveById | app/dashboard/page.tsx:115-117 | the result is a subsequence holding exactly the expenses with other ids, with their multiplicities |
| Dashboard.DeleteExpense | app/dashboard/page.tsx:114-129 | exactly the expenses with the id are removed, every copy of every other expense stays, in order, and the balance is consistent |
| Dashboard.DeleteAbsent | app/dashboard/page.tsx:114-129 | deleting an id no expense has leaves the state unchanged |
| Dashboard.DeleteBalance | app/dashboard/page.tsx:114-129 | deleting the single expense with a given id gives its amount back to the balance |
| Dashboard.InMonth | app/dashboard/page.tsx:152-158 | a subsequence of the expenses holding exactly those dated in the selected month and year, with their multiplicities |
| Dashboard.MonthlyOverviewAsWritten | app/dashboard/page.tsx:229-238 | the card as written shows the sum and count of the whole list |
| Dashboard.MonthlyOverviewCountsOtherMonths | app/dashboard/page.tsx:229-238 | with one January and one February expense, the card as written reports both for January; the corrected card reports one |
| Dashboard.MonthlyOverview | app/dashboard/page.tsx:218-238 | the sum and the number of the expenses dated in the selected month; with the other months' sum and number they make up the total and the list length; it agrees with the card as written when every expense is in that month |
| Dashboard.TopCategory | app/dashboard/page.tsx:259-273 | there is a top category exactly when there are expenses, and it is one of the category groups |
| Dashboard.TopCategoryLabel | app/dashboard/page.tsx:259-300 | "None" without expenses, otherwise the category of some expense whose summed spending no other expense's category exceeds |
| Dashboard.TopCategoryIsFirstMaximum | app/dashboard/page.tsx:263-272 | the top category has the largest sum, and no category seen before it reaches that sum |
| Currency.DashboardSymbolAsWritten | app/dashboard/page.tsx:132-142 | the page's lookup: never empty; MMK gets "K" and THB "฿"; USD, EUR, GBP and JPY get the setup screen's symbol; every other code, CAD, AUD, INR and CNY included, gets "฿" |
| Currency.ChartSymbol | components/expense-bar-chart.tsx:62-74 | the charts' lookup (the pie chart's at components/expense-pie-chart.tsx:48-60 is the same): never empty; every setup currency gets the setup screen's symbol; every other code gets "$" |
| Currency.DashboardAgreesWithSetupOnFour | app/dashboard/page.tsx:132-142 | the dashboard as written shows the setup screen's symbol for a setup currency exactly when it is one of the first four; CAD, AUD, INR and CNY get "฿" |
| Currency.DashboardMissesSetupCurrency | app/setup/page.tsx:19-28 | CAD is offered at setup with "$" but the dashboard as written shows "฿" for it |
| Currency.DashboardSymbol | app/dashboard/page.tsx:132-142 | the corrected lookup: agrees with the setup screen on every offered currency and with the page's lookup on every code that lookup lists; any other code falls back to "฿" |
| Currency.ChartsAgreeWithSetup | components/expense-bar-chart.tsx:62-74 | the charts show every setup currency with the symbol the setup screen offers |
| Currency.FallbacksDiffer | components/expense-pie-chart.tsx:48-60 | for a code neither table knows, the page shows "฿" and the charts "$"; the corrected lookup keeps the page's "฿" |
| Grouping.GroupBy | app/api/ai-suggestions/route.ts:28-35 | one group per distinct key in first-seen order; each group's amount is the sum over its expenses; the groups add up to the total |
| Grouping.GroupByKeys | app/api/ai-suggestions/route.ts:28-35 | the keys are distinct and are exactly the keys of the expenses |
| Sorting.SortBy | app/api/ai-suggestions/route.ts:38-39 | the result is ordered by the key and is a permutation of the input |
| Sorting.SortByStable | app/api/ai-suggestions/route.ts:38-39 | elements with equal keys keep their relative order |
| Sorting.SortBySum | app/api/ai-suggestions/route.ts:38-39 | sorting does not change any sum over the elements |
| Suggestions.PercentOf | app/api/ai-suggestions/route.ts:43 | the percentage is non-finite exactly when the total is zero |
| Suggestions.PercentOfScales | app/api/ai-suggestions/route.ts:43 | a finite percentage times the total is a hundred times the amount |
| Suggestions.SortedCategories | app/api/ai-suggestions/route.ts:37-44 | one entry per category; amounts never increase; each amount is that category's sum; each percentage is taken of the whole total |
| Suggestions.SortedCategoriesCover | app/api/ai-suggestions/route.ts:28-44 | a category is listed exactly when some expense has it |
| Suggestions.SortedCategoriesTotal | app/api/ai-suggestions/route.ts:22-44 | the listed amounts add up to the total spending |
| Suggestions.PercentagesSumToHundred | app/api/ai-suggestions/route.ts:22-44 | with a non-zero total the percentages add up to exactly 100 |
| Suggestions.SortedCategoriesStable | app/api/ai-suggestions/route.ts:38-39 | the categories listed with any one amount appear in the order their first expense appears |
| Suggestions.Recent | app/api/ai-suggestions/route.ts:68-70 | at most five expenses, the newest first: entry i is the i-th from the end |
| Suggestions.Prompt | app/api/ai-suggestions/route.ts:47-89 | the request's currency symbol; total and count of all expenses; the first (at most) three sorted categories, none smaller than one left out; the five newest expenses, newest first |
| Suggestions.AssignIds | app/api/ai-suggestions/route.ts:145-148 | the ids are 1, 2, 3, … whatever the model sent; titles and descriptions are kept |
| Suggestions.AssignIdsDistinct | app/api/ai-suggestions/route.ts:145-148 | the assigned ids are positive and strictly increasing |
| Suggestions.HandleReply | app/api/ai-suggestions/route.ts:119-165 | a failed status gives that status with the upstream message; a missing candidate or an unreadable body gives 500; a non-string text or a failed parse gives 500 with the parse message; otherwise the parsed suggestions are numbered |
| Suggestions.Post | app/api/ai-suggestions/route.ts:3-165 | an unreadable body gives 500; no key gives 400 before the expenses are checked; missing, non-array or empty expenses give 400; a `null` item gives 500 from the outer catch; otherwise the model is asked with the prompt data, whose symbol reads "undefined" when the request sends none |
| Suggestions.RejectedWithoutUpstream | app/api/ai-suggestions/route.ts:5-25 | a request failing validation, or holding a `null` item, gets the same error, 400 or 500, whatever the model or parser would do |
| Suggestions.ReplyShapes | app/api/ai-suggestions/route.ts:119-165 | handling the model's reply yields either suggestions numbered from 1 or an error with one of the known messages |
| Suggestions.ResponseShapes | app/api/ai-suggestions/route.ts:3-165 | every error carries one of the five messages, and returned suggestions are numbered from 1 |
| Extraction.ArrayMatch | app/api/ai-suggestions/route.ts:137 | a match starts with '[' and ends with ']' |
| Extraction.ArrayMatchIsLeftmostLongest | app/api/ai-suggestions/route.ts:137 | there is a match exactly when some '[' precedes some ']'; it starts at the leftmost possible start and ends at the rightmost possible end |
| Extraction.JsonText | app/api/ai-suggestions/route.ts:137-142 | the text handed to `JSON.parse` is always a stretch of the reply; it is bracketed when some '[' precedes some ']' and is the whole reply otherwise |
| Extraction.NoMatchParsesWholeText | app/api/ai-suggestions/route.ts:137-142 | without a '[' before a ']' the whole reply is handed to the parser |
| Extraction.ExtractsFromProse | app/api/ai-suggestions/route.ts:137-142 | prose without brackets around an array is cut away and the array, nested brackets included, is kept whole |
| Text.Trim | components/add-expense-dialog.tsx:75 | the trimmed string is a slice of the input with no white space at either end |
| Text.TrimEmptyIffBlank | components/add-expense-dialog.tsx:75 | the trimmed name is empty exactly when every character is white space |
| Text.TrimIdempotent | components/add-expense-dialog.tsx:92 | trimming a trimmed name changes nothing |
| Text.Includes | components/expense-list.tsx:42-44 | true exactly when the needle occurs at some position of the haystack |
| Text.LabelDayRoundTrip | components/expense-bar-chart.tsx:26-37 | `parseInt` of the second word of "Day n" gives back n |
| ExpenseForm.Validate | components/add-expense-dialog.tsx:64-81 | each error flag is set exactly when its field fails its check: amount empty, not a number or not positive; no category; a blank name; an empty date |
| ExpenseForm.Submit | components/add-expense-dialog.tsx:64-102 | with errors, the flags are shown, the input stays and nothing is emitted; an expense is emitted exactly when there are no errors and the date parses; with no errors and a date that does not parse the dialog, flags included, stays as it was; it then has a positive amount, the trimmed non-empty name, the category, the parsed date and the edited or a fresh id, and the form is reset |
| ExpenseForm.Change | components/add-expense-dialog.tsx:122-218 | the four change handlers (name at 122-125, amount at 155-158, category at 179-182, date at 215-218): editing a field replaces its value and clears only its error; the other fields and errors are unchanged |
| ExpenseForm.Open | components/add-expense-dialog.tsx:55-62 | opening on an expense fills the fields from it and keeps the errors |
| ExpenseForm.OpenThenSubmitRoundTrip | components/add-expense-dialog.tsx:55-94 | saving an opened valid expense without changes emits that same expense |
| ExpenseForm.ResetFormIsRejected | components/add-expense-dialog.tsx:96-101 | after a successful submit, submitting the reset form again emits nothing |
| ExpenseList.CategoryOptions | components/expense-list.tsx:36-39 | "all" first, then each category that occurs, once, in first-seen order |
| ExpenseList.CategoryOptionsDistinct | components/expense-list.tsx:36-39 | the options are duplicate-free exactly when no expense is filed under "all" |
| ExpenseList.Visible | components/expense-list.tsx:41-48 | a subsequence holding exactly the expenses whose lower-cased name contains the lower-cased term and whose category matches the filter, each with all its copies |
| ExpenseList.VisibleInitially | components/expense-list.tsx:32-48 | with no term and "all", every expense is shown |
| ExpenseList.VisibleIgnoresCase | components/expense-list.tsx:42-44 | a lower-cased term shows the same rows as the term itself |
| ExpenseList.SearchNarrows | components/expense-list.tsx:42-44 | extending the term never brings a row back |
| ExpenseList.CategoryRowsTotal | components/expense-list.tsx:45-46 | filtering by one category lists expenses whose amounts add up to that category's sum |
| ExpenseList.CategoryColor | components/expense-list.tsx:59-78 | a listed category gets its colour and any other gets gray |
| ExpenseList.DialogCategoryColors | components/expense-list.tsx:59-78 | every category the dialog offers has a colour except "General", which falls back to the gray of "Other" |
| Charts.CategoryData | components/expense-bar-chart.tsx:44-56 | one bar per category, named in first-seen order, each holding its category's sum |
| Charts.CategoryDataTotal | components/expense-pie-chart.tsx:32-44 | the category bars or slices add up to the total |
| Charts.DailyData | components/expense-bar-chart.tsx:20-41 | one bar per day with expenses, labelled "Day n", days strictly increasing, each holding that day's sum |
| Charts.DailyDataTotal | components/expense-bar-chart.tsx:20-41 | the daily bars add up to the total |
| Charts.DailyDataCovers | components/expense-bar-chart.tsx:20-33 | there is a bar for day d exactly when some expense falls on day d |
| Charts.SortDaysAscending | components/expense-bar-chart.tsx:35-39 | with one group per day, the sorted bars' days strictly increase |
| Charts.BarChart | components/expense-bar-chart.tsx:11-57 | no bars without expenses, otherwise daily or category bars by mode; the bars add up to the total |
| Charts.PieChart | components/expense-pie-chart.tsx:24-46 | the slices are the bar chart's category bars and add up to the total |
| Charts.ChartEmptyIffNoExpenses | components/expense-bar-chart.tsx:11-57 | either chart is empty exactly when there are no expenses |
| Charts.SliceColor | components/expense-pie-chart.tsx:91-93 | every slice colour comes from the palette |
| Charts.SliceColorPeriodic | components/expense-pie-chart.tsx:91-93 | the colours repeat every ten slices |
| Charts.SliceColorsWithinTen | components/expense-pie-chart.tsx:11-22 | among the first ten slices only the first and the tenth share a colour |

## Left out

- Rendering, animation, routing and the redirect to setup are left out. Only the values the page computes are modelled.
- Reading and writing `localStorage` is left out. `Dashboard.Load` takes the three stored values as options, already parsed.
- The setup screen's seeding of the stored values is left out. Only its list of currencies is used, to compare symbol tables.
- The request to the model's HTTP endpoint and the prompt's fixed wording are the `upstream` parameter. The model keeps only the data the prompt is built from.
- `Suggestions.Prompt`: amounts rendered with `toFixed(2)` and percentages with `toFixed(1)` are not modelled; the data is kept exact.
- `JSON.parse` of the extracted text is the `parse` parameter. It yields `None` for text that does not parse and for a parsed value that is not an array, on which `.map` throws and the route answers 500 "Failed to parse AI suggestions". The route does not check the array's items: it spreads each one and adds an id.
- `Suggestions.HandleReply`: each parsed item is represented by a `Suggestion` with a title and a description. Items of another shape, such as numbers, strings or objects without those fields, are returned by the route unchanged apart from the id; the model does not represent them.
- `Suggestions.HandleReply`: which parts of an upstream body can be read is abstracted into four cases. A body that is not JSON yields 500, which is what the outer catch does.
- The finance-advice route and the components that poll both routes are left out. They are outside the modelled core.
- `Suggestions.Post`: an array item is either an expense record or `null`/`undefined`; the latter makes the totals throw and the route answer 500. Items that are objects with a missing or non-numeric `amount`, or numbers and strings, do not throw in the route; they would make the total NaN and are not modelled.
- Floating-point amounts are modelled as integer cents. JavaScript's rounding in sums is not modelled.
- `Suggestions.PercentOf`: NaN and the infinities are one `NonFinite` value; which of them arises is not distinguished.
- Date parsing, time zones and `toISOString` are the `parseDate` parameter. The month filter and the day grouping read the stored triple.
- `changeMonth` is left out. It needs `Date` month arithmetic, and the model takes the selected year and month as inputs.
- `Text.Lower`: only ASCII letters are lower-cased. `toLowerCase` also folds other scripts, which the search would then match.
- `Grouping.GroupBy`: keys are enumerated in first-seen order. `Object.entries` and `Object.values` list integer-like keys first, in ascending order, so a category named like "2024" would be listed earlier in the browser. For the day chart this has no effect, because the bars are sorted by day.
- `Charts.CategoryData`: same key-order simplification as `Grouping.GroupBy`.
- Category names that clash with `Object.prototype` members (such as "constructor") are not modelled. Every category is treated as a fresh key.
- `Charts.DailyData`: the `parseInt` fallback for a label that does not read back is modelled as day 0. It is never taken, because every label is "Day n".
- The pie chart's Recharts percentage label is left out. It is computed inside the charting library.

## Findings

| source | as written | input that shows it | evidently intended | confidence | as-written member | corrected member |
|---|---|---|---|---|---|---|
| app/dashboard/page.tsx:132-142 | the dashboard's symbol table lacks CAD, AUD, INR and CNY, which the setup screen offers, so those users see "฿" | currency "CAD" | the symbol the setup screen showed ("$" for CAD) | not executed | Currency.DashboardMissesSetupCurrency | Currency.DashboardSymbol |
| app/dashboard/page.tsx:229-238 | the "Monthly Overview" card sums and counts every expense, not the selected month's | one 5.00 expense in January and one 2.00 expense in February, January selected: it shows 7.00 and 2 transactions | 5.00 and 1 transaction | not executed | Dashboard.MonthlyOverviewCountsOtherMonths | Dashboard.MonthlyOverview |
