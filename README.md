# Finance tracker: verified model of the list computations

A browser finance tracker that keeps two lists in its home page state: transactions and budgets.

- Each transaction has an id, a type (income or expense), an amount, a category, a description and a date.
- Each budget has an id, a category, an amount and a monthly or yearly period.

This project models the computations the components run over those lists, and proves what they promise:

- the dashboard's income/expense/balance totals, its per-category expense breakdown, its six-month trend and its five most recent transactions (`Dashboard.tsx`);
- each budget's spent amount, remaining amount, percentage and over-budget flag, and the budget form (`BudgetTracker.tsx`);
- the transaction list's type filter and its descending sort by date or amount (`TransactionList.tsx`);
- the page's add and delete handlers for both lists (`page.tsx`);
- the transaction entry form (`TransactionForm.tsx`).

Modules follow those files: `Dashboard`, `BudgetTracker`, `TransactionList`, `Page` and `TransactionForm`. Four modules sit beside them:

- `Types` holds the record shapes and the two category lists of `index.ts`.
- `Ledger` holds the shared sums and type filters.
- `Seqs` holds first-seen de-duplication, which is the insertion order of a JavaScript `Map`.
- `Strings` holds decimal text, `padStart` and lexicographic order.

How the model represents the source:

- Amounts are integers (cents). A date is a `(year, month, day)` triple taken from the `YYYY-MM-DD` text.
- Where the source reads the clock, the model takes today's date as a parameter. Where it calls `Date.now()` for an id, the model takes the id as a parameter. `parseFloat` is a function parameter.
- Each `Map` filled by a `forEach` is a key sequence in insertion order beside a Dafny `map`. Each `forEach` body is a method proved to preserve an invariant that relates the map to the transactions seen so far.
- The list's `.sort` is an in-place stable insertion sort on a fresh array. It is proved equal to a functional sort, and that function is proved sorted, a permutation, and order-preserving among equal keys.
- The two forms and the list's view state are classes whose fields the handlers update.

## Model

| member | source | states |
|---|---|---|
| Ledger.OfType | Dashboard.tsx:17 | the filter keeps exactly the transactions of the given type, each of that type, and never lengthens the list; Ledger.OfTypeAppend and Ledger.OfTypeCounts prove it keeps their order and their number |
| Ledger.OfTypeAppend | Dashboard.tsx:17 | filtering a concatenation filters each part, so the kept transactions stay in input order |
| Ledger.OfTypeCounts | Dashboard.tsx:17 | each transaction of the type is kept as many times as the input has it, and every other transaction is dropped |
| Ledger.SumAmountsAppend | Dashboard.tsx:18 | the amount sum of a concatenation is the sum of the parts' sums |
| Ledger.SumAmountsSnoc | Dashboard.tsx:18 | one more transaction adds its amount to the sum |
| Ledger.TotalOfAppend | Dashboard.tsx:16-22 | a per-type total is additive over concatenation |
| Ledger.Reduce | Dashboard.tsx:18 | definition, without a contract of its own: the left fold `reduce((sum, t) => sum + t.amount, acc)`; Ledger.ReduceIsSum proves it is `acc` plus the amounts' sum |
| Ledger.ReduceIsSum | Dashboard.tsx:18 | `reduce((sum, t) => sum + t.amount, acc)` is `acc` plus the sum of the amounts |
| Ledger.FilterThenSum | Dashboard.tsx:16-22 | summing the filtered list gives the per-type total |
| Ledger.TotalsPartition | Dashboard.tsx:16-22 | the income total plus the expense total is the sum of all amounts |
| Dashboard.ComputeStats | Dashboard.tsx:15-27 | income total is the sum over income transactions, expense total the sum over expenses, balance their difference; an empty list gives zeros |
| Dashboard.StatsAppend | Dashboard.tsx:15-27 | all three stats are additive over concatenation of transaction lists |
| Dashboard.BalanceMayBeNegative | Dashboard.tsx:24 | a single positive expense gives a negative balance |
| Dashboard.Categories | Dashboard.tsx:35 | the category looked up for each expense, position by position |
| Dashboard.CategoryEntries | Dashboard.tsx:39-42 | one `{name, value}` entry per key, in key order, whose value is that category's expense sum |
| Dashboard.AccumulateByCategory | Dashboard.tsx:30-37 | the `forEach` leaves the map's keys as the categories in first-seen order and each value the sum of that category's amounts |
| Dashboard.AddToCategory | Dashboard.tsx:35-36 | one step that reads the current sum (zero when the key is missing) and sets it plus the amount keeps the map equal to the per-category sums of the transactions seen so far |
| Dashboard.ExpensesByCategory | Dashboard.tsx:29-43 | the breakdown has distinct names, each valued by its category's expense sum, and the values add up to the expense total |
| Dashboard.MapEntriesInOrder | Dashboard.tsx:39 | `Array.from(map.entries())` in key order equals the per-category entries |
| Dashboard.EntriesInKeyOrder | Dashboard.tsx:39-42 | definition, without a contract of its own: `Array.from(categoryMap.entries())` mapped to `{name, value}`, keys in insertion order; Dashboard.MapEntriesInOrder proves it is the per-category entries |
| Dashboard.BreakdownShape | Dashboard.tsx:29-43 | names are unique, each value is its category's expense sum, and the values sum to `totalExpenses` |
| Dashboard.BreakdownStep | Dashboard.tsx:35-36 | the map update for one more expense keeps the key order and the sums right |
| Dashboard.SameKeyDomain | Dashboard.tsx:36 | setting an existing key keeps the key set |
| Dashboard.CategorySumsStep | Dashboard.tsx:35-36 | after the update every value is the category sum over the longer list |
| Dashboard.CategoriesSnoc | Dashboard.tsx:34-35 | the categories of a list extended by one are extended by that category |
| Dashboard.CategorySumSnoc | Dashboard.tsx:36 | a category's sum grows by the new amount exactly when the new expense has that category |
| Dashboard.CategorySumAbsent | Dashboard.tsx:35 | a category not yet seen has sum zero, the default the lookup falls back to |
| Dashboard.EntriesBump | Dashboard.tsx:36 | adding one expense raises the entries' total by its amount when its category is already a key |
| Dashboard.EntriesTotal | Dashboard.tsx:30-42 | the breakdown over first-seen keys sums to the sum of all amounts |
| Dashboard.EntriesTotalStep | Dashboard.tsx:34-37 | one `forEach` step keeps the entries' total equal to the amounts' sum |
| Dashboard.EntriesTotalNew | Dashboard.tsx:35-36 | a first-seen category adds an entry worth exactly the new amount |
| Dashboard.EntriesSnoc | Dashboard.tsx:39-42 | one more key adds that category's sum to the total |
| Dashboard.BreakdownTotal | Dashboard.tsx:29-43 | the breakdown's values add up to `totalExpenses` |
| Dashboard.BreakdownCategories | Dashboard.tsx:32-37 | a category appears in the breakdown exactly when some expense has it, so income never contributes |
| Dashboard.CategoriesMembership | Dashboard.tsx:35 | a category occurs among the looked-up categories exactly when some transaction has it |
| Dashboard.BreakdownFirstSeen | Dashboard.tsx:39 | entries appear in the order their categories are first seen among the expenses, which Ledger.OfTypeAppend shows are in input order |
| Dashboard.PaddedMonth | Dashboard.tsx:50 | the padded month is two digits denoting the month |
| Dashboard.DashAfterDigits | Dashboard.tsx:50 | the first dash of a key sits right after the year's digits |
| Dashboard.MonthKey | Dashboard.tsx:50 | definition, without a contract of its own: `String(year)`, a dash, and `String(month)` padded with "0" to two characters; Dashboard.MonthKeyInjective, Dashboard.MonthKeyOrder and Dashboard.PaddedMonth prove what it means |
| Dashboard.MonthKeyInjective | Dashboard.tsx:50 | two dates share a month key exactly when they share year and month |
| Dashboard.MonthKeyOrder | Dashboard.tsx:50-65 | for four-digit years, key order is chronological month order |
| Dashboard.MonthKeys | Dashboard.tsx:49-50 | the key computed for each transaction, position by position |
| Dashboard.BucketsFor | Dashboard.tsx:52-61 | one bucket per key, holding that month's income sum and its non-income sum |
| Dashboard.InsertByMonth | Dashboard.tsx:65 | inserting one bucket lengthens the list by one and adds exactly that bucket |
| Dashboard.InsertByMonthPermutation | Dashboard.tsx:65 | inserting adds exactly one copy of the bucket to the multiset |
| Dashboard.SortByMonth | Dashboard.tsx:64-65 | the sort keeps the length and exactly the same buckets; Dashboard.SortByMonthPermutation proves it a permutation |
| Dashboard.SortByMonthPermutation | Dashboard.tsx:64-65 | the sort is a permutation: the same buckets, each as often as in the input |
| Dashboard.InsertByMonthAscending | Dashboard.tsx:65 | inserting a bucket with a new month into an ascending list keeps it ascending |
| Dashboard.ConsAscending | Dashboard.tsx:65 | a head below every later month extends an ascending list |
| Dashboard.AscendingTail | Dashboard.tsx:65 | the tail of an ascending list is ascending |
| Dashboard.SortByMonthAscending | Dashboard.tsx:64-65 | with distinct months, the sorted buckets are strictly ascending by key |
| Dashboard.TrendOf | Dashboard.tsx:64-72 | the trend has min(6, number of buckets) points: the last ones of the sorted buckets, in order |
| Dashboard.MonthBucketsDistinct | Dashboard.tsx:52-54 | one bucket per month: no month key is repeated |
| Dashboard.MonthBucketsContents | Dashboard.tsx:46-62 | exactly one bucket per month that occurs, none for other months, each with that month's income and expense sums |
| Dashboard.AccumulateByMonth | Dashboard.tsx:46-62 | the `forEach` leaves the keys as the month keys in first-seen order and every bucket holding its month's sums |
| Dashboard.AddToMonth | Dashboard.tsx:49-61 | one step (create the bucket if missing, then add to income or expense) keeps the map equal to the sums so far |
| Dashboard.MonthKeysSnoc | Dashboard.tsx:48-50 | one more transaction adds one key |
| Dashboard.MonthOpenSeen | Dashboard.tsx:52 | an existing bucket is left as it is before the add |
| Dashboard.MonthOpenNew | Dashboard.tsx:52-54 | a missing bucket is created empty and its key appended to the insertion order |
| Dashboard.NewMonthKey | Dashboard.tsx:52-54 | a key not yet in the map is new among the keys so far, and is appended to the first-seen order |
| Dashboard.NewKeyDomain | Dashboard.tsx:53 | setting a new key adds exactly that key |
| Dashboard.MonthInsertEmpty | Dashboard.tsx:53 | an empty bucket for an unseen month is consistent with zero sums |
| Dashboard.MonthAdd | Dashboard.tsx:56-61 | adding the amount to the bucket keeps the whole invariant for the longer list |
| Dashboard.MonthSumsAdd | Dashboard.tsx:57-61 | income goes to `income`, every other type to `expense`, and the sums stay right |
| Dashboard.MonthSumsSnoc | Dashboard.tsx:57-61 | a month's income or expense sum grows by the new amount exactly when the new transaction is of that month and kind |
| Dashboard.MonthlyTrend | Dashboard.tsx:45-73 | the trend equals the trend function of the transactions; it has at most six points, strictly ascending by month, each point (from Dashboard.ToPoint) with `net == income - expense` |
| Dashboard.MapBucketsInOrder | Dashboard.tsx:64 | `Array.from(monthMap.entries())` in key order equals the per-month buckets |
| Dashboard.InKeyOrder | Dashboard.tsx:64 | definition, without a contract of its own: the map's values in insertion order, as `Array.from(monthMap.entries())` reads them; Dashboard.MapBucketsInOrder proves it is the per-month buckets |
| Dashboard.MonthAbsent | Dashboard.tsx:52-54 | a month with no transaction has zero sums: no month is filled in |
| Dashboard.TrendOfPoints | Dashboard.tsx:64-72 | every point comes from one of the buckets |
| Dashboard.SuffixPointsFrom | Dashboard.tsx:66-67 | points taken from a suffix of the sorted buckets come from the buckets |
| Dashboard.TrendOfAscending | Dashboard.tsx:64-66 | the kept points are strictly ascending by month |
| Dashboard.AscendingPair | Dashboard.tsx:65 | in an ascending list any earlier month is below any later one |
| Dashboard.TrendOfDropsSmallest | Dashboard.tsx:66 | a bucket left out of the trend is older than every kept point |
| Dashboard.SuffixDropsSmallest | Dashboard.tsx:66 | a bucket outside a sorted suffix is below every kept point |
| Dashboard.TrendShape | Dashboard.tsx:45-73 | the trend has min(6, number of months) points, strictly ascending; each point, built by Dashboard.ToPoint, carries its month's income and expense sums and `net == income - expense` |
| Dashboard.TrendKeepsNewest | Dashboard.tsx:64-66 | a month that occurs but is not shown is below every shown month |
| Dashboard.TrendDropsOlderMonths | Dashboard.tsx:64-66 | for four-digit years, a month not shown is chronologically older than every shown month |
| Dashboard.Recent | Dashboard.tsx:183 | the recent list is the first min(5, n) transactions, in list order |
| BudgetTracker.InPeriod | BudgetTracker.tsx:30-32 | a date is in period exactly when it has the reference date's year and, for a monthly budget, also its month |
| BudgetTracker.Matching | BudgetTracker.tsx:26-27 | the filter keeps exactly the expenses of the budget's category |
| BudgetTracker.MatchingThenPeriodSum | BudgetTracker.tsx:24-37 | filtering and then summing the in-period amounts gives the budget's spend |
| BudgetTracker.ComputeSpent | BudgetTracker.tsx:24-37 | the accumulator ends equal to the sum of the in-period expenses of the budget's category |
| BudgetTracker.SpentIgnoresIncome | BudgetTracker.tsx:27 | income transactions never count toward a budget |
| BudgetTracker.MonthlyWithinYearly | BudgetTracker.tsx:30-32 | with non-negative amounts, a monthly spend is at most the yearly spend for the same category |
| BudgetTracker.Divide | BudgetTracker.tsx:39 | JavaScript division of two integers: finite exactly when the divisor is non-zero, and then a quotient that multiplied back by the divisor gives the dividend; NaN exactly for 0 / 0; +Infinity exactly for a positive value over zero |
| BudgetTracker.Times100 | BudgetTracker.tsx:39 | `* 100`: NaN and the infinities pass through; a finite ratio stays finite, divided by 100 gives back the ratio, and is at most 100 exactly when the ratio is at most 1 |
| BudgetTracker.Min100 | BudgetTracker.tsx:46 | `Math.min(x, 100)`: NaN exactly for NaN; +Infinity gives 100 and -Infinity stays -Infinity; a finite value gives a finite result at most 100 and at most the value, equal either to the value or to 100 |
| BudgetTracker.PercentageAsWritten | BudgetTracker.tsx:39-46 | the source's own percentage: NaN exactly for 0 spent of a 0 budget; finite and at most 100 for a non-zero budget; 100 for a positive spend of a 0 budget and -Infinity for a negative one |
| BudgetTracker.ZeroBudgetPercentageIsNaN | BudgetTracker.tsx:39-46 | as written, a zero budget with nothing spent has percentage NaN |
| BudgetTracker.Percentage | BudgetTracker.tsx:39-46 | the intended percentage: at most 100; non-negative for non-negative inputs; 100 or 0 for a zero budget |
| BudgetTracker.PercentageAgrees | BudgetTracker.tsx:39-46 | the intended percentage equals the written one wherever that one is finite, which is every input except a zero budget with no positive spend |
| BudgetTracker.PercentageFull | BudgetTracker.tsx:46 | for a positive budget, spending at least the budget gives percentage exactly 100 |
| BudgetTracker.ProgressOf | BudgetTracker.tsx:39-48 | keeps id, category, amount and period; `remaining == max(amount - spent, 0)`; percentage at most 100; over budget exactly when `spent > amount` |
| BudgetTracker.ExactSpendIsNotOver | BudgetTracker.tsx:45-47 | for a positive budget, spending exactly the budget is not over, leaves nothing and shows 100 |
| BudgetTracker.OverBudgetIsFull | BudgetTracker.tsx:45-47 | for a positive budget, an over-budget entry has nothing remaining and percentage 100 |
| BudgetTracker.ComputeBudgetProgress | BudgetTracker.tsx:18-50 | one entry per budget in the same order, each that budget's progress for its in-period spend |
| BudgetTracker.BudgetForm.constructor | BudgetTracker.tsx:14-16 | the form starts with empty category and amount and a monthly period |
| BudgetTracker.BudgetForm.SetCategory | BudgetTracker.tsx:86 | changes only the category |
| BudgetTracker.BudgetForm.SetAmount | BudgetTracker.tsx:108 | changes only the amount text |
| BudgetTracker.BudgetForm.SetPeriod | BudgetTracker.tsx:124 | changes only the period |
| BudgetTracker.BudgetForm.Submit | BudgetTracker.tsx:52-69 | an empty category or amount emits nothing and changes nothing; otherwise it emits {category, parsed amount, period}, clears category and amount and keeps the period |
| BudgetTracker.ZeroBudgetAccepted | BudgetTracker.tsx:55-64 | the amount text "0" passes the check, so a zero budget is emitted and its percentage is NaN |
| TransactionList.FilterTransactions | TransactionList.tsx:16 | `all` keeps the list as it is; a type keeps exactly the transactions of that type, each as many times as the input has it, every kept one of that type; never longer than the input |
| TransactionList.DateKey | TransactionList.tsx:19 | definition, without a contract of its own: a date as the number `year * 10000 + month * 100 + day`, standing for `getTime()`; TransactionList.DateKeyOrder proves it orders valid dates like their time values |
| TransactionList.Key | TransactionList.tsx:18-21 | definition, without a contract of its own: the number the comparator subtracts, the date's for `date` and the amount for `amount`; `b.key - a.key` sorts by it descending, as TransactionList.SortDescSorted proves |
| TransactionList.DateKeyOrder | TransactionList.tsx:19 | the comparator's date number orders valid dates chronologically |
| TransactionList.InsertDesc | TransactionList.tsx:17-22 | inserting lengthens the list by one |
| TransactionList.SortDesc | TransactionList.tsx:17-22 | the sort keeps the length |
| TransactionList.InsertDescPermutation | TransactionList.tsx:17-22 | insertion adds exactly the one element to the multiset |
| TransactionList.InsertDescSorted | TransactionList.tsx:17-22 | inserting into a descending list keeps it descending |
| TransactionList.InsertDescBelow | TransactionList.tsx:17-22 | inserting an element with key at most k into a list bounded by k keeps that bound |
| TransactionList.ConsSorted | TransactionList.tsx:17-22 | a head with the largest key extends a descending list |
| TransactionList.SortDescPermutation | TransactionList.tsx:15-22 | the sorted view is a permutation of the filtered list |
| TransactionList.SortDescSorted | TransactionList.tsx:18-21 | the sorted view is non-increasing by the chosen key |
| TransactionList.WithKeyAppend | TransactionList.tsx:17 | the elements with one key in a concatenation are those of each part in turn |
| TransactionList.WithKeyOne | TransactionList.tsx:17 | a single element has the given key or contributes nothing |
| TransactionList.WithKeyNone | TransactionList.tsx:17 | a list whose keys are all below v has no element with key v |
| TransactionList.InsertKeepsGroups | TransactionList.tsx:17-22 | insertion puts the new element after the existing ones with the same key |
| TransactionList.GroupsBehindHead | TransactionList.tsx:17-22 | inserting behind a head with a key at least x's keeps the same-key order |
| TransactionList.GroupsInFront | TransactionList.tsx:17-22 | inserting in front of smaller keys keeps the same-key order |
| TransactionList.NoneAboveHead | TransactionList.tsx:17-22 | in a descending list with head below v, no element has key v |
| TransactionList.SortedTail | TransactionList.tsx:17-22 | the tail of a descending list is descending |
| TransactionList.SortDescStable | TransactionList.tsx:15-17 | ties keep their input order, which is the stability the standard requires of `Array.prototype.sort` |
| TransactionList.InsertAt | TransactionList.tsx:17-22 | insertion places the element at the first position whose key is below its own |
| TransactionList.InsertAtLater | TransactionList.tsx:17-22 | the same with that position after the head |
| TransactionList.SplitAfterHead | TransactionList.tsx:17-22 | splitting at j > 0 is the head followed by the tail split at j - 1 |
| TransactionList.SortInPlace | TransactionList.tsx:17-22 | the in-place sort leaves the array equal to the functional stable descending sort of its old contents |
| TransactionList.ShiftInto | TransactionList.tsx:17-22 | one pass inserts `a[i]` into the sorted prefix and leaves the rest untouched |
| TransactionList.OpenGap | TransactionList.tsx:17-22 | elements with a smaller key than `a[i]` move one place right, opening a gap above the first element whose key is at least `a[i]`'s |
| TransactionList.GapFilled | TransactionList.tsx:17-22 | the shifted prefix with the element written into the gap is the insertion |
| TransactionList.InsertionPoint | TransactionList.tsx:17-22 | every element before the gap has a key at least the inserted one's |
| TransactionList.FilteredTransactions | TransactionList.tsx:15-22 | the view is the filtered list, copied into a fresh array and sorted there |
| TransactionList.ViewShape | TransactionList.tsx:15-22 | the view is a permutation of the filtered list, non-increasing by key, with ties in the filtered order, which TransactionList.FilteredTies ties back to the input order |
| TransactionList.FilteredTies | TransactionList.tsx:15-22 | under a type filter, the transactions sharing a key appear in the order they have in the input |
| TransactionList.ViewAll | TransactionList.tsx:16 | with filter `all` the view keeps the count and every transaction |
| TransactionList.ViewOnly | TransactionList.tsx:16 | with a type filter the view holds exactly the transactions of that type |
| TransactionList.ListView.constructor | TransactionList.tsx:12-13 | the view opens with filter `all` and sort `date` |
| TransactionList.ListView.SetFilter | TransactionList.tsx:31 | changes only the filter |
| TransactionList.ListView.SetSortBy | TransactionList.tsx:40 | changes only the sort order |
| TransactionList.ListView.Shown | TransactionList.tsx:15-22 | what is shown is the sorted filtered list for the current state |
| Page.WithoutId | page.tsx:47 | the filter keeps exactly the records whose id differs, never lengthening the list |
| Page.WithoutIdAppend | page.tsx:47 | deletion works part by part, so the kept records stay in order |
| Page.WithoutIdOne | page.tsx:47 | one record is dropped exactly when it has the id |
| Page.WithoutAbsentId | page.tsx:47 | deleting an id that is not present changes nothing |
| Page.WithoutIdIdempotent | page.tsx:47 | deleting twice is deleting once |
| Page.TransactionsAfterAdd | page.tsx:43 | definition, without a contract of its own: `[newTransaction, ...transactions]`; Page.AddTransactionShape proves its shape |
| Page.TransactionsAfterDelete | page.tsx:47 | definition, without a contract of its own: `transactions.filter(t => t.id !== id)`; Page.DeleteTransactionShape proves what it keeps |
| Page.BudgetsAfterAdd | page.tsx:55 | definition, without a contract of its own: `[newBudget, ...budgets]`; Page.AddBudgetShape proves its shape |
| Page.BudgetsAfterDelete | page.tsx:59 | definition, without a contract of its own: `budgets.filter(b => b.id !== id)`; Page.DeleteBudgetShape proves what it keeps |
| Page.AddTransactionShape | page.tsx:38-44 | one record longer; the head, built by Page.NewTransaction, carries the new id and exactly the draft's type, amount, category, description and date; the tail is the old list |
| Page.DeleteTransactionShape | page.tsx:46-48 | keeps exactly the records with another id, in their order |
| Page.AddThenDeleteTransaction | page.tsx:38-48 | add then delete with an id not already present restores the list |
| Page.AddThenDeleteRepeatedId | page.tsx:38-48 | with an id already present, add then delete loses the older record too |
| Page.AddBudgetShape | page.tsx:50-56 | one budget longer; the head, built by Page.NewBudget, carries the new id and exactly the draft's category, amount and period; the tail is the old list |
| Page.DeleteBudgetShape | page.tsx:58-60 | the same shape for deleting budgets |
| Page.AddThenDeleteBudget | page.tsx:50-60 | add then delete of a budget with a fresh id restores the list |
| Page.Home.constructor | page.tsx:11-12 | both lists start empty |
| Page.Home.AddTransaction | page.tsx:38-44 | the transaction list becomes the prepended list; the budget list is unchanged |
| Page.Home.DeleteTransaction | page.tsx:46-48 | the transaction list loses the records with the id; the budget list is unchanged |
| Page.Home.AddBudget | page.tsx:50-56 | the budget list becomes the prepended list; the transaction list is unchanged |
| Page.Home.DeleteBudget | page.tsx:58-60 | the budget list loses the records with the id; the transaction list is unchanged |
| TransactionForm.CategoriesFor | TransactionForm.tsx:17 | "Other" is always offered; "Salary" exactly for income; "Food & Dining" exactly for expense |
| TransactionForm.SharedCategory | TransactionForm.tsx:17 | the two vocabularies share only "Other" |
| TransactionForm.Incomplete | TransactionForm.tsx:22 | definition, without a contract of its own: `!amount ∨ !category ∨ !description`, where `!` on a text holds exactly for the empty text; Form.Submit refuses exactly then |
| TransactionForm.Form.constructor | TransactionForm.tsx:11-15 | a fresh form is an expense with empty texts and today's date |
| TransactionForm.Form.SelectExpense | TransactionForm.tsx:51 | only the type changes, to expense |
| TransactionForm.Form.SelectIncome | TransactionForm.tsx:62 | only the type changes, to income |
| TransactionForm.Form.SetAmount | TransactionForm.tsx:84 | changes only the amount text |
| TransactionForm.Form.SetCategory | TransactionForm.tsx:101 | changes only the category |
| TransactionForm.Form.SetDescription | TransactionForm.tsx:122 | changes only the description |
| TransactionForm.Form.SetDate | TransactionForm.tsx:137 | changes only the date |
| TransactionForm.Form.Submit | TransactionForm.tsx:19-40 | an empty amount, category or description emits nothing and changes nothing; otherwise it emits one draft with the current type, parsed amount, category, description and date, clears the three texts, resets the date to today and keeps the type |
| TransactionForm.ToggleKeepsForeignCategory | TransactionForm.tsx:51-62 | an expense category chosen before switching to income is kept, though the income list does not offer it |
| Seqs.Dedup | Dashboard.tsx:36 | the keys of a `Map` filled in order: distinct, the same members, no longer than the input |
| Seqs.DedupFirstSeenOrder | Dashboard.tsx:39 | the keys come in the order of their first occurrence |
| Seqs.DedupSnoc | Dashboard.tsx:36 | setting a key appends it exactly when it is new |
| Strings.DecimalRoundTrip | Dashboard.tsx:50 | `String(n)` is all digits and denotes n |
| Strings.Decimal | Dashboard.tsx:50 | definition, without a contract of its own: `String(n)` for a natural number, digits without leading zeros; Strings.DecimalDigits, Strings.DecimalRoundTrip and Strings.DecimalInjective prove what it means |
| Strings.DecimalDigits | Dashboard.tsx:50 | `String(n)` is at least one character and all digits |
| Strings.DecimalInjective | Dashboard.tsx:50 | distinct numbers have distinct decimal texts |
| Strings.DecimalLength | Dashboard.tsx:50 | a number with k digits has a k-character text |
| Strings.Repeat | Dashboard.tsx:50 | the padding is n copies of the fill character |
| Strings.PadStart | Dashboard.tsx:50 | definition, without a contract of its own: `padStart(width, fill)`, the fill repeated in front up to the width, the text unchanged when already that wide; Dashboard.PaddedMonth proves the month part is two digits denoting the month |
| Strings.StrLess | Dashboard.tsx:65 | definition, without a contract of its own: lexicographic order on characters, the model of `localeCompare` on month keys; the StrLess lemmas prove it a strict total order |
| Strings.StrLessIrreflexive | Dashboard.tsx:65 | no key sorts before itself |
| Strings.StrLessTransitive | Dashboard.tsx:65 | the key order is transitive |
| Strings.StrLessTotal | Dashboard.tsx:65 | any two distinct keys are ordered one way |
| Strings.StrLessConcat | Dashboard.tsx:65 | over equal-length prefixes, order is the prefix order and then the rest's |
| Strings.DigitsOrder | Dashboard.tsx:50-65 | equal-length digit strings compare as the numbers they denote |

## Left out

- Rendering: the JSX, styling and charts, including the colours chosen for budget bars, carry no checkable logic.
- Persistence: the `localStorage` load and save effects and the JSON encoding in `page.tsx` (lines 16-36) are I/O. The model's page starts with both lists empty, the state when nothing was saved.
- Dialogs: `alert` and `confirm` are browser calls. A rejected submit is modelled as "nothing emitted, nothing changed"; the delete confirmation is outside the model.
- Wall clock and ids: `new Date()` and `Date.now()` become a `today` parameter and an `id` parameter. Nothing in the model makes ids unique, which is why the add-then-delete lemma asks for a fresh id.
- JavaScript `Date` parsing and time zones: a date is taken as already split into year, month and day. The source parses `YYYY-MM-DD` as UTC and reads the month in local time, so a month can shift in zones west of UTC; the model does not capture that shift. Invalid dates are not modelled: in the source they make the comparator return NaN, give the month key "NaN-NaN" and are never in a budget's period, while a model `Date` outside `ValidDate` still yields a comparator number, a key such as "2024-13" and a period test on its fields. An empty date text is not representable.
- Floating point: amounts are integers (cents) rather than doubles, so rounding is absent. `parseFloat` is an uninterpreted function parameter, and the form's `min`/`step` input hints are not modelled. Only BudgetTracker.PercentageAsWritten keeps JavaScript's NaN and infinities; the progress records do not.
- Dashboard.MonthKeyOrder: key order agrees with chronology only for four-digit years. Shorter years are outside the lemma because `String(year)` is not padded.
- `localeCompare` on month keys is read as plain lexicographic order on the characters.
- `useMemo` caching has no effect on the values and is not modelled.
- Dashboard.AddToMonth: the source mutates the bucket object in place. The model replaces the map entry with an updated bucket value, which gives the same contents since no other reference to the bucket exists.
- Dashboard.TrendOf: the `.slice(-6)` and the `.map` are fused into one comprehension over the sorted buckets.
- BudgetTracker.Percentage, BudgetTracker.ProgressOf, BudgetTracker.ComputeBudgetProgress: the progress records use the corrected percentage. For a zero budget the record's percentage is 0 with nothing spent (the source gives NaN), 0 with a negative spend (the source gives -Infinity), and 100 with a positive spend (as the source). The source's own value, NaN and infinities included, is BudgetTracker.PercentageAsWritten (see Findings).
- TransactionList.SortInPlace: the engine's actual sorting algorithm is not specified by the language; the model uses an insertion sort, which is stable like the standard requires, so the result is the same.

## Findings

| source | as written | input that shows it | evidently intended | confidence | as-written member | corrected member |
|---|---|---|---|---|---|---|
| BudgetTracker.tsx:39-46 | `percentage` is `Math.min((spent / amount) * 100, 100)`. The form accepts the amount text "0" because only empty text is refused, so a zero budget divides by zero | a budget with amount "0" and no matching expense: 0 / 0 is NaN, and `Math.min(NaN, 100)` is NaN | a finite percentage: 0 with nothing spent, 100 once anything is spent | medium, not executed | BudgetTracker.ZeroBudgetAccepted | BudgetTracker.PercentageAgrees |
