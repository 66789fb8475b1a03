# Expense tracker: transaction ledger and budget aggregation

A Dafny model of the logic inside the single-screen Flutter expense tracker
(`ExpenseTrackerApp.java`, which is Dart source despite its extension). The
home screen owns a list of transactions that only grows at the end. The form
appends a transaction when its input passes a guard. On every build the screen
recomputes four things from the list:

- the total spent;
- the transactions of the last seven days;
- the spend of each category;
- for each category, whether its spend is strictly above its monthly budget,
  and by how much.

Modules:

- `Wrappers` (`wrappers.dfy`): `Option`, standing for Dart's nullable values:
  the dropdown selection, the result of `double.tryParse` and the overspend
  label. The `?? 0` reads of the two maps are `Aggregation.Lookup`.
- `Expenses` (`expenses.dfy`): the `Transaction` record with its five final
  fields (ExpenseTrackerApp.java:160-174), the constants `Categories` and
  `Budgets` holding the category list and the budget table
  (ExpenseTrackerApp.java:28-43), and the seven-day window `WeekMicros`
  (ExpenseTrackerApp.java:62).
- `Aggregation` (`aggregation.dfy`): the aggregations as functions, with lemmas.
  The total, the per-category spend and the set of categories present are left
  folds, in the order the source's `fold` and `forEach` visit the list. The
  recent filter scans from the front, as `where` does.
- `Summaries` (`summaries.dfy`): the per-category `forEach` loop as a method
  proved against `CategorySum`, and the rows of the two summary panels.
- `Tracker` (`tracker.dfy`): the `Ledger` class with its in-place `Add`, and
  the form's submission guard.

Amounts are `real`. Dates are `int` microseconds since the epoch, the
resolution of a Dart `DateTime`, so `Duration(days: 7)` is
604 800 000 000. The clock is never read. The time used by the recent filter
is a parameter `now`. The transaction id, which the source takes from the
clock, is a parameter `id` of `Add`. `double.tryParse` is a parameter
`parse: string -> Option<real>`.

The code is more permissive than its data rules suggest; the model follows the
code:

- `_addTransaction` validates nothing. A negative amount passes the form
  (`double.tryParse("-5")` succeeds). A category outside the list would be
  stored as given. Membership holds only because the dropdown offers the
  category list and nothing else.
- The per-category map has keys only for categories that occur in the
  transactions. A listed category with no transactions has no entry and is
  read as 0 through `?? 0`. It does not get an explicit zero entry.
- Transaction ids come from the clock and are not guaranteed unique. No
  uniqueness is claimed.

## Model

| member | source | states |
|---|---|---|
| `Expenses.ConfigurationConsistent` | ExpenseTrackerApp.java:28-43 | the category list has no duplicates, the budget table has an entry for exactly the listed categories, and every budget is non-negative |
| `Aggregation.TotalSpentAppend` | ExpenseTrackerApp.java:59 | the total of the empty list is 0, and appending a transaction adds exactly its amount to the total |
| `Aggregation.TotalSpentConcat` | ExpenseTrackerApp.java:59 | the total of a concatenation is the sum of the two totals |
| `Aggregation.TotalSpent` | ExpenseTrackerApp.java:59 | the left fold of the amounts from 0; when no amount is negative (a premise the code does not enforce) the total is non-negative and no single amount exceeds it |
| `Aggregation.Recent` | ExpenseTrackerApp.java:61-63 | the transactions kept by `where` with `IsRecent` (date strictly after now minus seven days); the result is no longer than the ledger and each of its elements is a ledger transaction that is recent |
| `Aggregation.RecentMembers` | ExpenseTrackerApp.java:61-63 | a transaction is in the recent list iff it is in the ledger and dated strictly after now minus seven days |
| `Aggregation.RecentIsSubsequence` | ExpenseTrackerApp.java:61-63 | the recent list is an order-preserving subsequence of the ledger |
| `Aggregation.RecentAppend` | ExpenseTrackerApp.java:61-63 | the recent list of the empty ledger is empty; appending a transaction appends it to the recent list iff it is recent, and otherwise leaves the list unchanged, which fixes the recent list of every ledger |
| `Aggregation.RecentBoundary` | ExpenseTrackerApp.java:62 | a transaction dated exactly seven days before now is excluded; one dated a microsecond later is included |
| `Aggregation.CategorySum` | ExpenseTrackerApp.java:323-327 | the spend of one category: its transactions' amounts added in ledger order; 0 for a category that never occurs; with no negative amount, between 0 and the total spent |
| `Aggregation.CategoriesOf` | ExpenseTrackerApp.java:323-327 | the key set the per-category map acquires; every transaction's category is in it |
| `Aggregation.Lookup` | ExpenseTrackerApp.java:359-360 | `m[c] ?? 0`: the entry when the key is present, 0 otherwise; used for the spend (lines 326, 334, 360) and for the budget (line 359) |
| `Aggregation.CategoriesOfMembers` | ExpenseTrackerApp.java:325-327 | a category is a key of the per-category map iff some transaction carries it |
| `Aggregation.CategoryTotalsAppend` | ExpenseTrackerApp.java:325-327 | appending a transaction raises the summed spends of a duplicate-free category list by its amount iff its category is listed |
| `Aggregation.CategoryTotalsMatchTotal` | ExpenseTrackerApp.java:323-327 | when every transaction's category is in a duplicate-free list, the spends of the listed categories add up to the total spent |
| `Aggregation.RegistryTotalsMatchTotal` | ExpenseTrackerApp.java:217-222 | for a ledger whose categories all come from the dropdown's category list, the per-category spends over that list add up to the total spent |
| `Aggregation.Overspend` | ExpenseTrackerApp.java:365-370 | overspend is reported iff spend is strictly above budget, and then its magnitude is positive and equals spend minus budget; spend equal to budget is not reported |
| `Summaries.TallyByCategory` | ExpenseTrackerApp.java:323-327 | after the loop the map's keys are exactly the categories present, each entry is that category's spend, and a lookup with default 0 gives every category's spend |
| `Summaries.TallyDeterministic` | ExpenseTrackerApp.java:350-354 | the per-category map is determined by the transactions, so the duplicated loop in the budget summary builds the same map as the one in the expense summary |
| `Summaries.ExpenseSummaryRows` | ExpenseTrackerApp.java:329-337 | one row per listed category, in list order, showing that category's spend, 0 for a category with no transactions |
| `Summaries.BudgetSummaryRows` | ExpenseTrackerApp.java:356-373 | one row per listed category with its budget (0 when missing), its spend (0 when missing), and an overspend flag present iff spend is above budget, then equal to the excess |
| `Summaries.WorkedLedgerSpends` | ExpenseTrackerApp.java:59 | for a four-transaction ledger the fold gives total 1405, Food 1100, Transport 300, Miscellaneous 5 and Shopping 0 |
| `Summaries.WorkedLedgerAddsUp` | ExpenseTrackerApp.java:217-222 | the worked ledger uses only listed categories, so its spends over the category list add up to its total |
| `Summaries.WorkedExample` | ExpenseTrackerApp.java:359-370 | with the real budget table: Food at 1100 is 100 over, Transport exactly at 300 is not flagged, Miscellaneous (budget 0) is flagged for a spend of 5, an unused category is not flagged, and the category spends add up to the total |
| `Tracker.Ledger.constructor` | ExpenseTrackerApp.java:27 | the ledger starts empty, so trivially with known categories only |
| `Tracker.Ledger.Add` | ExpenseTrackerApp.java:45-57 | the ledger grows by exactly one record, placed last, built from the arguments and the given id; earlier records are unchanged; the total rises by the amount; the recent list gains the record iff it is recent; known-categories is kept iff the category is listed |
| `Tracker.Validate` | ExpenseTrackerApp.java:247-253 | an entry is produced iff the title is non-empty, the amount parses and a category is selected, and it carries exactly the entered title, parsed amount, category and date, whatever the amount's sign |
| `Tracker.Submit` | ExpenseTrackerApp.java:247-260 | the ledger gains exactly the validated entry when the guard passes and is unchanged otherwise; with a selection taken from the dropdown, a ledger of known categories stays one |

## Left out

- Widget layout, the modal sheet, `Navigator.pop`, the date picker and its
  asynchronous callback. These are presentation. `setState` is modelled as a
  plain in-place update.
- Double-precision arithmetic and `toStringAsFixed(2)` formatting. Amounts are
  exact reals, so sums do not round. The special doubles are not modelled
  either: `double.tryParse` also accepts "NaN" and "Infinity", and no `real`
  holds those values, so a ledger containing them (and the comparisons and
  sums they would poison) is outside the model.
- `double.tryParse` itself. It is the parameter `parse`, and only whether it
  returns a finite value or fails is modelled.
- `DateTime.now()`. The id source is the parameter `id`. The recent filter's
  clock is the single parameter `now`. The source reads the clock once per
  element inside the `where` closure, so its cutoff can drift slightly during
  one scan. The model uses one cutoff for the whole scan.
- Independence of the total from the order of the transactions (any
  permutation). Only the concatenation and append laws are proved.
- How the form's fields get their values (text controllers, the dropdown's
  `onChanged`). `Form` is the snapshot `_submitData` reads. `Submit` requires
  that a selected category is one the dropdown offers.
