# BillSplit Pro ledger and split engine, in Dafny

BillSplit Pro is an Android app that keeps a ledger of shared expenses, groups them
by event (a trip, an office outing), converts the total into a chosen currency and
splits it evenly between a number of people. This project models the app's logic:

- `database.dfy` (module `Database`): the `Expense` row and `ExpenseDao`, the store
  behind `expense_table`. The table is a map from primary key to row. `GetAllExpenses`
  builds the `ORDER BY id DESC` listing with a loop. `Insert` files a row under a fresh
  id and `Delete` removes a row by id. Lemmas show that the listing is unique, holds each
  stored row once, and what it becomes after an insert or a delete.
- `view_model.dfy` (module `ViewModel`): the event filter behind `expenses`, the rate
  cache (`INR -> 1.0` at start, merged with `putAll` on a successful fetch), and the
  class `MainViewModel` with `addExpense`, `removeExpense` and `setEventFilter`.
- `activity.dfy` (module `Activity`): the arithmetic on screen. This covers the
  conversion rate with its 1.0 fallback, the base total, the converted total, the
  per-person share, the per-item amount and the per-category breakdown (`groupBy`). It
  also covers the add-button rules, the event-name choice, the category icon and the
  class `BillSplitApp` with the remembered form state and the person-count stepper, and
  the stats dialog that draws the breakdown with its legend.
- `chart.dfy` (module `Chart`): `PieChart`. The total, the sweep angles, and the loop
  that turns `startAngle` from -90 and colours each slice.
- `sums.dfy` (module `Sums`): `sumOf`/`sum` as a left fold, with the lemmas about sums
  that the rest uses. `lists.dfy` (module `Lists`): Kotlin's `filter`, which the delete
  listing, the event filter and the category groups all use, with its lemmas.
  `wrappers.dfy` holds `Option`.

Amounts are `real`, so sums and ratios are exact. The Kotlin field `type` of an expense
is called `category` here, because `type` is a Dafny keyword.

Where the code does less than the app evidently intends, the model follows the code:

- Adding an expense checks only for a blank name and an amount that does not parse.
  Zero and negative amounts are accepted, and the name is stored untrimmed.
- A fetched rate table is merged with `putAll`, so a response that lists `INR` replaces
  the base rate (`BaseRateOverwritten`). `BaseRateKept` shows that the base rate
  survives every response that does not list it.
- The pie chart divides by the total without a zero check, and the stats dialog guards
  only against an empty listing.

## Model

| member | source | states |
|---|---|---|
| Sums.SumOf | app/src/main/java/com/billsplitpro/MainActivity.kt:78 | `sumOf`: a left fold that starts at 0 and adds each element's term from first to last |
| Lists.Filter | app/src/main/java/com/MainViewModel.kt:23 | `filter`: the elements that pass the test, in their original order |
| Lists.FilterCounts | app/src/main/java/com/MainViewModel.kt:23 | a filter keeps every copy of an element that passes and no copy of any other |
| Lists.FilterMembers | app/src/main/java/com/MainViewModel.kt:23 | an element is in the filtered list exactly when it is in the list and passes |
| Lists.FilterSubsequence | app/src/main/java/com/MainViewModel.kt:23 | the kept elements appear in their original relative order |
| Lists.FilterIdempotent | app/src/main/java/com/MainViewModel.kt:23 | filtering a filtered list by the same test changes nothing |
| Lists.FilterKeepsAll | app/src/main/java/com/MainViewModel.kt:23 | a test every element passes keeps the whole list |
| Lists.SubsequenceMembers | app/src/main/java/com/MainViewModel.kt:23 | every element of a subsequence is an element of the list |
| Database.ExpenseDao.constructor | app/src/main/java/com/billsplitpro/Database.kt:13-23 | the table starts empty and the first id handed out is 1 |
| Database.ExpenseDao.GetAllExpenses | app/src/main/java/com/billsplitpro/Database.kt:15-16 | the listing has strictly decreasing ids and contains exactly the stored rows |
| Database.ExpenseDao.Insert | app/src/main/java/com/billsplitpro/Database.kt:18-19 | the row is stored under a fresh id, larger than every id before it. Every other field is kept and every earlier row is unchanged |
| Database.ExpenseDao.Delete | app/src/main/java/com/billsplitpro/Database.kt:21-22 | the row with the same primary key is removed. The other rows stay, and an absent id changes nothing |
| Database.QueryUnique | app/src/main/java/com/billsplitpro/Database.kt:15 | two answers to the ordered query on one table are the same list |
| Database.DescendingUnique | app/src/main/java/com/billsplitpro/Database.kt:15 | two strictly descending lists with the same elements are equal |
| Database.QueryHoldsEachOnce | app/src/main/java/com/billsplitpro/Database.kt:15-16 | each stored row appears exactly once in the listing, and no other row appears |
| Database.DescendingHoldsEachOnce | app/src/main/java/com/billsplitpro/Database.kt:15 | a list with strictly decreasing ids holds each of its elements once |
| Database.QueryAfterInsert | app/src/main/java/com/billsplitpro/Database.kt:18-19 | after an insert with a fresh larger id, the listing is the new row followed by the old listing. It is one longer and holds the new row once |
| Database.QueryAfterDelete | app/src/main/java/com/billsplitpro/Database.kt:21-22 | after a delete, the listing is the old one without the rows of that id. Its order is kept and no row of that id remains |
| Database.DeleteAbsentQuery | app/src/main/java/com/billsplitpro/Database.kt:21-22 | deleting an id that is not stored leaves both the table and its listing unchanged |
| Database.SubsequenceDescending | app/src/main/java/com/billsplitpro/Database.kt:15 | dropping rows from a newest-first list leaves it newest first |
| Database.RemoveId | app/src/main/java/com/billsplitpro/Database.kt:21-22 | the listing after a delete keeps every copy of each earlier row whose id differs and no row with that id, in the earlier order |
| ViewModel.KeepEvent | app/src/main/java/com/MainViewModel.kt:23 | the rows of one event: every copy of a row with that event name and no other row, in listing order |
| ViewModel.EventFilter | app/src/main/java/com/MainViewModel.kt:21-24 | with "All Events" the list passes through unchanged. Any other tag keeps exactly the rows with that event name, in order and with their multiplicity |
| ViewModel.EventFilterIdempotent | app/src/main/java/com/MainViewModel.kt:23 | filtering a filtered list by the same tag changes nothing |
| ViewModel.EventFilterDescending | app/src/main/java/com/MainViewModel.kt:21-23 | the filtered listing is still newest first |
| ViewModel.MergeRates | app/src/main/java/com/MainViewModel.kt:35-44 | a failed fetch leaves the cache as it was. A successful one adds every fetched code with its fetched rate and keeps every other cached rate |
| ViewModel.MergeRatesIdempotent | app/src/main/java/com/MainViewModel.kt:39 | merging the same fetch result twice equals merging it once |
| ViewModel.BaseRateKept | app/src/main/java/com/MainViewModel.kt:31-39 | the base rate 1.0 survives any fetch whose response does not list INR |
| ViewModel.BaseRateOverwritten | app/src/main/java/com/MainViewModel.kt:39 | for every cache, a response that lists INR sets the base rate to the fetched value |
| ViewModel.MainViewModel.constructor | app/src/main/java/com/MainViewModel.kt:17-33 | the filter starts at "All Events" and the cache holds only INR at 1.0 |
| ViewModel.MainViewModel.Expenses | app/src/main/java/com/MainViewModel.kt:21-24 | the shown list is newest first. It holds exactly the stored rows that pass the current filter |
| ViewModel.MainViewModel.FetchCurrencies | app/src/main/java/com/MainViewModel.kt:35-44 | the cache becomes the merge of the old cache and the fetch outcome |
| ViewModel.MainViewModel.AddExpense | app/src/main/java/com/MainViewModel.kt:47-51 | exactly one row is added, with the given name, amount, category and event, under the next id |
| ViewModel.MainViewModel.RemoveExpense | app/src/main/java/com/MainViewModel.kt:53-57 | the row with that expense's id is removed from the store |
| ViewModel.MainViewModel.SetEventFilter | app/src/main/java/com/MainViewModel.kt:59-61 | the filter becomes exactly the given value |
| Activity.ConversionRate | app/src/main/java/com/billsplitpro/MainActivity.kt:69 | a cached code converts at its cached rate and an unknown code at 1.0, so the base currency converts at 1.0 while its rate is kept |
| Activity.Total | app/src/main/java/com/billsplitpro/MainActivity.kt:78 | `totalInINR`: the sum of the listed amounts, in the base currency |
| Activity.TotalBounds | app/src/main/java/com/billsplitpro/MainActivity.kt:78 | with no negative amount the total is at least 0 and at least each single amount |
| Activity.DisplayedTotal | app/src/main/java/com/billsplitpro/MainActivity.kt:79 | the converted total equals the sum of the line items converted one by one. An unknown currency shows the base total |
| Activity.DisplayAmount | app/src/main/java/com/billsplitpro/MainActivity.kt:280 | at rate 1.0 an item shows its stored amount; a non-negative amount at a non-negative rate shows non-negative |
| Activity.PerPersonAmount | app/src/main/java/com/billsplitpro/MainActivity.kt:80 | with a positive count, the share times the count gives back the displayed total. Otherwise the share is 0 |
| Activity.TotalPermutation | app/src/main/java/com/billsplitpro/MainActivity.kt:78 | the total is the same for every reordering of the list |
| Activity.CategoryKeys | app/src/main/java/com/billsplitpro/MainActivity.kt:254 | the group keys are distinct and are exactly the categories present in the list |
| Activity.OfCategory | app/src/main/java/com/billsplitpro/MainActivity.kt:254 | a category's group keeps every copy of each row of that category and no other row, in listing order |
| Activity.CategoryTotals | app/src/main/java/com/billsplitpro/MainActivity.kt:254 | entry i is key i with the total of exactly that category's rows, and the entries add up to the ledger total |
| Activity.CategoryKeysFirstSeenOrder | app/src/main/java/com/billsplitpro/MainActivity.kt:254 | keys come in order of first appearance |
| Activity.CategorySlicesTile | app/src/main/java/com/billsplitpro/MainActivity.kt:254-256 | with a positive total, the chart of the breakdown has a positive total and its sweeps add up to 360 |
| Activity.StatsChart | app/src/main/java/com/billsplitpro/MainActivity.kt:249-264 | one slice per category, in key order, coloured from the chart palette (gray past its end). Slice i sweeps category i's share of the total times 360, slice 0 starts at -90, each later slice starts where the one before it ends, and the last ends at 270, and legend row i names category i in its slice's colour |
| Activity.Legend | app/src/main/java/com/billsplitpro/MainActivity.kt:258-260 | legend row i is key i beside the palette colour at index i, or gray past the end of the palette |
| Activity.IsBlank | app/src/main/java/com/billsplitpro/MainActivity.kt:223-224 | Kotlin `isBlank`: empty, or only characters that `Char.isWhitespace` accepts (Java whitespace and Unicode space separators) |
| Activity.ChooseEvent | app/src/main/java/com/billsplitpro/MainActivity.kt:224 | a typed name is used as is, and with nothing typed under "All Events" the name is "Default". A new row shows under the current filter exactly when the filter is "All Events", no name was typed, or the typed name equals the filter. The stored name is never blank when the filter is not, and is "All Events" only when that was typed |
| Activity.IconForCategory | app/src/main/java/com/billsplitpro/MainActivity.kt:301-303 | the list icon goes to "Other" and to every category outside the chips, and to nothing else |
| Activity.IconsOfCategories | app/src/main/java/com/billsplitpro/MainActivity.kt:301-303 | the five chips get five different icons. A category gets the "Other" icon exactly when it is none of Food, Travel, Home and Fun |
| Activity.BillSplitApp.constructor | app/src/main/java/com/billsplitpro/MainActivity.kt:62-72 | the form starts empty with one person, currency INR and category Food |
| Activity.BillSplitApp.DecrementPeople | app/src/main/java/com/billsplitpro/MainActivity.kt:173 | the count drops by one only while it is above 1, so it stays at least 1 |
| Activity.BillSplitApp.IncrementPeople | app/src/main/java/com/billsplitpro/MainActivity.kt:175 | the count grows by one and stays at least 1 |
| Activity.BillSplitApp.EditName | app/src/main/java/com/billsplitpro/MainActivity.kt:197 | the name field takes the typed value |
| Activity.BillSplitApp.EditAmount | app/src/main/java/com/billsplitpro/MainActivity.kt:202 | the cost field takes the typed value |
| Activity.BillSplitApp.EditEventName | app/src/main/java/com/billsplitpro/MainActivity.kt:189 | the event-name field takes the typed value |
| Activity.BillSplitApp.SelectCategory | app/src/main/java/com/billsplitpro/MainActivity.kt:213 | the selected category becomes the tapped chip |
| Activity.BillSplitApp.SelectCurrency | app/src/main/java/com/billsplitpro/MainActivity.kt:153 | the display currency becomes the chosen code |
| Activity.BillSplitApp.PerPerson | app/src/main/java/com/billsplitpro/MainActivity.kt:69-80 | the share on screen times the person count is the displayed total |
| Activity.BillSplitApp.OnAddClick | app/src/main/java/com/billsplitpro/MainActivity.kt:221-228 | an add is accepted exactly when the name is not blank and the cost parses. It then adds one row with the chosen event and clears name and cost. A rejected add changes nothing |
| Chart.ChartTotal | app/src/main/java/com/billsplitpro/PieChart.kt:16 | `data.values.sum()`: the sum of the entry values in iteration order |
| Chart.ChartTotalBounds | app/src/main/java/com/billsplitpro/PieChart.kt:16 | with no negative value the total is at least 0 and at least each value |
| Chart.Angles | app/src/main/java/com/billsplitpro/PieChart.kt:19 | one sweep per entry. The sweeps of a non-empty chart add up to 360, and with a positive total and no negative value each lies in [0, 360] |
| Chart.AnglesAreShares | app/src/main/java/com/billsplitpro/PieChart.kt:19 | sweep i is value i over the total, times 360 |
| Chart.ColorAt | app/src/main/java/com/billsplitpro/PieChart.kt:27 | the palette colour at that index, or gray past the end of the palette |
| Chart.SliceStartNext | app/src/main/java/com/billsplitpro/PieChart.kt:21-39 | each slice starts where the previous one ends |
| Chart.SlicesEndAt270 | app/src/main/java/com/billsplitpro/PieChart.kt:16-39 | after the last slice the angle has turned once round, from -90 to 270 |
| Chart.PieChart | app/src/main/java/com/billsplitpro/PieChart.kt:26-40 | one arc per entry, in order. Arc i starts at -90 plus the earlier sweeps, sweeps value/total*360 and is coloured colors[i], or gray past the end of the list. The arcs tile up to 270 |

## Left out

- Room persistence, the `Flow` and `combine` reactivity and the `viewModelScope.launch` coroutines are not modelled. The listing is a query on a snapshot of the table, and a command takes effect when it returns.
- `AppDatabase.getDatabase` is a lazily built, synchronized singleton. The view model takes its store as a constructor argument instead.
- The HTTP client in `CurrencyAPI.kt` is not part of this model. A fetch is its outcome: `Some(rates)` or `None` for any failure. The fetch that `init` launches is a later `FetchCurrencies` call.
- `Expense.kt` declares other fields (`title`, `paidBy`) and defaults `id` to the clock. The row here is built from how the rest of the code uses it. As a modelling choice, the store hands out ids 1, 2, 3 and so on, never reused.
- The creation date is a clock reading passed in by the caller. `formatDate` and the `%.2f` display rounding are left out.
- `Double` and `Float` rounding are not modelled, because amounts, rates and angles are exact reals.
- `toDoubleOrNull` is a `parse` function passed to the add button. Its grammar is Kotlin library behaviour.
- Chart.PieChart: requires a non-zero total for a non-empty chart. The sweeps a zero total produces are not modelled: NaN when every value is 0 (a single expense of amount 0, which the add button accepts), and plus or minus Infinity when the values cancel out (5 and -5).
- Chart.Angles: requires a non-zero total for a non-empty chart, for the reason above; it divides by the total.
- Activity.StatsChart: requires a non-zero total, for the reason above. The app opens the dialog for any non-empty listing.
- Non-finite `Double` values are not modelled. `toDoubleOrNull` accepts "NaN" and "Infinity", and a sum such as 1e308 + 1e308 overflows to Infinity; the model's amounts are finite reals, so the NaN or Infinity totals, shares and sweeps that follow on screen are outside it.
- Chart.PieChart: `startAngle` is captured by the draw lambda and is not reset between draw passes, so the model draws once. By `SlicesEndAt270`, a second pass would start one full turn later.
- Activity.BillSplitApp.IncrementPeople: does not model the 32-bit `Int` wrap-around after 2147483647 taps. The count is an unbounded integer.
- Compose layout, the event and currency dropdown menus, the delete-confirmation dialog, the dialog title, the share `Intent` and the currency-symbol glyphs are presentation only.
