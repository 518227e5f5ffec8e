# Budget calculator: a Dafny model of its arithmetic and list edits

The budget calculator is a small web application. A user types a monthly
income and a list of expenses on the home page, each with a name, a cost and
a description. On submit the page stores the remaining balance. The chart
page then shows the balance, the expense total and what is left after
expenses. It also draws a line graph of a twelve-month projection and a
donut chart of the expenses. A separate page lists the expenses saved on the
server and deletes them by id.

This project models that logic in Dafny:

- `numbers.dfy` (module `Numbers`) models JavaScript numbers as `Num = NaN | Val(real)`. NaN propagates through `+`, `-` and `*`. `parseFloat` is a parameter of every operation that parses. `parseFloat(x.toFixed(2))` is `Round2`: rounding half away from zero to whole cents. The module also has the left-to-right `Sum`.
- `expenses.dfy` (module `Expenses`) holds the `Expense` record and the expense total `reduce((t, e) => t + parseFloat(e.cost || "0"), 0)`.
- `financial_data.dfy` (module `FinancialData`) models `calculateFinancialData`, the twelve-month projection. Its recurrence is proved equal to closed forms. Month i of the expense series is i + 1 times the monthly total. The savings balance is i + 1 times the monthly savings share, rounded. The investment is a compounding balance, 151·a·((1 + 0.08/12)^n − 1) for a deposit a.
- `entry_form.dfy` (module `EntryForm`) covers the home page: the initial row, `handleChange`, `addMoreExpenses`, `removeExpense` with its "Remove Last" button, and the remaining balance `handleSubmit` stores.
- `line_graph.dfy` (module `LineGraph`) models the line graph's effect: linear balance and expense series, and an investment series that grows 8 % a step and carries the rounded previous value forward.
- `chart_page.dfy` (module `ChartPage`) models the chart page's effect: the expense total, the stored balance and the balance after expenses clamped at 0.
- `pie_chart.dfy` (module `PieChart`) models the donut chart's slices and labels with their fallbacks.
- `expenses_page.dfy` (module `ExpensesPage`) models the saved-expenses page: the state after the first fetch and `handleDelete`'s filter by id.
- `wrappers.dfy` (module `Wrappers`) holds `Option`.

Storage entries are inputs. A raw `localStorage` entry is an `Option<string>`. The decoded `expenses` entry is an `Option<seq<Expense>>`, where `None` also stands for an empty entry. The server's answers are an `Outcome`: the value, or `Failed` when the awaited call throws.

Two behaviours of the code are easy to misread:

- **Unparsable costs.** The projection and the chart page read a cost as `expense.cost || "0"`, so only an empty cost becomes `"0"`; submit on the home page parses the cost as typed, so there an empty cost gives NaN (`EntryForm.EmptyCostSpoilsSubmit`). A non-empty cost that does not parse makes the projection's total NaN (`UnparsableCostPoisonsProjection`). NaN is shown as 0 in two places: the donut chart's slices (`UnparsableCostIsEmptySlice`) and the chart page's balance after expenses, whose clamp `x >= 0 ? x : 0` sends NaN to 0 (`ChartPage.ClampAtZero`).
- **The investment carry.** `calculateFinancialData` carries the unrounded investment balance from month to month and rounds only the value it records. With income 1000, no expenses and everything invested, the first two entries are 1006.67 and 2020.04 (`ScenarioAllInvested`). Carrying the rounded 1006.67 instead would give 2020.05 (`RoundedCarryWouldDiffer`). The line graph does carry the rounded value.

## Model

| member | source | states |
|---|---|---|
| Numbers.StoredOrZero | src/app/chart/page.tsx:24-26 | a missing or empty storage entry is read as "0"; any other entry is read as it is |
| Numbers.OrElse | src/app/utils/calculateFinancialData.ts:13 | JavaScript's `s || fallback` on text: a non-empty text is kept, an empty one is replaced, and a non-empty fallback makes the result non-empty |
| Numbers.Round2 | src/app/utils/calculateFinancialData.ts:41-42 | rounding to cents moves a value by at most half a cent and keeps its sign |
| Numbers.RoundNum | src/app/utils/calculateFinancialData.ts:41-42 | rounding gives NaN exactly for NaN |
| Numbers.Round2IsWholeCents | src/app/utils/calculateFinancialData.ts:41-42 | a rounded value is a whole number of cents |
| Numbers.Round2OfCents | src/app/utils/calculateFinancialData.ts:41-42 | a whole number of cents rounds to itself |
| Numbers.Round2OfWhole | src/app/utils/calculateFinancialData.ts:41-42 | a whole amount rounds to itself |
| Numbers.Round2Idempotent | src/app/utils/calculateFinancialData.ts:41-42 | rounding twice is rounding once |
| Numbers.Round2Monotone | src/app/utils/calculateFinancialData.ts:41-42 | rounding preserves order |
| Numbers.Round2Odd | src/app/utils/calculateFinancialData.ts:41-42 | rounding is symmetric about zero, since `toFixed` rounds the magnitude |
| Numbers.Sum | src/app/utils/calculateFinancialData.ts:12-15 | the running sum is NaN exactly when some term is NaN |
| Numbers.SumAppend | src/app/utils/calculateFinancialData.ts:12-15 | the sum of a concatenation is the sum of the two sums |
| Numbers.SumOfValues | src/app/utils/calculateFinancialData.ts:12-15 | a sum of numeric terms is the real sum of their values |
| Expenses.CostOrZero | src/app/utils/calculateFinancialData.ts:13 | the text a cost is parsed from is never empty: a typed cost as it is, an empty cost as "0" |
| Expenses.CostTotal | src/app/utils/calculateFinancialData.ts:12-15 | the monthly total is NaN exactly when some cost, read with the "0" fallback, does not parse |
| Expenses.CostTotalAppend | src/app/utils/calculateFinancialData.ts:12-15 | the total of two lists joined is the sum of their totals |
| Expenses.EmptyCostCountsAsZero | src/app/utils/calculateFinancialData.ts:13 | an expense with an empty cost adds nothing to the total |
| Expenses.EmptyCostAlone | src/app/utils/calculateFinancialData.ts:13 | a single expense with an empty cost totals 0 |
| Expenses.UnparsableCostMakesTotalNaN | src/app/utils/calculateFinancialData.ts:13 | one non-empty cost that does not parse makes the total NaN |
| Expenses.CostTotalReadsOnlyCosts | src/app/utils/calculateFinancialData.ts:12-15 | names and descriptions do not affect the total |
| FinancialData.WithMonthlyInterest | src/app/utils/calculateFinancialData.ts:24 | one month at 8 %/12 multiplies the balance by exactly 151/150 |
| FinancialData.NetIncome | src/app/utils/calculateFinancialData.ts:31 | the net income is NaN exactly when the income or the total is, and otherwise adding the total back gives the income, with no clamping |
| FinancialData.InvestmentPortion | src/app/utils/calculateFinancialData.ts:32 | the investment share is NaN exactly when the income, the total or the percentage is |
| FinancialData.SavingsPortion | src/app/utils/calculateFinancialData.ts:33 | the savings share is NaN exactly when an input is, and together with the investment share it makes up the whole net income |
| FinancialData.Times | src/app/utils/calculateFinancialData.ts:28 | a running total of n monthly amounts is NaN exactly when there is at least one month and the amount is NaN |
| FinancialData.InvestmentAfter | src/app/utils/calculateFinancialData.ts:39 | the investment balance after n months is NaN exactly when there is at least one month and the deposit is NaN |
| FinancialData.Months | src/app/utils/calculateFinancialData.ts:26-43 | each iteration of the loop extends all three series by one entry that matches the closed forms |
| FinancialData.CalculateFinancialData | src/app/utils/calculateFinancialData.ts:7-45 | all three series have 12 entries. Entry i of the expenses is i + 1 monthly totals. Entry i of the savings is i + 1 savings shares, rounded. Entry i of the investment is the balance after i + 1 compounding deposits, rounded |
| FinancialData.TimesOfValue | src/app/utils/calculateFinancialData.ts:28 | adding an amount to a running total n times gives n times the amount |
| FinancialData.TimesOfZero | src/app/utils/calculateFinancialData.ts:28 | repeatedly adding 0 leaves 0 |
| FinancialData.TimesOfNaN | src/app/utils/calculateFinancialData.ts:28 | adding NaN even once makes the running total NaN |
| FinancialData.TimesMonotone | src/app/utils/calculateFinancialData.ts:28 | a running total of a non-negative amount never falls |
| FinancialData.TimesAntitone | src/app/utils/calculateFinancialData.ts:36 | a running total of a non-positive amount never rises |
| FinancialData.InvestmentClosedForm | src/app/utils/calculateFinancialData.ts:24-39 | after n deposits of a the balance is 151·a·((1 + 0.08/12)^n − 1) |
| FinancialData.InvestmentIsValue | src/app/utils/calculateFinancialData.ts:39 | numeric deposits keep the balance numeric |
| FinancialData.InvestmentStep | src/app/utils/calculateFinancialData.ts:39 | next month's balance is this month's plus the deposit, grown by one month's interest |
| FinancialData.InvestmentNonNegative | src/app/utils/calculateFinancialData.ts:39 | with non-negative deposits the balance is never negative |
| FinancialData.InvestmentStepsUp | src/app/utils/calculateFinancialData.ts:39 | with non-negative deposits the balance never falls from one month to the next |
| FinancialData.TimesIsValue | src/app/utils/calculateFinancialData.ts:28 | a running total of a numeric amount stays numeric |
| FinancialData.InvestmentCoversDeposits | src/app/utils/calculateFinancialData.ts:39 | with non-negative deposits the balance is at least the deposits paid in |
| FinancialData.InvestmentMonotone | src/app/utils/calculateFinancialData.ts:39 | with non-negative deposits a later balance is never less than an earlier one |
| FinancialData.InvestmentWithoutDeposits | src/app/utils/calculateFinancialData.ts:39 | with zero deposits the balance stays 0 |
| FinancialData.InvestmentOfNaN | src/app/utils/calculateFinancialData.ts:39 | a NaN deposit makes the balance NaN from the first month on |
| FinancialData.ExpensesAreRunningTotal | src/app/utils/calculateFinancialData.ts:28-29 | entry i of the expense series is (i + 1) times the monthly total, and the series never falls when that total is not negative |
| FinancialData.InvestmentPortionValue | src/app/utils/calculateFinancialData.ts:31-32 | the monthly investment share is p/100·(income − total), with no clamping at zero |
| FinancialData.SavingsPortionValue | src/app/utils/calculateFinancialData.ts:31-33 | the monthly savings share is (1 − p/100)·(income − total), with no clamping at zero |
| FinancialData.SavingsClosedForm | src/app/utils/calculateFinancialData.ts:31-41 | entry i of the savings series is (i + 1) savings shares, rounded to cents, since the carried savings are never rounded |
| FinancialData.SavingsNeverFall | src/app/utils/calculateFinancialData.ts:36-41 | when the savings share is not negative, the savings series never falls |
| FinancialData.SavingsNeverRise | src/app/utils/calculateFinancialData.ts:36-41 | when the savings share is not positive, the savings series never rises |
| FinancialData.OverspendingShare | src/app/utils/calculateFinancialData.ts:31-33 | spending more than the income while investing less than 100 % makes the savings share negative |
| FinancialData.OverspendingDrainsSavings | src/app/utils/calculateFinancialData.ts:31-41 | with expenses above income and p < 100, every savings entry is at most 0 and the series never rises |
| FinancialData.ZeroPercentNoInvestment | src/app/utils/calculateFinancialData.ts:32-42 | with 0 % invested every investment entry is 0 |
| FinancialData.FullPercentNoSavings | src/app/utils/calculateFinancialData.ts:32-41 | with 100 % invested every savings entry is 0 |
| FinancialData.InvestmentSeriesNonDecreasing | src/app/utils/calculateFinancialData.ts:39-42 | with a non-negative monthly deposit the investment series never falls |
| FinancialData.UnparsableCostPoisonsProjection | src/app/utils/calculateFinancialData.ts:12-42 | one non-empty unparsable cost makes every entry of all three series NaN |
| FinancialData.NaNIncomeOrPercentage | src/app/utils/calculateFinancialData.ts:31-42 | a NaN income or percentage makes every savings and investment entry NaN |
| FinancialData.NoExpensesNoExpenseSeries | src/app/utils/calculateFinancialData.ts:12-29 | with no expenses the expense series is all zeros |
| FinancialData.ProjectionReadsOnlyCosts | src/app/utils/calculateFinancialData.ts:7-45 | the projection depends only on the income, the percentage and the costs in order |
| FinancialData.ThousandAMonth | src/app/utils/calculateFinancialData.ts:24-42 | deposits of 1000 read 1006.67 after one month and 2020.04 after two |
| FinancialData.ScenarioAllInvested | src/app/utils/calculateFinancialData.ts:26-43 | for income 1000, no expenses and 100 % invested, the investment reads 1006.67 and then 2020.04, and savings stay at 0 |
| FinancialData.RoundedCarryWouldDiffer | src/app/utils/calculateFinancialData.ts:39-42 | carrying the rounded first entry 1006.67 would make the second 2020.05, which the unrounded carry does not give |
| EntryForm.SetField | src/app/page.tsx:26-29 | the named field gets the value and the other two fields keep theirs |
| EntryForm.InitialExpenses | src/app/page.tsx:16-18 | the form starts with exactly one row whose name, cost and description are empty |
| EntryForm.HandleChange | src/app/page.tsx:20-31 | only the chosen field of the row at the index changes; the length and every other row are kept |
| EntryForm.AddMoreExpenses | src/app/page.tsx:47-49 | one blank row is appended, and the earlier rows are kept |
| EntryForm.DropPosition | src/app/page.tsx:52 | the index filter drops exactly the row at the index, if there is one |
| EntryForm.RemoveExpense | src/app/page.tsx:51-53 | an index in range removes exactly that row and keeps the rest in order; any other index changes nothing |
| EntryForm.RemoveLast | src/app/page.tsx:104 | "Remove Last" drops the last row, and on an empty list (index −1) changes nothing |
| EntryForm.RemoveUndoesAdd | src/app/page.tsx:47-53 | removing the row just added restores the list |
| EntryForm.HandleChangeUndo | src/app/page.tsx:20-31 | writing the old value back undoes an edit |
| EntryForm.HandleChangeKeepsTotal | src/app/page.tsx:20-31 | editing a name or a description leaves the cost total unchanged |
| EntryForm.RawCosts | src/app/page.tsx:38 | submit reads one number per row; where the cost is non-empty it is the number the projection reads, and an empty cost gives NaN instead of 0 |
| EntryForm.SubmitBalance | src/app/page.tsx:37-41 | the stored balance is NaN exactly when the income or some cost, parsed as typed, is NaN |
| EntryForm.EmptyCostSpoilsSubmit | src/app/page.tsx:37-41 | an empty cost makes the stored balance NaN, since submit has no "0" fallback |
| EntryForm.SubmitAgreesWithCostTotal | src/app/page.tsx:37-41 | with no empty cost, the stored balance is the income minus the same total the projection uses |
| EntryForm.SubmitInitialForm | src/app/page.tsx:16-41 | submitting the untouched initial form stores NaN |
| LineGraph.Linear | src/components/LineGraph.tsx:24-25 | the balance and expense series have 12 entries |
| LineGraph.InvestmentGrowth | src/components/LineGraph.tsx:28-32 | the investment series is as long as the balances. Its first value is the first balance grown 8 % and rounded. Each later value grows the previous ROUNDED value plus that month's balance |
| LineGraph.Grow | src/components/LineGraph.tsx:30-31 | one growth step keeps the sign of the previous value plus the balance |
| LineGraph.Previous | src/components/LineGraph.tsx:29 | the carried value is the last value so far, and 0 before the first month |
| LineGraph.LineGraphEffect | src/components/LineGraph.tsx:13-37 | when both stored values parse, the series are the two linear ones and the growth of the balances; otherwise all three stay empty |
| LineGraph.GrowthOfPrefix | src/components/LineGraph.tsx:28-32 | the growth of a prefix of the balances is that prefix of the growth |
| LineGraph.GrowNeverFalls | src/components/LineGraph.tsx:30-31 | one growth step from non-negative values never lowers the rounded previous value |
| LineGraph.GrowthNonNegative | src/components/LineGraph.tsx:28-32 | non-negative balances give non-negative investment values |
| LineGraph.GrowthNonDecreasing | src/components/LineGraph.tsx:28-32 | non-negative balances give an investment series that never falls |
| LineGraph.RoundedStaysPut | src/components/LineGraph.tsx:31 | every investment value is already rounded to cents |
| LineGraph.LinearIsArithmetic | src/components/LineGraph.tsx:24-25 | a linear series starts at the stored value and grows by it each month |
| LineGraph.UnparsableStorageDrawsNothing | src/components/LineGraph.tsx:19-23 | a balance or total that does not parse leaves all three series empty |
| LineGraph.MissingTotalDrawsZeroExpenses | src/components/LineGraph.tsx:20-25 | a missing total entry reads as "0", so the expense series is 12 zeros |
| LineGraph.DrawnSeriesShape | src/components/LineGraph.tsx:24-32 | drawn series have 12 entries, and the first investment value is the first balance times 1.08, rounded |
| ChartPage.ClampAtZero | src/app/chart/page.tsx:43 | the clamped value is never negative; it is the difference when that is not negative, and 0 otherwise, including NaN |
| ChartPage.ChartEffect | src/app/chart/page.tsx:22-50 | without stored expenses the page only redirects. With them the total is always set. The balance and the after-expenses value are set exactly when the stored balance parses, and the balance is that parsed value |
| ChartPage.Renders | src/app/chart/page.tsx:57-59 | the page renders only once both the balance and the total are set |
| ChartPage.ClampIsMaxWithZero | src/app/chart/page.tsx:38-44 | for a numeric difference the clamp is the larger of it and 0; a NaN difference shows as 0 |
| ChartPage.AfterExpensesNeverNegative | src/app/chart/page.tsx:38-44 | the balance after expenses is never negative, and equals the stored balance minus the total whenever that is not negative |
| ChartPage.RendersIffBalanceParses | src/app/chart/page.tsx:38-59 | the page renders exactly when the expenses are stored and the stored balance parses |
| ChartPage.MissingBalanceReadsAsZero | src/app/chart/page.tsx:24-44 | a missing balance entry shows as 0, and the after-expenses value as max(−total, 0) |
| ChartPage.ExpensesSubtractedTwice | src/app/chart/page.tsx:38-44 | when the stored balance is the one submit stored from the income and a list with no empty cost, the page shows max(income − 2·total, 0) after expenses: the total is subtracted twice |
| PieChart.PieExpenses | src/components/PieChart.tsx:19-27 | the chart uses the stored expenses, or none |
| PieChart.SliceSize | src/components/PieChart.tsx:31 | a cost that parses gives its value; NaN gives 0 |
| PieChart.SliceLabel | src/components/PieChart.tsx:32 | a label is never empty, and a non-empty name is its own label |
| PieChart.PieSeries | src/components/PieChart.tsx:31 | one slice per expense, in order |
| PieChart.PieLabels | src/components/PieChart.tsx:32 | one label per expense, in order |
| PieChart.DisplayedLabels | src/components/PieChart.tsx:40 | with no expenses the labels are exactly ["No Expenses"], and otherwise the expense labels |
| PieChart.SeriesAndLabelsAligned | src/components/PieChart.tsx:31-40 | slices and labels match the expenses in length, no label is empty, and the shown labels are never empty |
| PieChart.LabelsFallBackToUnknown | src/components/PieChart.tsx:32 | a slice is labelled "Unknown" exactly when its expense has an empty name or is itself named "Unknown" |
| PieChart.SlicesAddUpToCostTotal | src/components/PieChart.tsx:31 | when every non-empty cost parses, the slices add up to the projection's total |
| PieChart.UnparsableCostIsEmptySlice | src/components/PieChart.tsx:31 | an unparsable cost is an empty slice, while the same cost makes the projection's total NaN |
| ExpensesPage.AfterFetch | src/app/expenses/page.tsx:19-33 | loading ends either way; on success the list is the fetched one, and on failure it is unchanged |
| ExpensesPage.WithoutId | src/app/expenses/page.tsx:42 | no kept expense has the id, and an expense is kept exactly when it was in the list with another id |
| ExpensesPage.HandleDelete | src/app/expenses/page.tsx:39-52 | a successful delete filters out the id, and a failed one changes nothing |
| ExpensesPage.WithoutIdAppend | src/app/expenses/page.tsx:42 | the filter works piecewise over a concatenation, so kept expenses stay in order |
| ExpensesPage.WithoutIdSingle | src/app/expenses/page.tsx:42 | a single expense is kept exactly when its id differs |
| ExpensesPage.AbsentIdKeepsAll | src/app/expenses/page.tsx:42 | deleting an id no expense has leaves the list unchanged |
| ExpensesPage.DeleteIdempotent | src/app/expenses/page.tsx:42 | deleting the same id twice is deleting it once |
| ExpensesPage.FirstFetch | src/app/expenses/page.tsx:14-33 | the first fetch ends loading, and on failure the list stays empty |
| ExpensesPage.RefetchReplaces | src/app/expenses/page.tsx:19-33 | a later successful fetch replaces the list whatever came before, and a later failed fetch keeps the earlier result |
| ExpensesPage.FailedFetchKeepsList | src/app/expenses/page.tsx:19-33 | a failed fetch changes only the loading flag |

## Left out

- Binary floating point. Numbers are reals, so properties such as "n additions equal one multiplication" hold in the model only. Infinities and negative zero are not modelled.
- Round2: `toFixed` switches to exponent notation at 1e21 or more. The model rounds every value to cents.
- `parseFloat`: a parameter of the model. Lemmas that need it assume only that "" parses to NaN and "0" parses to 0.
- `toString` on the stored balance: the chart page's input is the stored text, and no round trip through `toString` is modelled.
- `localStorage`, `JSON.parse` and `JSON.stringify`: the resolved entries are inputs. Nothing in these pages writes the `totalExpenses` entry the line graph reads, so with the pages as written that entry is missing (see `MissingTotalDrawsZeroExpenses`).
- Network calls: the server's answers are inputs, and `console.error` logging is not modelled.
- React state timing, rendering, chart options, `router.push` and `localStorage.clear`: not modelled. The chart page's redirect is a flag in its state.
- EntryForm.HandleChange: requires an index inside the list, because the form only calls it with the index of a row it displays.
- ExpensesPage.AfterFetch: a response without an `expenses` field is not modelled.
- Determinism and non-mutation: these hold because the model's functions are pure and their values are immutable.
