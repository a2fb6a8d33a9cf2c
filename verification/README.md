# Sales dashboard: data model, filter and growth rule

A Dafny model of the non-visual logic of a single-page sales dashboard. The
model has three modules, one for each source file:

- `SalesData` (`sales_data.dfy`) covers `src/data/salesData.ts`. It holds the
  `SalesRecord` and `YearlySales` shapes and the twelve month labels. It has
  the seasonal generator `generateSalesData` and the totals pass that fills in
  `totalSales`, `totalProfit` and `totalOrders` with `reduce`. It builds the
  fixed collection `allYearsData` (2024, 2023, 2022, using base amounts
  285000, 245000 and 198000).
- `SalesChart` (`sales_chart.dfy`) covers `src/components/organisms/SalesChart.tsx`
  and the `ChartType` union of `src/components/molecules/ChartTypeSelector.tsx`.
  It holds the chart's state (initially `bar`, threshold 0), the threshold
  filter, the pie projection, the pie cell colour cycling, the header's
  "months shown" count and the exhaustive bar/line/pie render dispatch.
- `Dashboard` (`dashboard.dfy`) covers `src/pages/Dashboard.tsx`. It holds the
  year lookup with its fallback to the 2024 data set and `calculateGrowth`.
  It builds the year-comparison panels, each highlighted when its year is the
  selected one. It also has the three user events: select a year, choose a
  chart type, enter a threshold.

Randomness becomes a parameter. Each month consumes three `Math.random()`
values, which the model takes as a `MonthDraws` triple in [0, 1). Given those,
the generator is a pure function. `Math.round` is `Floor(x + 1/2)` over `real`.
The JavaScript number arithmetic is modelled as exact real arithmetic.

Two details of the growth badge are worth stating plainly:

- `calculateGrowth` finds the predecessor of a year by the numeric lookup of
  `year - 1` (src/pages/Dashboard.tsx:29), not by its position in the
  collection.
- The "+12.5%" placeholder is tied to the literal year 2022
  (src/pages/Dashboard.tsx:27). It is returned for 2022 whatever the data
  holds (`Dashboard.Growth2022IgnoresData`), and for no other year.

## Model

| member | source | states |
|---|---|---|
| `SalesData.Round` | src/data/salesData.ts:30-32 | `Math.round` returns the integer within half a unit of its argument, with halves rounded up |
| `SalesData.DrawRanges` | src/data/salesData.ts:28-32 | the three random factors lie in [0.9, 1.1), [0.15, 0.25) and [80, 120) when the draws lie in [0, 1) |
| `SalesData.GenerateRecord` | src/data/salesData.ts:26-39 | a month's record carries its month label; its sales are the nearest integer to base times seasonal multiplier times variation, its profit the nearest integer to sales times the profit rate, and its orders the nearest integer to sales divided by the average order size |
| `SalesData.GenerateSalesData` | src/data/salesData.ts:17-41 | the generator returns exactly 12 records; record i carries label `months[i]` (Jan..Dec in calendar order) and uses `seasonalMultipliers[i]` and the i-th draws |
| `SalesData.SeasonalMultipliersInRange` | src/data/salesData.ts:24 | the multiplier curve has as many entries as there are months, and each lies in [0.75, 1.4] |
| `SalesData.ProfitWithinSales` | src/data/salesData.ts:31 | for non-negative sales and a profit rate in [0.15, 0.25], the rounded profit lies in [0, sales] |
| `SalesData.OrdersWithinSales` | src/data/salesData.ts:32 | for non-negative sales and an order size in [80, 120), the rounded order count lies in [0, sales] |
| `SalesData.SalesNonNegative` | src/data/salesData.ts:24-30 | a non-negative base amount with the multiplier and variation ranges never gives a negative rounded sales figure |
| `SalesData.SalesPositive` | src/data/salesData.ts:24-30 | a base amount of at least 1 with the multiplier and variation ranges gives a rounded sales figure of at least 1 |
| `SalesData.GeneratedRecordsWellFormed` | src/data/salesData.ts:23-41 | every generated record has 0 <= profit <= sales and 0 <= orders <= sales when the base amount is non-negative |
| `SalesData.GeneratedSalesPositive` | src/data/salesData.ts:23-41 | every generated month sells at least one unit when the base amount is at least 1 |
| `SalesData.SumSnoc` | src/data/salesData.ts:69-71 | adding a record at the end of the data adds its field to the sum, the step a left fold takes |
| `SalesData.ReduceSum` | src/data/salesData.ts:69-71 | the `reduce` left fold from 0 computes the sum of the field over the data |
| `SalesData.FoldSumIsSum` | src/data/salesData.ts:69-71 | the left fold of a field from an accumulator gives the accumulator plus the sum of the field |
| `SalesData.ComputeTotals` | src/data/salesData.ts:67-72 | the totals pass keeps year and data, sets each total to the sum of its field over the data, and yields the same year that the collection holds |
| `SalesData.WithTotals` | src/data/salesData.ts:67-72 | a year totalled by three left folds from zero keeps its year and data, and its three totals equal the sums over the data |
| `SalesData.TotalsBoundedBySales` | src/data/salesData.ts:68-72 | over well-formed records, total profit and total orders lie in [0, total sales] |
| `SalesData.TotalSalesAtLeastLength` | src/data/salesData.ts:69 | when every month sells at least one unit, total sales are at least the number of months |
| `SalesData.AllYearsData` | src/data/salesData.ts:43-74 | the collection has exactly three entries, with years 2024, 2023, 2022 in that order; each entry's data is the generator's output for its year with base amount 285000, 245000 or 198000 and its own draws; the first is the 2024 data set; each has 12 records and consistent totals |
| `SalesData.AllYearsWellFormed` | src/data/salesData.ts:43-74 | every year of the collection has well-formed records, total sales of at least 12, and total profit and total orders within [0, total sales] |
| `SalesChart.SetChartType` | src/components/organisms/SalesChart.tsx:148 | choosing a chart type sets it and keeps the threshold |
| `SalesChart.SetThreshold` | src/components/organisms/SalesChart.tsx:151 | entering a threshold sets it as given and keeps the chart type |
| `SalesChart.Filter` | src/components/organisms/SalesChart.tsx:38-40 | the filtered data is no longer than the data and holds exactly those records of the data whose sales reach the threshold |
| `SalesChart.FilterIsSubsequence` | src/components/organisms/SalesChart.tsx:39 | the filtered data is a subsequence of the year's data, in original order |
| `SalesChart.FilterAppend` | src/components/organisms/SalesChart.tsx:39 | filtering a concatenation is the concatenation of the filtered parts, so each month is decided on its own |
| `SalesChart.FilterKeepsAll` | src/components/organisms/SalesChart.tsx:39 | when every record reaches the threshold, the filter returns the data unchanged |
| `SalesChart.FilterDropsAll` | src/components/organisms/SalesChart.tsx:39 | when no record reaches the threshold, the filter returns nothing |
| `SalesChart.FilterIdempotent` | src/components/organisms/SalesChart.tsx:39 | filtering the filtered data again with the same threshold changes nothing |
| `SalesChart.FilterMonotone` | src/components/organisms/SalesChart.tsx:39 | for t1 <= t2, the result for t2 is the t1 result filtered again, a subsequence of it and no longer |
| `SalesChart.InitialThresholdShowsAllMonths` | src/components/organisms/SalesChart.tsx:36-39 | with the initial threshold 0, all 12 generated records are kept unchanged |
| `SalesChart.FilterExample` | src/components/organisms/SalesChart.tsx:39 | months with sales 100, 50, 200 under threshold 75 give the first and third month, in that order |
| `SalesChart.PieData` | src/components/organisms/SalesChart.tsx:42-47 | the pie data has one entry per filtered record, and entry i has the name `month` and the value `sales` of record i |
| `SalesChart.PieTotalIsSalesTotal` | src/components/organisms/SalesChart.tsx:111-119 | the values of the pie slices sum to the total sales of the filtered records |
| `SalesChart.CellColorIndex` | src/components/organisms/SalesChart.tsx:122 | the colour index of a pie cell lies in [0, 5) and differs from the cell index by a multiple of 5 |
| `SalesChart.ColorsCycle` | src/components/organisms/SalesChart.tsx:26-32 | the cell colours repeat every five cells, and any five consecutive cells get five different colours |
| `SalesChart.RenderChart` | src/components/organisms/SalesChart.tsx:49-136 | the dispatch draws a bar chart, a line chart or a pie chart exactly when the chart type is bar, line or pie; bar and line draw the filtered data, pie draws the pie projection of the filtered data |
| `SalesChart.RenderShowsFilteredMonths` | src/components/organisms/SalesChart.tsx:145 | every chart draws as many points as the header's "months shown" count; bar and line draw a subsequence of the data; pie slice i is named after filtered month i |
| `SalesChart.ChartTypeKeepsMonths` | src/components/organisms/SalesChart.tsx:35-40 | switching the chart type never changes the filtered months, and switching back restores the chart state |
| `Dashboard.FindIndex` | src/pages/Dashboard.tsx:28-29 | the lookup finds no position exactly when no entry has the year; otherwise it returns the first position holding the year |
| `Dashboard.Find` | src/pages/Dashboard.tsx:28-29 | `find` fails exactly when no entry has the year; otherwise it returns the first entry with that year |
| `Dashboard.CurrentYearData` | src/pages/Dashboard.tsx:11 | the shown data set is the first entry of the selected year when one exists, and otherwise the fallback |
| `Dashboard.MissingYearFallsBackTo2024` | src/pages/Dashboard.tsx:11 | selecting a year outside the collection shows the 2024 data set, the collection's first entry, and does not fail |
| `Dashboard.CalculateGrowth` | src/pages/Dashboard.tsx:26-35 | 2022, and only 2022, gets the fixed +12.5; for any other year the result is "N/A" exactly when the year or year - 1 is missing; a computed result needs both years |
| `Dashboard.GrowthSign` | src/pages/Dashboard.tsx:33-34 | with both years present and a positive previous total, the growth is positive exactly on a rise and negative exactly on a fall; the '+' prefix appears exactly on a rise |
| `Dashboard.ZeroPreviousGrowth` | src/pages/Dashboard.tsx:33-34 | with both years present and a previous total of zero, the growth is unbounded, and the '+' prefix appears exactly when the current total is positive |
| `Dashboard.Growth2022IgnoresData` | src/pages/Dashboard.tsx:27 | the 2022 growth is the same "+12.5%" for every collection |
| `Dashboard.ComparisonPanels` | src/pages/Dashboard.tsx:98-105 | there is one panel per entry, in collection order, with that entry's year and totals; a panel is highlighted exactly when its year is the selected year |
| `Dashboard.HighlightMatchesCurrentYear` | src/pages/Dashboard.tsx:98-105 | with unique years, a present selection highlights exactly one panel, the one for the shown data set; a missing selection highlights none and shows the fallback |
| `Dashboard.Step` | src/pages/Dashboard.tsx:48 | selecting a year changes only the selected year; choosing a chart type or entering a threshold changes only that part of the chart state |
| `Dashboard.InitialRender` | src/components/organisms/SalesChart.tsx:35-39 | the page opens on 2024, and for a year without negative sales its first chart is a bar chart of every month in order |
| `Dashboard.BarPieBarRoundTrip` | src/components/organisms/SalesChart.tsx:35 | switching from bar to pie and back to bar restores the state exactly, including threshold and selected year |
| `Dashboard.ReferenceCollection` | src/pages/Dashboard.tsx:26-35 | over the generated collection: years are unique; 2024 and 2023 get a computed growth whose '+' marks a rise; 2022 gets the placeholder; other years are "N/A"; the initial state shows the 2024 data set |

## Left out

- Rendering: JSX, recharts, the card, button, select and input primitives, and the icons. The model keeps only the data that each chart kind consumes (`ChartView`).
- `Math.random`. Its values are parameters (`MonthDraws`), each assumed to lie in [0, 1) as `Math.random` guarantees.
- IEEE-754 floating point. Sums, products and quotients are exact over `real`, so the model does not round intermediate products.
- The `toFixed` and `Intl.NumberFormat` strings. The growth badge is a `Growth` value plus `PlusPrefix` for its leading '+'.
- Dashboard.CalculateGrowth: a zero previous total is `Unbounded(difference)`. JavaScript would produce plus or minus Infinity, or NaN when the difference is also zero; the model keeps only the sign that decides the '+' prefix.
- The margin, average-per-month and average-order-value figures (src/pages/Dashboard.tsx:74, 81, 86). These are float display values. The average order value divides by `totalOrders` without a guard.
- The fixed "+3.2%" trend text of the average-order-value card.
- `Number(e.target.value)` coercion of the threshold field, and the NaN threshold it can produce, which hides every month. The threshold is a `real`.
- The `trendUp={true}` flags. They are constants and do not depend on the growth sign.
