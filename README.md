# Sales dashboard aggregation, modelled in Dafny

The dashboard draws customer sales from a static dataset on three charts. This project models the logic under those charts:

- the **line chart** (`LineChartComponent`) shows per-date sales totals of `price`;
- the **average chart** (`ChartComponent`) shows per-date mean `ticketSize`;
- the **bar chart** (`BarChartComponent`) shows total `ticketPrice` split into in-store and online sales.

The line and average charts draw two series: all customers, and loyalty customers only. They also show two range totals and have a date-window selector.

Modules:

- `Records` (`records.dfy`): the `Customer` record, the range totals `Total`/`Count`, and the `setTotals` accumulation loop. The line and average charts share that loop.
- `Grouping` (`grouping.dfy`): `mergeDates` and the loop that fills `groupedByDate`. Both are written identically in the line and average charts, so they are defined once here. Records are grouped by their exact date string. A JavaScript object visits its string keys in `for…in` in insertion order, so the keys are kept as a sequence next to the dictionary, in first-occurrence order.
- `DateWindow` (`window.dfy`): the strict `date > threshold` filter (`After`) and the three branches of `updateChartDate`. `selectedDateOption` is a preset month count (≥ 0), -1 for all time, and anything else for the custom value. `CutoffFor` picks the branch.
- `LineChart`, `Chart`, `BarChart`: one module per component. Each has a class whose fields are the component's fields. The chart's `data.labels` and `datasets[i].data` become the fields `labels`, `allSeries` and `loyaltySeries`.

One behaviour of the source is modelled on purpose. In `updateChartDate`, the totals and the labels come from the filtered records, but both series still come from the full `customers` list. After a window that drops dates, label i can therefore sit on the value of a different date. `LineChart.WindowedLabelsMisalign` runs a line-chart component through such a window.

In both charts, a date's loyalty entry is null when the date's loyalty **sum** is zero: `loyaltySum === 0` in the totals chart (src/app/line-chart/line-chart.component.ts:126-128) and `sum !== 0` in the average chart (src/app/chart/chart.component.ts:133-140). The test is not whether the date has loyalty records. A date whose loyalty sales sum to zero therefore shows a gap even though loyalty records exist on it (`LineChart.ZeroLoyaltySumIsAGap`, `Chart.ZeroLoyaltySumIsAGap`, and the first ensures of `Chart.LoyaltyAverage`).

Abstractions:

- amounts are exact `real`s;
- `ts: int` stands for the time value in milliseconds of `new Date(customer.date)`;
- the clock and calendar arithmetic (`new Date()`, `setMonth(getMonth() - n)`) become a parameter `monthsBefore: int -> int`. It gives the time value in milliseconds that `setMonth` computes for "n months ago", before clipping. As in ECMAScript, a value outside the time range of ±8.64e15 ms (`MaxTime`) turns the date into an Invalid Date (`Threshold`). A custom value such as `"4000000"` is therefore accepted by `onSearch` but gives an empty window;
- `customDateValue` is a `DateEntry`: `Blank` for `''`, `Numeric(n)` for a string whose `Number(...)` is the integer n, and `NotANumber` when `Number(...)` is NaN. In the custom branch, `Blank` counts as 0 months. `NotANumber` gives an Invalid Date. Every comparison with an Invalid Date is false, so such a window keeps no record.

## Model

| member | source | states |
|---|---|---|
| Records.SumTotals | src/app/line-chart/line-chart.component.ts:61-74 | the one-pass loop of `setTotals` (the same loop as src/app/chart/chart.component.ts:60-73) returns the sum of the amount over all records and over the `hasLoyalty` records; both are 0 for an empty input |
| Records.InStorePlusOnline | src/app/bar-chart/bar-chart.component.ts:59-77 | the in-store total plus the online total equals the total over all records |
| Records.NonZeroTotalHasSelected | src/app/chart/chart.component.ts:125-141 | a non-zero loyalty sum implies at least one loyalty record, so `sum / loyaltyCount` never divides by zero |
| Records.NoSelectedZeroTotal | src/app/line-chart/line-chart.component.ts:117-128 | with no loyalty record the loyalty sum is 0, so such a date always gets the null entry |
| Grouping.MergeDates | src/app/line-chart/line-chart.component.ts:88-96 | the `mergeDates` loop (also at src/app/chart/chart.component.ts:87-95) returns `DistinctDates(data)`, which holds a date exactly when some record has that date |
| Grouping.DistinctDatesMembers | src/app/line-chart/line-chart.component.ts:88-96 | the de-duplicated dates are exactly the input dates, none twice, and there are no more of them than records |
| Grouping.DateListMembers | src/app/line-chart/line-chart.component.ts:90-91 | a date is listed exactly when some record at some index carries it |
| Grouping.DistinctDatesPrefix | src/app/line-chart/line-chart.component.ts:90-94 | the de-duplicated dates of a prefix of the input form a prefix of the de-duplicated dates of the whole input; later records only append |
| Grouping.DistinctDatesOrder | src/app/line-chart/line-chart.component.ts:90-94 | first-occurrence order: if date a occurs among the first p records and date b does not, a comes before b in the result |
| Grouping.OnDatePresent | src/app/chart/chart.component.ts:114-122 | every date of the input has at least one record, so `sum / groupedByDate[key].length` never divides by zero |
| Grouping.GroupByDate | src/app/line-chart/line-chart.component.ts:105-113 | filling `groupedByDate` (also at src/app/chart/chart.component.ts:104-112) yields the keys in first-occurrence order (`DistinctDates`); each key maps to exactly the records of that date, in input order |
| Grouping.GroupTotalsPartition | src/app/line-chart/line-chart.component.ts:107-129 | summed over all dates, the per-date totals (all-customer or loyalty) equal the range total over the input: grouping loses no record and counts none twice |
| DateWindow.CutoffFor | src/app/line-chart/line-chart.component.ts:144-190 | option ≥ 0 compares against "option months ago"; option -1 is all time; an accepted custom search compares against "value months ago"; every threshold compared against lies in the time range; the window is an Invalid Date exactly when the custom value is NaN or the month offset moves the date out of the time range |
| DateWindow.AfterContents | src/app/line-chart/line-chart.component.ts:151-154 | the filter keeps every occurrence of each record whose timestamp is strictly after the threshold, and drops all the others |
| DateWindow.AfterAppend | src/app/line-chart/line-chart.component.ts:151-154 | filtering distributes over concatenation, so the kept records stay in their original order |
| DateWindow.ThresholdIsStrict | src/app/line-chart/line-chart.component.ts:151-154 | in any input, a record stamped exactly at the threshold is excluded and one stamped a tick later is included |
| DateWindow.WindowContents | src/app/line-chart/line-chart.component.ts:139-190 | every window is a sub-multiset of the customers; the all-time window is the customers unchanged; a dated window holds exactly the customers after its threshold |
| LineChart.SalesPerKey | src/app/line-chart/line-chart.component.ts:115-129 | for each key, in key order, the record holds the group's price sum, and the loyalty entry is null when the group's loyalty sum is 0 and that sum otherwise |
| LineChart.GetSaleTotalByDate | src/app/line-chart/line-chart.component.ts:99-135 | both results have one entry per distinct date, in first-occurrence order; entry i's total is the price sum on that date; the loyalty entry is null exactly when the loyalty price sum is 0, and otherwise holds that sum |
| LineChart.ZeroLoyaltySumIsAGap | src/app/line-chart/line-chart.component.ts:115-129 | any date whose loyalty records sum to zero price is a date of the chart and gets a null loyalty entry, because absence is tested by sum and not by count |
| LineChart.WindowedLabelsMisalign | src/app/line-chart/line-chart.component.ts:138-201 | a line-chart component over two dates, after a preset window that drops the first date, shows the second date as its only label while the first point of its series is still the first date's total |
| LineChart.LineChartComponent.constructor | src/app/line-chart/line-chart.component.ts:31-50 | starts with all time selected and an empty custom value; totals, labels and series cover all customers; requires a non-empty dataset, whose first and last records are read |
| LineChart.LineChartComponent.SetTotals | src/app/line-chart/line-chart.component.ts:61-74 | sets `allCustomersTotal` to the price sum and `loyaltyCustomersTotal` to the loyalty price sum, and changes no other field |
| LineChart.LineChartComponent.CreateLineChart | src/app/line-chart/line-chart.component.ts:209-249 | the chart's labels are the distinct dates of all customers, and its two datasets are the per-date totals of all customers |
| LineChart.LineChartComponent.OnSearch | src/app/line-chart/line-chart.component.ts:53-58 | without a non-empty, positive custom value nothing changes; with one, the custom option (-2) is selected and the chart shows the records after "value months ago", or none when that date is out of the time range |
| LineChart.LineChartComponent.UpdateChartDate | src/app/line-chart/line-chart.component.ts:138-201 | keeps the selected option; clears the custom value for the preset and all-time options; totals and labels then cover the selected window, and the series cover all customers |
| Chart.GroupAverage | src/app/chart/chart.component.ts:119-122 | the mean ticket size of a date, times its record count, gives back the date's ticket sum |
| Chart.LoyaltyAverage | src/app/chart/chart.component.ts:125-141 | absent exactly when the loyalty sum is 0, and always absent without loyalty records; when present it is a mean over at least one loyalty record, and times their count it gives back the loyalty sum |
| Chart.SumTickets | src/app/chart/chart.component.ts:115-118 | the first inner loop returns the ticket-size sum of one group |
| Chart.SumLoyaltyTickets | src/app/chart/chart.component.ts:126-133 | the second inner loop returns the loyalty ticket-size sum and the loyalty record count of one group; the count is ≥ 1 whenever the sum is non-zero |
| Chart.AverageAllSales | src/app/chart/chart.component.ts:114-123 | one mean per key, in key order, each over a non-empty group |
| Chart.AverageLoyaltySales | src/app/chart/chart.component.ts:125-142 | one loyalty entry per key, in key order: null when the loyalty sum is 0, and the loyalty mean otherwise |
| Chart.GetAverages | src/app/chart/chart.component.ts:98-148 | both results have one entry per distinct date, in first-occurrence order, holding that date's mean and its loyalty mean or null |
| Chart.ZeroLoyaltySumIsAGap | src/app/chart/chart.component.ts:124-141 | any date whose loyalty records sum to zero ticket size is a date of the chart and gets a null loyalty mean, because absence is tested by sum and not by count |
| Chart.TwoDayExample | src/app/chart/chart.component.ts:106-147 | two sales on one day (one loyalty) and one on the next give means 75 and 200, loyalty means 50 and a gap, and range totals 350 and 50 |
| Chart.ChartComponent.constructor | src/app/chart/chart.component.ts:30-49 | starts with all time selected and an empty custom value; totals, labels and series cover all customers; requires a non-empty dataset |
| Chart.ChartComponent.SetTotals | src/app/chart/chart.component.ts:60-73 | sets `allCustomersTotal` to the ticket-size sum and `loyaltyCustomersTotal` to the loyalty ticket-size sum, and changes no other field |
| Chart.ChartComponent.SetSeries | src/app/chart/chart.component.ts:205-211 | the datasets become the per-date means and loyalty means of all customers |
| Chart.ChartComponent.CreateChart | src/app/chart/chart.component.ts:221-255 | the chart's labels are the distinct dates of all customers, and its datasets are the per-date means of all customers |
| Chart.ChartComponent.OnSearch | src/app/chart/chart.component.ts:52-57 | without a non-empty, positive custom value nothing changes; with one, the custom option (-2) is selected and the chart shows the records after "value months ago", or none when that date is out of the time range |
| Chart.ChartComponent.UpdateChartDate | src/app/chart/chart.component.ts:151-213 | keeps the selected option; clears the custom value for the preset and all-time options; totals and labels cover the selected window, and the series cover all customers |
| BarChart.GetInStoreTotal | src/app/bar-chart/bar-chart.component.ts:59-67 | returns the sum of `ticketPrice` over the in-store sales; 0 on empty input |
| BarChart.GetOnlineTotal | src/app/bar-chart/bar-chart.component.ts:69-77 | returns the sum of `ticketPrice` over the sales that are not in-store; 0 on empty input |
| BarChart.AppendMovesOneChannel | src/app/bar-chart/bar-chart.component.ts:59-77 | appending one sale raises exactly one of the two channel totals, by its ticket price, and leaves the other unchanged |
| BarChart.BarChartComponent.constructor | src/app/bar-chart/bar-chart.component.ts:35-45 | `inStoreTotal` and `onlineTotal` are the two channel totals of all customers, and together they make up the total ticket price |

## Left out

- Chart.js: chart construction, `chart.update()`, `resetZoom`, gradients, colours, and the zoom and pan options are a foreign rendering library. Only the labels and dataset values are kept, as fields.
- `setDates` and the `startDate`/`endDate` labels: month names come from the locale-dependent `toLocaleString`. Only their precondition is kept: the dataset must be non-empty, because the first and last records are read.
- JavaScript `Date`: parsing, `new Date()` and `setMonth` calendar rollover are replaced by the abstract timestamp `ts` and the `monthsBefore` parameter. Unparseable record dates (Invalid Date per record) are not modelled.
- Logging: the `console.log` of the custom value in the average chart's custom branch is not modelled.
- `Number(...)` coercion: only integer entries, the empty string and NaN are modelled. Fractional entries such as `"1.5"` are not.
- DateWindow.CutoffFor: a custom value of `"Infinity"` is not a `DateEntry`. `onSearch` accepts it and `setMonth` makes it an Invalid Date, so its empty window is not covered.
- Floating point: sums and means are exact reals, so IEEE-754 rounding is not captured.
- Dictionary keys: `groupedByDate` is a plain object. Integer-like keys would be visited in numeric order, and inherited names such as `"constructor"` would be truthy before any push. The model assumes ordinary date strings.
- `selectedDateOption` is set by the page template, which is not part of this model. It is a public field here, and the model does not say when a preset is chosen.
- The bar chart's `selectedDateOption`/`customDateValue` fields are never read in its code, so they are not modelled.
- `customerData` is treated as fixed after the component starts (`customers` is a `const`).
- The pie chart, bubble chart, HTTP data service, app root and the zoom-plugin typing contain no aggregation logic.
- Angular decorators and lifecycle: `ngAfterViewInit` is folded into each class's constructor.
