/** The sales-total line chart: per-date sums of `price` for all customers and
    for loyalty customers, plus range totals, over a selectable date window. */
module LineChart {
  import opened Records
  import opened Grouping
  import opened DateWindow

  datatype TotalSales = TotalSales(date: string, total: real)

  /** The loyalty point of one date: null when the loyalty sum is zero. */
  function LoyaltyPoint(date: string, loyaltySum: real): Option<TotalSales>
  {
    if loyaltySum == 0.0 then None else Some(TotalSales(date, loyaltySum))
  }

  /** The loop over the keys of `groupedByDate`: one pass per group summing the
      prices of all records and of loyalty records. */
  method SalesPerKey(data: seq<Customer>, keys: seq<string>, groupedByDate: map<string, seq<Customer>>)
    returns (allSales: seq<TotalSales>, loyaltySales: seq<Option<TotalSales>>)
    requires forall d :: d in keys ==> d in groupedByDate && groupedByDate[d] == OnDate(data, d)
    ensures |allSales| == |keys| && |loyaltySales| == |keys|
    ensures forall i :: 0 <= i < |keys| ==>
      allSales[i] == TotalSales(keys[i], DateTotal(data, keys[i], Price, AllCustomers))
    ensures forall i :: 0 <= i < |keys| ==>
      loyaltySales[i] == LoyaltyPoint(keys[i], DateTotal(data, keys[i], Price, LoyaltyCustomers))
  {
    allSales, loyaltySales := [], [];
    for k := 0 to |keys|
      invariant |allSales| == k && |loyaltySales| == k
      invariant forall i :: 0 <= i < k ==>
        allSales[i] == TotalSales(keys[i], DateTotal(data, keys[i], Price, AllCustomers))
      invariant forall i :: 0 <= i < k ==>
        loyaltySales[i] == LoyaltyPoint(keys[i], DateTotal(data, keys[i], Price, LoyaltyCustomers))
    {
      var key := keys[k];
      var allSum, loyaltySum := SumTotals(groupedByDate[key], Price);
      allSales := allSales + [TotalSales(key, allSum)];
      loyaltySales := loyaltySales + [LoyaltyPoint(key, loyaltySum)];
    }
  }

  /** `getSaleTotalByDate`: group by date, then total each group. */
  method GetSaleTotalByDate(data: seq<Customer>) returns (allCustomers: seq<TotalSales>, loyaltyCustomers: seq<Option<TotalSales>>)
    ensures |allCustomers| == |DistinctDates(data)| && |loyaltyCustomers| == |allCustomers|
    ensures forall i :: 0 <= i < |allCustomers| ==>
      allCustomers[i].date == DistinctDates(data)[i] &&
      allCustomers[i].total == DateTotal(data, DistinctDates(data)[i], Price, AllCustomers)
    ensures forall i :: 0 <= i < |loyaltyCustomers| ==>
      (loyaltyCustomers[i].None? <==> DateTotal(data, DistinctDates(data)[i], Price, LoyaltyCustomers) == 0.0)
    ensures forall i :: 0 <= i < |loyaltyCustomers| && loyaltyCustomers[i].Some? ==>
      loyaltyCustomers[i].value == TotalSales(DistinctDates(data)[i], DateTotal(data, DistinctDates(data)[i], Price, LoyaltyCustomers))
  {
    var keys, groupedByDate := GroupByDate(data);
    allCustomers, loyaltyCustomers := SalesPerKey(data, keys, groupedByDate);
  }

  /** `allCustomers.map(val => val.total)`. */
  function Totals(s: seq<TotalSales>): (r: seq<real>)
    ensures |r| == |s| && forall i :: 0 <= i < |s| ==> r[i] == s[i].total
  {
    seq(|s|, i requires 0 <= i < |s| => s[i].total)
  }

  /** `loyaltyCustomers.map(val => val?.total)`: a null entry becomes a gap. */
  function LoyaltyTotals(s: seq<Option<TotalSales>>): (r: seq<Option<real>>)
    ensures |r| == |s|
    ensures forall i :: 0 <= i < |s| ==> (r[i].None? <==> s[i].None?)
    ensures forall i :: 0 <= i < |s| && s[i].Some? ==> r[i] == Some(s[i].value.total)
  {
    seq(|s|, i requires 0 <= i < |s| => if s[i].Some? then Some(s[i].value.total) else None)
  }

  /** The two datasets of the chart hold, date by date in first-occurrence
      order, the sales total of `data` and its loyalty total (a gap when zero). */
  ghost predicate IsSeries(data: seq<Customer>, allSeries: seq<real>, loyaltySeries: seq<Option<real>>)
  {
    var keys := DistinctDates(data);
    |allSeries| == |keys| && |loyaltySeries| == |keys| &&
    (forall i :: 0 <= i < |keys| ==> allSeries[i] == DateTotal(data, keys[i], Price, AllCustomers)) &&
    (forall i :: 0 <= i < |keys| ==>
      loyaltySeries[i] ==
        var loyaltySum := DateTotal(data, keys[i], Price, LoyaltyCustomers);
        if loyaltySum == 0.0 then None else Some(loyaltySum))
  }

  class LineChartComponent {
    /** `customerData.customers`, the full dataset. */
    const customers: seq<Customer>
    var selectedDateOption: int
    var customDateValue: DateEntry
    var allCustomersTotal: real
    var loyaltyCustomersTotal: real
    /** `lineChart.data.labels` and the `data` of its two datasets. */
    var labels: seq<string>
    var allSeries: seq<real>
    var loyaltySeries: seq<Option<real>>

    /** The component shows `data` in its totals and labels; the series always
        come from the full `customers`. */
    ghost predicate Shows(data: seq<Customer>)
      reads this
    {
      allCustomersTotal == Total(data, Price, AllCustomers) &&
      loyaltyCustomersTotal == Total(data, Price, LoyaltyCustomers) &&
      labels == DistinctDates(data) &&
      IsSeries(customers, allSeries, loyaltySeries)
    }

    /** Field defaults, then `ngAfterViewInit`: totals and chart over all
        customers. The date labels it also sets read the first and the last
        record, so the dataset must not be empty. */
    constructor (customers: seq<Customer>)
      requires |customers| > 0
      ensures this.customers == customers
      ensures selectedDateOption == -1 && customDateValue == Blank
      ensures Shows(customers)
    {
      this.customers := customers;
      selectedDateOption := -1;
      customDateValue := Blank;
      new;
      SetTotals(customers);
      CreateLineChart();
    }

    method SetTotals(data: seq<Customer>)
      modifies this`allCustomersTotal, this`loyaltyCustomersTotal
      ensures allCustomersTotal == Total(data, Price, AllCustomers)
      ensures loyaltyCustomersTotal == Total(data, Price, LoyaltyCustomers)
    {
      var allTotal, loyaltyTotal := SumTotals(data, Price);
      allCustomersTotal := allTotal;
      loyaltyCustomersTotal := loyaltyTotal;
    }

    /** The data part of `createLineChart`: labels and both series from all customers. */
    method CreateLineChart()
      modifies this`labels, this`allSeries, this`loyaltySeries
      ensures labels == DistinctDates(customers)
      ensures IsSeries(customers, allSeries, loyaltySeries)
    {
      var saleTotalByDate, loyaltyByDate := GetSaleTotalByDate(customers);
      labels := MergeDates(customers);
      allSeries := Totals(saleTotalByDate);
      loyaltySeries := LoyaltyTotals(loyaltyByDate);
    }

    /** `onSearch`: only a non-empty, positive custom value selects the custom
        window and refreshes; otherwise nothing changes. */
    method OnSearch(monthsBefore: int -> int)
      requires |customers| > 0
      modifies this
      ensures !SearchAccepted(old(customDateValue)) ==> unchanged(this)
      ensures SearchAccepted(old(customDateValue)) ==>
        selectedDateOption == -2 && customDateValue == old(customDateValue) &&
        Shows(Window(customers, Threshold(monthsBefore(old(customDateValue).value))))
    {
      if customDateValue != Blank && customDateValue.Numeric? && customDateValue.value > 0 {
        selectedDateOption := -2;
        UpdateChartDate(monthsBefore);
      }
    }

    /** `updateChartDate`: filter by the selected window (strictly after the
        threshold), reset the custom value unless it is in use, and refresh
        totals and labels from the filtered records and the series from all of them. */
    method UpdateChartDate(monthsBefore: int -> int)
      requires |customers| > 0
      modifies this
      ensures selectedDateOption == old(selectedDateOption)
      ensures customDateValue == if ClearsCustomValue(old(selectedDateOption)) then Blank else old(customDateValue)
      ensures Shows(Window(customers, CutoffFor(old(selectedDateOption), old(customDateValue), monthsBefore)))
    {
      var data := customers;
      var saleTotalByDate, loyaltyByDate := GetSaleTotalByDate(customers);
      if selectedDateOption >= 0 {
        customDateValue := Blank;
        data := Window(data, Threshold(monthsBefore(selectedDateOption)));
      } else if selectedDateOption == -1 {
        customDateValue := Blank;
      } else {
        match customDateValue
        case Blank => data := Window(data, Threshold(monthsBefore(0)));
        case Numeric(n) => data := Window(data, Threshold(monthsBefore(n)));
        case NotANumber => data := [];
      }
      SetTotals(data);
      labels := MergeDates(data);
      allSeries := Totals(saleTotalByDate);
      loyaltySeries := LoyaltyTotals(loyaltyByDate);
    }
  }

  /** Because the absence test is "loyalty sum is zero" and not "no loyalty
      record", a date of the input whose loyalty sales sum to zero gets a gap
      although loyalty records exist on it. */
  lemma ZeroLoyaltySumIsAGap(data: seq<Customer>, d: string)
    requires Count(OnDate(data, d), LoyaltyCustomers) >= 1
    requires DateTotal(data, d, Price, LoyaltyCustomers) == 0.0
    ensures d in DistinctDates(data)
    ensures LoyaltyPoint(d, DateTotal(data, d, Price, LoyaltyCustomers)) == None
  {
    OnDateListed(data, d);
    DistinctDatesMembers(data);
  }

  /** Two records on two dates, and a preset three-month window whose
      threshold falls between them. */
  lemma TwoDateWindow(a: Customer, b: Customer, monthsBefore: int -> int)
    requires a == Customer("2024-01-01", 1, 100.0, 0.0, 0.0, false, true)
    requires b == Customer("2024-02-01", 2, 200.0, 0.0, 0.0, false, true)
    requires monthsBefore(3) == 1
    ensures Window([a, b], CutoffFor(3, Blank, monthsBefore)) == [b]
    ensures DistinctDates([b]) == ["2024-02-01"]
    ensures DistinctDates([a, b]) == ["2024-01-01", "2024-02-01"]
    ensures DateTotal([a, b], "2024-01-01", Price, AllCustomers) == 100.0
  {
    assert [a, b][..1] == [a];
    assert [a][..0] == [];
    assert After([a], 1) == [];
    assert After([a, b], 1) == [b];
    assert [b][..0] == [];
    assert b.date != a.date by { assert b.date[6] != a.date[6]; }
    assert OnDate([a], a.date) == [a];
    assert OnDate([a, b], a.date) == [a];
    assert Total([a], Price, AllCustomers) == Total([], Price, AllCustomers) + 100.0;
  }

  /** The component after a preset window that drops the first of two dates:
      the only label is the second date, while the first point of the series
      is still the first date's total. */
  method WindowedLabelsMisalign() returns (labels: seq<string>, firstPoint: real)
    ensures labels == ["2024-02-01"]
    ensures firstPoint == 100.0
  {
    var a := Customer("2024-01-01", 1, 100.0, 0.0, 0.0, false, true);
    var b := Customer("2024-02-01", 2, 200.0, 0.0, 0.0, false, true);
    var monthsBefore := (n: int) => 1;
    TwoDateWindow(a, b, monthsBefore);
    var chart := new LineChartComponent([a, b]);
    chart.selectedDateOption := 3;
    chart.UpdateChartDate(monthsBefore);
    assert chart.Shows([b]);
    assert IsSeries([a, b], chart.allSeries, chart.loyaltySeries);
    labels, firstPoint := chart.labels, chart.allSeries[0];
  }
}
