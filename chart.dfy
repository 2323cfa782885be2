/** The average-ticket line chart: per-date means of `ticketSize` for all
    customers and for loyalty customers, plus range totals, over a selectable
    date window. */
module Chart {
  import opened Records
  import opened Grouping
  import opened DateWindow

  datatype AverageSales = AverageSales(date: string, average: real)

  /** Mean ticket size of a non-empty group of records: the mean times the
      group size gives back the group's ticket sum. */
  function GroupAverage(group: seq<Customer>): (r: real)
    requires |group| >= 1
    ensures r * (|group| as real) == Total(group, TicketSize, AllCustomers)
  {
    Total(group, TicketSize, AllCustomers) / (|group| as real)
  }

  /** Mean loyalty ticket size of a group, or null (absent) when the loyalty
      sum is zero; a non-zero sum has at least one loyalty record to divide by. */
  function LoyaltyAverage(group: seq<Customer>): (r: Option<real>)
    ensures r.None? <==> Total(group, TicketSize, LoyaltyCustomers) == 0.0
    ensures Count(group, LoyaltyCustomers) == 0 ==> r.None?
    ensures r.Some? ==>
      Count(group, LoyaltyCustomers) >= 1 &&
      r.value * (Count(group, LoyaltyCustomers) as real) == Total(group, TicketSize, LoyaltyCustomers)
  {
    var sum := Total(group, TicketSize, LoyaltyCustomers);
    if sum == 0.0 then None
    else
      NonZeroTotalHasSelected(group, TicketSize, LoyaltyCustomers);
      Some(sum / (Count(group, LoyaltyCustomers) as real))
  }

  /** The first `forEach` of `getAverages`: the ticket sum of one group. */
  method SumTickets(group: seq<Customer>) returns (sum: real)
    ensures sum == Total(group, TicketSize, AllCustomers)
  {
    sum := 0.0;
    for j := 0 to |group|
      invariant sum == Total(group[..j], TicketSize, AllCustomers)
    {
      assert group[..j + 1] == group[..j] + [group[j]];
      TotalSnoc(group[..j], group[j], TicketSize, AllCustomers);
      sum := sum + group[j].ticketSize;
    }
    assert group[..|group|] == group;
  }

  /** The second `forEach` of `getAverages`: the loyalty ticket sum of one
      group and the number of loyalty records in it. */
  method SumLoyaltyTickets(group: seq<Customer>) returns (sum: real, loyaltyCount: nat)
    ensures sum == Total(group, TicketSize, LoyaltyCustomers)
    ensures loyaltyCount == Count(group, LoyaltyCustomers)
    ensures sum != 0.0 ==> loyaltyCount >= 1
  {
    sum, loyaltyCount := 0.0, 0;
    for j := 0 to |group|
      invariant sum == Total(group[..j], TicketSize, LoyaltyCustomers)
      invariant loyaltyCount == Count(group[..j], LoyaltyCustomers)
    {
      assert group[..j + 1] == group[..j] + [group[j]];
      assert group[..j + 1][..j] == group[..j];
      TotalSnoc(group[..j], group[j], TicketSize, LoyaltyCustomers);
      if group[j].hasLoyalty {
        sum := sum + group[j].ticketSize;
        loyaltyCount := loyaltyCount + 1;
      }
    }
    assert group[..|group|] == group;
    if sum != 0.0 {
      NonZeroTotalHasSelected(group, TicketSize, LoyaltyCustomers);
    }
  }

  /** The loyalty entry of one date: its date paired with the loyalty mean, or null. */
  function LoyaltyEntry(date: string, average: Option<real>): Option<AverageSales>
  {
    match average
    case None => None
    case Some(v) => Some(AverageSales(date, v))
  }

  /** The first loop over the keys of `groupedByDate`. */
  method AverageAllSales(data: seq<Customer>, keys: seq<string>, groupedByDate: map<string, seq<Customer>>)
    returns (averageAllSales: seq<AverageSales>)
    requires forall d :: d in keys ==> d in groupedByDate && groupedByDate[d] == OnDate(data, d) && d in DateList(data)
    ensures |averageAllSales| == |keys|
    ensures forall i :: 0 <= i < |keys| ==>
      |OnDate(data, keys[i])| >= 1 &&
      averageAllSales[i] == AverageSales(keys[i], GroupAverage(OnDate(data, keys[i])))
  {
    averageAllSales := [];
    for k := 0 to |keys|
      invariant |averageAllSales| == k
      invariant forall i :: 0 <= i < k ==>
        |OnDate(data, keys[i])| >= 1 &&
        averageAllSales[i] == AverageSales(keys[i], GroupAverage(OnDate(data, keys[i])))
    {
      var key := keys[k];
      var group := groupedByDate[key];
      var sum := SumTickets(group);
      OnDatePresent(data, key);
      averageAllSales := averageAllSales + [AverageSales(key, sum / (|group| as real))];
    }
  }

  /** The second loop over the keys of `groupedByDate`. */
  method AverageLoyaltySales(data: seq<Customer>, keys: seq<string>, groupedByDate: map<string, seq<Customer>>)
    returns (averageLoyaltySales: seq<Option<AverageSales>>)
    requires forall d :: d in keys ==> d in groupedByDate && groupedByDate[d] == OnDate(data, d)
    ensures |averageLoyaltySales| == |keys|
    ensures forall i :: 0 <= i < |keys| ==>
      averageLoyaltySales[i] == LoyaltyEntry(keys[i], LoyaltyAverage(OnDate(data, keys[i])))
  {
    averageLoyaltySales := [];
    for k := 0 to |keys|
      invariant |averageLoyaltySales| == k
      invariant forall i :: 0 <= i < k ==>
        averageLoyaltySales[i] == LoyaltyEntry(keys[i], LoyaltyAverage(OnDate(data, keys[i])))
    {
      var key := keys[k];
      var group := groupedByDate[key];
      var sum, loyaltyCount := SumLoyaltyTickets(group);
      if sum != 0.0 {
        averageLoyaltySales := averageLoyaltySales + [Some(AverageSales(key, sum / (loyaltyCount as real)))];
      } else {
        averageLoyaltySales := averageLoyaltySales + [None];
      }
    }
  }

  /** `getAverages`: group by date; a first pass over the groups sums every
      ticket and divides by the group size, a second sums and counts the
      loyalty tickets and divides only when the sum is non-zero. */
  method GetAverages(data: seq<Customer>) returns (allCustomers: seq<AverageSales>, loyaltyCustomers: seq<Option<AverageSales>>)
    ensures |allCustomers| == |DistinctDates(data)| && |loyaltyCustomers| == |allCustomers|
    ensures forall i :: 0 <= i < |allCustomers| ==>
      |OnDate(data, DistinctDates(data)[i])| >= 1 &&
      allCustomers[i] == AverageSales(DistinctDates(data)[i], GroupAverage(OnDate(data, DistinctDates(data)[i])))
    ensures forall i :: 0 <= i < |loyaltyCustomers| ==>
      loyaltyCustomers[i] == LoyaltyEntry(DistinctDates(data)[i], LoyaltyAverage(OnDate(data, DistinctDates(data)[i])))
  {
    var keys, groupedByDate := GroupByDate(data);
    DistinctDatesMembers(data);
    allCustomers := AverageAllSales(data, keys, groupedByDate);
    loyaltyCustomers := AverageLoyaltySales(data, keys, groupedByDate);
  }

  /** `averages.allCustomers.map(val => val.average)`. */
  function Averages(s: seq<AverageSales>): (r: seq<real>)
    ensures |r| == |s| && forall i :: 0 <= i < |s| ==> r[i] == s[i].average
  {
    seq(|s|, i requires 0 <= i < |s| => s[i].average)
  }

  /** `averages.loyaltyCustomers.map(val => val?.average)`: a null entry becomes a gap. */
  function LoyaltyAverages(s: seq<Option<AverageSales>>): (r: seq<Option<real>>)
    ensures |r| == |s|
    ensures forall i :: 0 <= i < |s| ==> (r[i].None? <==> s[i].None?)
    ensures forall i :: 0 <= i < |s| && s[i].Some? ==> r[i] == Some(s[i].value.average)
  {
    seq(|s|, i requires 0 <= i < |s| => if s[i].Some? then Some(s[i].value.average) else None)
  }

  /** The two datasets of the chart hold, date by date in first-occurrence
      order, the mean ticket of `data` and its loyalty mean (a gap when the
      loyalty sum is zero). */
  ghost predicate IsSeries(data: seq<Customer>, allSeries: seq<real>, loyaltySeries: seq<Option<real>>)
  {
    var keys := DistinctDates(data);
    |allSeries| == |keys| && |loyaltySeries| == |keys| &&
    (forall i :: 0 <= i < |keys| ==>
      |OnDate(data, keys[i])| >= 1 && allSeries[i] == GroupAverage(OnDate(data, keys[i]))) &&
    (forall i :: 0 <= i < |keys| ==> loyaltySeries[i] == LoyaltyAverage(OnDate(data, keys[i])))
  }

  class ChartComponent {
    /** `customerData.customers`, the full dataset. */
    const customers: seq<Customer>
    var selectedDateOption: int
    var customDateValue: DateEntry
    var allCustomersTotal: real
    var loyaltyCustomersTotal: real
    /** `chart.data.labels` and the `data` of its two datasets. */
    var labels: seq<string>
    var allSeries: seq<real>
    var loyaltySeries: seq<Option<real>>

    /** The component shows `data` in its totals and labels; the series always
        come from the full `customers`. */
    ghost predicate Shows(data: seq<Customer>)
      reads this
    {
      allCustomersTotal == Total(data, TicketSize, AllCustomers) &&
      loyaltyCustomersTotal == Total(data, TicketSize, LoyaltyCustomers) &&
      labels == DistinctDates(data) &&
      IsSeries(customers, allSeries, loyaltySeries)
    }

    /** Field defaults, then `ngAfterViewInit`: totals and chart over all
        customers. The date labels it also sets read the first and the last
        record, so the dataset must not be empty. */
    constructor (customers: seq<Customer>)
      requires |customers| > 0
      ensures this.customers == customers
      ensures selectedDateOption == -1 && customDateValue == Blank
      ensures Shows(customers)
    {
      this.customers := customers;
      selectedDateOption := -1;
      customDateValue := Blank;
      new;
      SetTotals(customers);
      CreateChart();
    }

    method SetTotals(data: seq<Customer>)
      modifies this`allCustomersTotal, this`loyaltyCustomersTotal
      ensures allCustomersTotal == Total(data, TicketSize, AllCustomers)
      ensures loyaltyCustomersTotal == Total(data, TicketSize, LoyaltyCustomers)
    {
      var allTotal, loyaltyTotal := SumTotals(data, TicketSize);
      allCustomersTotal := allTotal;
      loyaltyCustomersTotal := loyaltyTotal;
    }

    /** Sets both datasets from the result of `getAverages`. */
    method SetSeries(allCustomers: seq<AverageSales>, loyaltyCustomers: seq<Option<AverageSales>>)
      requires |allCustomers| == |DistinctDates(customers)| && |loyaltyCustomers| == |allCustomers|
      requires forall i :: 0 <= i < |allCustomers| ==>
        |OnDate(customers, DistinctDates(customers)[i])| >= 1 &&
        allCustomers[i].average == GroupAverage(OnDate(customers, DistinctDates(customers)[i]))
      requires forall i :: 0 <= i < |loyaltyCustomers| ==>
        (loyaltyCustomers[i].None? <==> LoyaltyAverage(OnDate(customers, DistinctDates(customers)[i])).None?) &&
        (loyaltyCustomers[i].Some? ==>
          Some(loyaltyCustomers[i].value.average) == LoyaltyAverage(OnDate(customers, DistinctDates(customers)[i])))
      modifies this`allSeries, this`loyaltySeries
      ensures IsSeries(customers, allSeries, loyaltySeries)
    {
      allSeries := Averages(allCustomers);
      loyaltySeries := LoyaltyAverages(loyaltyCustomers);
    }

    /** The data part of `createChart`: labels and both series from all customers. */
    method CreateChart()
      modifies this`labels, this`allSeries, this`loyaltySeries
      ensures labels == DistinctDates(customers)
      ensures IsSeries(customers, allSeries, loyaltySeries)
    {
      var averages, loyaltyAverages := GetAverages(customers);
      labels := MergeDates(customers);
      SetSeries(averages, loyaltyAverages);
    }

    /** `onSearch`: only a non-empty, positive custom value selects the custom
        window and refreshes; otherwise nothing changes. */
    method OnSearch(monthsBefore: int -> int)
      requires |customers| > 0
      modifies this
      ensures !SearchAccepted(old(customDateValue)) ==> unchanged(this)
      ensures SearchAccepted(old(customDateValue)) ==>
        selectedDateOption == -2 && customDateValue == old(customDateValue) &&
        Shows(Window(customers, Threshold(monthsBefore(old(customDateValue).value))))
    {
      if customDateValue != Blank && customDateValue.Numeric? && customDateValue.value > 0 {
        selectedDateOption := -2;
        UpdateChartDate(monthsBefore);
      }
    }

    /** `updateChartDate`: filter by the selected window (strictly after the
        threshold), reset the custom value unless it is in use, and refresh
        totals and labels from the filtered records and the series from all of them. */
    method UpdateChartDate(monthsBefore: int -> int)
      requires |customers| > 0
      modifies this
      ensures selectedDateOption == old(selectedDateOption)
      ensures customDateValue == if ClearsCustomValue(old(selectedDateOption)) then Blank else old(customDateValue)
      ensures Shows(Window(customers, CutoffFor(old(selectedDateOption), old(customDateValue), monthsBefore)))
    {
      var data := customers;
      var averages, loyaltyAverages := GetAverages(customers);
      if selectedDateOption >= 0 {
        customDateValue := Blank;
        data := Window(data, Threshold(monthsBefore(selectedDateOption)));
      } else if selectedDateOption == -1 {
        customDateValue := Blank;
      } else {
        match customDateValue
        case Blank => data := Window(data, Threshold(monthsBefore(0)));
        case Numeric(n) => data := Window(data, Threshold(monthsBefore(n)));
        case NotANumber => data := [];
      }
      SetTotals(data);
      labels := MergeDates(data);
      SetSeries(averages, loyaltyAverages);
    }
  }

  /** The loyalty mean is absent when the loyalty sum is zero, not when the
      date has no loyalty record: a date of the input whose loyalty tickets
      sum to zero gets a gap although loyalty records exist on it. */
  lemma ZeroLoyaltySumIsAGap(data: seq<Customer>, d: string)
    requires Count(OnDate(data, d), LoyaltyCustomers) >= 1
    requires Total(OnDate(data, d), TicketSize, LoyaltyCustomers) == 0.0
    ensures d in DistinctDates(data)
    ensures LoyaltyAverage(OnDate(data, d)) == None
  {
    OnDateListed(data, d);
    DistinctDatesMembers(data);
  }

  /** The dates of the worked example: two sales on one day, one on the next. */
  lemma TwoDayDates(a: Customer, b: Customer, c: Customer)
    requires a.date == "2024-01-01" && b.date == "2024-01-01" && c.date == "2024-02-01"
    ensures DistinctDates([a, b, c]) == ["2024-01-01", "2024-02-01"]
  {
    assert c.date != a.date by { assert c.date[6] != a.date[6]; }
    assert [a, b, c][..2] == [a, b];
    assert [a, b][..1] == [a];
    assert [a][..0] == [];
    assert DistinctDates([a]) == [a.date];
    assert DistinctDates([a, b]) == [a.date];
  }

  /** The grouping of the worked example: the first day holds the first two
      sales, the second day the third. */
  lemma TwoDayGroups(a: Customer, b: Customer, c: Customer)
    requires a.date == "2024-01-01" && b.date == "2024-01-01" && c.date == "2024-02-01"
    ensures OnDate([a, b, c], "2024-01-01") == [a, b]
    ensures OnDate([a, b, c], "2024-02-01") == [c]
  {
    assert c.date != a.date by { assert c.date[6] != a.date[6]; }
    assert [a, b, c][..2] == [a, b];
    assert [a, b][..1] == [a];
    assert [a][..0] == [];
    assert OnDate([a], a.date) == [a];
    assert OnDate([a, b], a.date) == [a, b];
    assert OnDate([a], c.date) == [];
    assert OnDate([a, b], c.date) == [];
  }

  /** The sums of the worked example, per day and over the range. */
  lemma TwoDayTotals(a: Customer, b: Customer, c: Customer)
    requires a.ticketSize == 100.0 && !a.hasLoyalty
    requires b.ticketSize == 50.0 && b.hasLoyalty
    requires c.ticketSize == 200.0 && !c.hasLoyalty
    ensures Total([a, b], TicketSize, AllCustomers) == 150.0
    ensures Total([a, b], TicketSize, LoyaltyCustomers) == 50.0
    ensures Count([a, b], LoyaltyCustomers) == 1
    ensures Total([c], TicketSize, AllCustomers) == 200.0
    ensures Total([c], TicketSize, LoyaltyCustomers) == 0.0
    ensures Total([a, b, c], TicketSize, AllCustomers) == 350.0
    ensures Total([a, b, c], TicketSize, LoyaltyCustomers) == 50.0
  {
    assert [a, b, c][..2] == [a, b];
    assert [a, b][..1] == [a];
    assert [a][..0] == [];
    assert [c][..0] == [];
    assert Total([a], TicketSize, AllCustomers) == 100.0;
    assert Total([a], TicketSize, LoyaltyCustomers) == 0.0;
    assert Count([a], LoyaltyCustomers) == 0;
    assert Total([a, b], TicketSize, AllCustomers) == 150.0;
    assert Total([a, b], TicketSize, LoyaltyCustomers) == 50.0;
  }

  /** Worked example: two sales on one day (one of them loyalty) and one on
      the next give means 75 and 200, loyalty means 50 and a gap, and range
      totals 350 and 50. */
  lemma TwoDayExample()
    ensures var a := Customer("2024-01-01", 1, 0.0, 100.0, 0.0, false, true);
      var b := Customer("2024-01-01", 1, 0.0, 50.0, 0.0, true, true);
      var c := Customer("2024-02-01", 2, 0.0, 200.0, 0.0, false, true);
      var data := [a, b, c];
      DistinctDates(data) == ["2024-01-01", "2024-02-01"] &&
      GroupAverage(OnDate(data, "2024-01-01")) == 75.0 &&
      GroupAverage(OnDate(data, "2024-02-01")) == 200.0 &&
      LoyaltyAverage(OnDate(data, "2024-01-01")) == Some(50.0) &&
      LoyaltyAverage(OnDate(data, "2024-02-01")) == None &&
      Total(data, TicketSize, AllCustomers) == 350.0 &&
      Total(data, TicketSize, LoyaltyCustomers) == 50.0
  {
    var a := Customer("2024-01-01", 1, 0.0, 100.0, 0.0, false, true);
    var b := Customer("2024-01-01", 1, 0.0, 50.0, 0.0, true, true);
    var c := Customer("2024-02-01", 2, 0.0, 200.0, 0.0, false, true);
    TwoDayDates(a, b, c);
    TwoDayGroups(a, b, c);
    TwoDayTotals(a, b, c);
  }
}
