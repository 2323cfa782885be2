/** Sales records and the range totals every chart component computes over them. */
module Records {

  datatype Option<+T> = None | Some(value: T)

  /** The numeric field a component aggregates: the line chart sums `price`,
      the average chart `ticketSize`, the bar chart `ticketPrice`. */
  datatype AmountField = Price | TicketSize | TicketPrice

  /** One customer sale. `ts` stands for the instant `new Date(date)` denotes;
      grouping uses the exact `date` string, window filtering uses `ts`. */
  datatype Customer = Customer(
    date: string,
    ts: int,
    price: real,
    ticketSize: real,
    ticketPrice: real,
    hasLoyalty: bool,
    inStore: bool)

  function Amount(c: Customer, f: AmountField): real
  {
    match f
    case Price => c.price
    case TicketSize => c.ticketSize
    case TicketPrice => c.ticketPrice
  }

  /** Which records a total runs over. */
  datatype Selector = AllCustomers | LoyaltyCustomers | InStore | Online

  predicate Selects(s: Selector, c: Customer)
  {
    match s
    case AllCustomers => true
    case LoyaltyCustomers => c.hasLoyalty
    case InStore => c.inStore
    case Online => !c.inStore
  }

  /** Sum of field `f` over the records of `data` that `s` selects, accumulated
      left to right as the components' loops do. */
  function Total(data: seq<Customer>, f: AmountField, s: Selector): real
    decreases |data|
  {
    if data == [] then 0.0
    else
      var last := data[|data| - 1];
      Total(data[..|data| - 1], f, s) + (if Selects(s, last) then Amount(last, f) else 0.0)
  }

  /** Number of records of `data` that `s` selects. */
  function Count(data: seq<Customer>, s: Selector): nat
    decreases |data|
  {
    if data == [] then 0
    else Count(data[..|data| - 1], s) + (if Selects(s, data[|data| - 1]) then 1 else 0)
  }

  /** Appending one record moves the total by that record's amount exactly when it is selected. */
  lemma {:induction false} TotalSnoc(data: seq<Customer>, c: Customer, f: AmountField, s: Selector)
    ensures Total(data + [c], f, s) == Total(data, f, s) + (if Selects(s, c) then Amount(c, f) else 0.0)
  {
    assert (data + [c])[..|data|] == data;
  }

  /** The in-store and the online totals partition the total over all records. */
  lemma {:induction false} InStorePlusOnline(data: seq<Customer>, f: AmountField)
    ensures Total(data, f, InStore) + Total(data, f, Online) == Total(data, f, AllCustomers)
    decreases |data|
  {
    if data != [] {
      InStorePlusOnline(data[..|data| - 1], f);
    }
  }

  /** A non-zero total needs at least one selected record: this is why the
      average chart's loyalty division never divides by zero. */
  lemma {:induction false} NonZeroTotalHasSelected(data: seq<Customer>, f: AmountField, s: Selector)
    requires Total(data, f, s) != 0.0
    ensures Count(data, s) >= 1
    decreases |data|
  {
    var prefix := data[..|data| - 1];
    if Count(prefix, s) == 0 {
      NoSelectedZeroTotal(prefix, f, s);
    } else {
      assert Count(data, s) >= Count(prefix, s);
    }
  }

  /** With no selected record the total is zero, so a date without loyalty
      records always gets the null (absent) loyalty entry. */
  lemma {:induction false} NoSelectedZeroTotal(data: seq<Customer>, f: AmountField, s: Selector)
    requires Count(data, s) == 0
    ensures Total(data, f, s) == 0.0
    ensures forall c :: c in data ==> !Selects(s, c)
    decreases |data|
  {
    if data != [] {
      var prefix := data[..|data| - 1];
      NoSelectedZeroTotal(prefix, f, s);
      assert data == prefix + [data[|data| - 1]];
    }
  }

  /** The accumulation loop of `setTotals` (shared by the line and the average
      chart): one pass adds every amount to the all-customer sum and the
      loyalty amounts to the loyalty sum. */
  method SumTotals(data: seq<Customer>, f: AmountField) returns (allTotal: real, loyaltyTotal: real)
    ensures allTotal == Total(data, f, AllCustomers)
    ensures loyaltyTotal == Total(data, f, LoyaltyCustomers)
    ensures data == [] ==> allTotal == 0.0 && loyaltyTotal == 0.0
  {
    allTotal, loyaltyTotal := 0.0, 0.0;
    for i := 0 to |data|
      invariant allTotal == Total(data[..i], f, AllCustomers)
      invariant loyaltyTotal == Total(data[..i], f, LoyaltyCustomers)
    {
      assert data[..i + 1] == data[..i] + [data[i]];
      TotalSnoc(data[..i], data[i], f, AllCustomers);
      TotalSnoc(data[..i], data[i], f, LoyaltyCustomers);
      if data[i].hasLoyalty {
        loyaltyTotal := loyaltyTotal + Amount(data[i], f);
      }
      allTotal := allTotal + Amount(data[i], f);
    }
    assert data[..|data|] == data;
  }
}
