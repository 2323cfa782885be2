/** The date-window selector shared by the line chart and the average chart.
    The selected option is the number behind `selectedDateOption`: a preset
    month count (>= 0), -1 for all time, anything else for the custom value.
    The clock and the calendar are abstracted into `monthsBefore(n)`, the time
    value (milliseconds) that `setMonth` computes for "now moved back n
    calendar months", before it is clipped to the ECMAScript time range. */
module DateWindow {
  import opened Records

  /** What `customDateValue` holds: the empty string, a string whose `Number`
      value is an integer, or a string `Number` turns into NaN. */
  datatype DateEntry = Blank | Numeric(value: int) | NotANumber

  /** The threshold a window compares against. */
  datatype Cutoff = AllTime | Since(threshold: int) | InvalidDate

  /** The records strictly later than `threshold`, in their original order (`data.filter`). */
  function After(data: seq<Customer>, threshold: int): seq<Customer>
    decreases |data|
  {
    if data == [] then []
    else
      var last := data[|data| - 1];
      After(data[..|data| - 1], threshold) + (if last.ts > threshold then [last] else [])
  }

  /** The guard of `onSearch`: a non-empty entry whose numeric value is positive. */
  predicate SearchAccepted(entry: DateEntry)
  {
    entry.Numeric? && entry.value > 0
  }

  /** Options other than the custom one reset `customDateValue` to the empty string. */
  predicate ClearsCustomValue(option: int)
  {
    option >= 0 || option == -1
  }

  /** Largest magnitude of an ECMAScript time value: 8.64e15 milliseconds,
      100 000 000 days either side of the epoch. */
  const MaxTime: int := 8_640_000_000_000_000

  predicate InTimeRange(t: int)
  {
    -MaxTime <= t <= MaxTime
  }

  /** What `setMonth` leaves in `updatedDate` for the computed time value `t`:
      that instant when it lies in the time range, an Invalid Date otherwise. */
  function Threshold(t: int): (c: Cutoff)
    ensures c.Since? <==> InTimeRange(t)
    ensures c.Since? ==> c.threshold == t
    ensures !c.AllTime?
  {
    if InTimeRange(t) then Since(t) else InvalidDate
  }

  /** The branch `updateChartDate` takes: a preset counts months back from now,
      -1 keeps everything, the custom branch counts `Number(customDateValue)`
      months back (0 for the empty string). NaN, or a month count that moves
      the date out of the time range, makes an Invalid Date. */
  function CutoffFor(option: int, entry: DateEntry, monthsBefore: int -> int): (c: Cutoff)
    ensures option >= 0 ==> c == Threshold(monthsBefore(option))
    ensures option == -1 ==> c == AllTime
    ensures SearchAccepted(entry) && option == -2 ==> c == Threshold(monthsBefore(entry.value))
    ensures c.Since? ==> InTimeRange(c.threshold)
    ensures c == AllTime <==> option == -1
    ensures c == InvalidDate <==>
      (option >= 0 && !InTimeRange(monthsBefore(option))) ||
      (option < -1 &&
        (entry == NotANumber || !InTimeRange(monthsBefore(if entry.Numeric? then entry.value else 0))))
  {
    if option >= 0 then Threshold(monthsBefore(option))
    else if option == -1 then AllTime
    else
      match entry
      case Blank => Threshold(monthsBefore(0))
      case Numeric(n) => Threshold(monthsBefore(n))
      case NotANumber => InvalidDate
  }

  /** The filtered `data` of `updateChartDate`. Every comparison with an
      Invalid Date is false, so that window keeps no record. */
  function Window(customers: seq<Customer>, cutoff: Cutoff): seq<Customer>
  {
    match cutoff
    case AllTime => customers
    case Since(t) => After(customers, t)
    case InvalidDate => []
  }

  /** `After` keeps a record exactly when it is strictly later than the
      threshold, with all its occurrences, and drops the rest. */
  lemma {:induction false} AfterContents(data: seq<Customer>, threshold: int)
    ensures forall c :: multiset(After(data, threshold))[c] == if c.ts > threshold then multiset(data)[c] else 0
    ensures forall c :: c in After(data, threshold) <==> c in data && c.ts > threshold
    decreases |data|
  {
    if data != [] {
      var prefix := data[..|data| - 1];
      var last := data[|data| - 1];
      assert data == prefix + [last];
      AfterContents(prefix, threshold);
    }
  }

  /** Filtering commutes with concatenation, so the kept records stay in their original order. */
  lemma {:induction false} AfterAppend(a: seq<Customer>, b: seq<Customer>, threshold: int)
    ensures After(a + b, threshold) == After(a, threshold) + After(b, threshold)
    decreases |b|
  {
    if b == [] {
      assert a + b == a;
    } else {
      var b' := b[..|b| - 1];
      assert (a + b)[..|a + b| - 1] == a + b';
      AfterAppend(a, b', threshold);
    }
  }

  /** The threshold is exclusive: a record stamped exactly at the threshold is
      dropped, one a tick later is kept. */
  lemma ThresholdIsStrict(data: seq<Customer>, c: Customer, threshold: int)
    requires c in data
    ensures c.ts == threshold ==> c !in After(data, threshold)
    ensures c.ts == threshold + 1 ==> c in After(data, threshold)
  {
    AfterContents(data, threshold);
  }

  /** Every window is a sub-multiset of the customers; the all-time window is the customers themselves. */
  lemma WindowContents(customers: seq<Customer>, cutoff: Cutoff)
    ensures multiset(Window(customers, cutoff)) <= multiset(customers)
    ensures cutoff == AllTime ==> Window(customers, cutoff) == customers
    ensures cutoff.Since? ==> forall c :: c in Window(customers, cutoff) <==> c in customers && c.ts > cutoff.threshold
  {
    if cutoff.Since? {
      AfterContents(customers, cutoff.threshold);
    }
  }
}
