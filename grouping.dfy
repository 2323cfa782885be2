/** Per-date de-duplication and grouping, shared by the line chart and the
    average chart. Groups are keyed by the exact date string; an object's
    string keys are visited by `for…in` in insertion order, so every per-date
    result comes out in first-occurrence order. */
module Grouping {
  import opened Records

  /** The dates of `data`, one per record, in record order. */
  function DateList(data: seq<Customer>): seq<string>
    decreases |data|
  {
    if data == [] then [] else DateList(data[..|data| - 1]) + [data[|data| - 1].date]
  }

  /** Each date of `data` once, in the order in which it first occurs. */
  function DistinctDates(data: seq<Customer>): seq<string>
    decreases |data|
  {
    if data == [] then []
    else
      var seen := DistinctDates(data[..|data| - 1]);
      var d := data[|data| - 1].date;
      if d in seen then seen else seen + [d]
  }

  /** The records of `data` whose date is `d`, in record order. */
  function OnDate(data: seq<Customer>, d: string): seq<Customer>
    decreases |data|
  {
    if data == [] then []
    else
      var last := data[|data| - 1];
      OnDate(data[..|data| - 1], d) + (if last.date == d then [last] else [])
  }

  /** `f`-amounts of the records on date `d` that `s` selects. */
  function DateTotal(data: seq<Customer>, d: string, f: AmountField, s: Selector): real
  {
    Total(OnDate(data, d), f, s)
  }

  ghost predicate NoDuplicates(s: seq<string>)
  {
    forall i, j :: 0 <= i < j < |s| ==> s[i] != s[j]
  }

  lemma {:induction false} DateListSnoc(data: seq<Customer>, c: Customer)
    ensures DateList(data + [c]) == DateList(data) + [c.date]
    ensures DistinctDates(data + [c]) ==
      if c.date in DistinctDates(data) then DistinctDates(data) else DistinctDates(data) + [c.date]
    ensures OnDate(data + [c], c.date) == OnDate(data, c.date) + [c]
    ensures forall d :: d != c.date ==> OnDate(data + [c], d) == OnDate(data, d)
  {
    assert (data + [c])[..|data|] == data;
  }

  /** A date is listed exactly when some record carries it. */
  lemma {:induction false} DateListMembers(data: seq<Customer>, d: string)
    ensures d in DateList(data) <==> exists i :: 0 <= i < |data| && data[i].date == d
    decreases |data|
  {
    if data != [] {
      var prefix := data[..|data| - 1];
      DateListMembers(prefix, d);
      if d in DateList(data) && d !in DateList(prefix) {
        assert data[|data| - 1].date == d;
      }
      if exists i :: 0 <= i < |data| && data[i].date == d {
        var i :| 0 <= i < |data| && data[i].date == d;
        if i < |prefix| {
          assert prefix[i] == data[i];
        }
      }
    }
  }

  /** `DistinctDates` holds exactly the dates of the input, each once. */
  lemma {:induction false} DistinctDatesMembers(data: seq<Customer>)
    ensures forall d :: d in DistinctDates(data) <==> d in DateList(data)
    ensures NoDuplicates(DistinctDates(data))
    ensures |DistinctDates(data)| <= |data|
    decreases |data|
  {
    if data != [] {
      var prefix := data[..|data| - 1];
      DistinctDatesMembers(prefix);
      DateListSnoc(prefix, data[|data| - 1]);
      assert data == prefix + [data[|data| - 1]];
    }
  }

  /** The distinct dates of a prefix of the input are a prefix of the distinct dates of the input. */
  lemma {:induction false} DistinctDatesPrefix(data: seq<Customer>, p: nat)
    requires p <= |data|
    ensures DistinctDates(data[..p]) <= DistinctDates(data)
    decreases |data| - p
  {
    if p < |data| {
      DistinctDatesPrefix(data, p + 1);
      assert data[..p + 1] == data[..p] + [data[p]];
      DateListSnoc(data[..p], data[p]);
    } else {
      assert data[..p] == data;
    }
  }

  /** First-occurrence order: when date `a` already occurs among the first `p`
      records and date `b` does not, `a` comes before `b` in `DistinctDates`. */
  lemma DistinctDatesOrder(data: seq<Customer>, p: nat, i: nat, j: nat)
    requires p <= |data|
    requires i < |DistinctDates(data)| && j < |DistinctDates(data)|
    requires DistinctDates(data)[i] in DateList(data[..p])
    requires DistinctDates(data)[j] !in DateList(data[..p])
    ensures i < j
  {
    var all := DistinctDates(data);
    var pre := DistinctDates(data[..p]);
    DistinctDatesPrefix(data, p);
    DistinctDatesMembers(data[..p]);
    DistinctDatesMembers(data);
    assert all[i] in pre;
    var k :| 0 <= k < |pre| && pre[k] == all[i];
    assert all[k] == all[i];
    assert forall m :: 0 <= m < |pre| ==> all[m] == pre[m] && all[m] in DateList(data[..p]);
  }

  /** Dates that no record carries have no records. */
  lemma {:induction false} OnDateAbsent(data: seq<Customer>, d: string)
    requires d !in DateList(data)
    ensures OnDate(data, d) == []
    decreases |data|
  {
    if data != [] {
      OnDateAbsent(data[..|data| - 1], d);
    }
  }

  /** A date with records is listed. */
  lemma {:induction false} OnDateListed(data: seq<Customer>, d: string)
    requires OnDate(data, d) != []
    ensures d in DateList(data)
    decreases |data|
  {
    var prefix := data[..|data| - 1];
    if data[|data| - 1].date != d {
      OnDateListed(prefix, d);
    }
  }

  /** Every listed date has at least one record: the average chart never divides by zero. */
  lemma {:induction false} OnDatePresent(data: seq<Customer>, d: string)
    requires d in DateList(data)
    ensures |OnDate(data, d)| >= 1
    decreases |data|
  {
    var prefix := data[..|data| - 1];
    if data[|data| - 1].date != d {
      OnDatePresent(prefix, d);
    }
  }

  /** The `mergeDates` loop: push each date that is not yet included. */
  method MergeDates(data: seq<Customer>) returns (mergedDates: seq<string>)
    ensures mergedDates == DistinctDates(data)
    ensures forall d :: d in mergedDates <==> d in DateList(data)
  {
    mergedDates := [];
    for i := 0 to |data|
      invariant mergedDates == DistinctDates(data[..i])
    {
      assert data[..i + 1] == data[..i] + [data[i]];
      DateListSnoc(data[..i], data[i]);
      if data[i].date !in mergedDates {
        mergedDates := mergedDates + [data[i].date];
      }
    }
    assert data[..|data|] == data;
    DistinctDatesMembers(data);
  }

  /** The filling loop of `groupedByDate`: a key is created (and appended to the
      insertion order `keys`) on its first record and every record is pushed
      onto its date's array. */
  method GroupByDate(data: seq<Customer>) returns (keys: seq<string>, groupedByDate: map<string, seq<Customer>>)
    ensures keys == DistinctDates(data)
    ensures forall d :: d in groupedByDate <==> d in keys
    ensures forall d :: d in groupedByDate ==> groupedByDate[d] == OnDate(data, d)
  {
    keys, groupedByDate := [], map[];
    for i := 0 to |data|
      invariant keys == DistinctDates(data[..i])
      invariant forall d :: d in groupedByDate <==> d in keys
      invariant forall d :: d in groupedByDate ==> groupedByDate[d] == OnDate(data[..i], d)
    {
      var date := data[i].date;
      assert data[..i + 1] == data[..i] + [data[i]];
      DateListSnoc(data[..i], data[i]);
      DistinctDatesMembers(data[..i]);
      if date !in groupedByDate {
        OnDateAbsent(data[..i], date);
        groupedByDate := groupedByDate[date := []];
        keys := keys + [date];
      }
      groupedByDate := groupedByDate[date := groupedByDate[date] + [data[i]]];
    }
    assert data[..|data|] == data;
  }

  /** Sum, over `keys`, of the per-date totals. */
  function GroupTotals(data: seq<Customer>, keys: seq<string>, f: AmountField, s: Selector): real
    decreases |keys|
  {
    if keys == [] then 0.0
    else GroupTotals(data, keys[..|keys| - 1], f, s) + DateTotal(data, keys[|keys| - 1], f, s)
  }

  lemma {:induction false} GroupTotalsSnoc(data: seq<Customer>, c: Customer, keys: seq<string>, f: AmountField, s: Selector)
    requires NoDuplicates(keys)
    ensures GroupTotals(data + [c], keys, f, s) ==
      GroupTotals(data, keys, f, s) + (if c.date in keys && Selects(s, c) then Amount(c, f) else 0.0)
    decreases |keys|
  {
    if keys != [] {
      var front := keys[..|keys| - 1];
      var k := keys[|keys| - 1];
      assert keys == front + [k];
      assert NoDuplicates(front);
      assert k !in front;
      GroupTotalsSnoc(data, c, front, f, s);
      DateListSnoc(data, c);
      if c.date == k {
        TotalSnoc(OnDate(data, k), c, f, s);
      }
    }
  }

  /** A date seen for the first time adds a group holding only the new record. */
  lemma NewDateGroupTotal(prefix: seq<Customer>, c: Customer, keys: seq<string>, f: AmountField, s: Selector)
    requires c.date !in DateList(prefix)
    ensures GroupTotals(prefix + [c], keys + [c.date], f, s) ==
      GroupTotals(prefix + [c], keys, f, s) + (if Selects(s, c) then Amount(c, f) else 0.0)
  {
    assert (keys + [c.date])[..|keys|] == keys;
    OnDateAbsent(prefix, c.date);
    DateListSnoc(prefix, c);
    assert OnDate(prefix + [c], c.date) == [] + [c];
    TotalSnoc([], c, f, s);
  }

  /** The per-date totals add up to the total over the whole input: grouping
      loses and duplicates no record. */
  lemma {:induction false} GroupTotalsPartition(data: seq<Customer>, f: AmountField, s: Selector)
    ensures GroupTotals(data, DistinctDates(data), f, s) == Total(data, f, s)
    decreases |data|
  {
    if data != [] {
      var prefix := data[..|data| - 1];
      var c := data[|data| - 1];
      var keys := DistinctDates(prefix);
      assert data == prefix + [c];
      GroupTotalsPartition(prefix, f, s);
      DistinctDatesMembers(prefix);
      DateListSnoc(prefix, c);
      TotalSnoc(prefix, c, f, s);
      GroupTotalsSnoc(prefix, c, keys, f, s);
      if c.date !in keys {
        NewDateGroupTotal(prefix, c, keys, f, s);
      }
    }
  }
}
