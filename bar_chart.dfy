/** The channel bar chart: total `ticketPrice` of in-store and of online sales. */
module BarChart {
  import opened Records

  /** `getInStoreTotal`: sum of `ticketPrice` over the in-store sales. */
  method GetInStoreTotal(data: seq<Customer>) returns (total: real)
    ensures total == Total(data, TicketPrice, InStore)
    ensures data == [] ==> total == 0.0
  {
    total := 0.0;
    for i := 0 to |data|
      invariant total == Total(data[..i], TicketPrice, InStore)
    {
      assert data[..i + 1] == data[..i] + [data[i]];
      TotalSnoc(data[..i], data[i], TicketPrice, InStore);
      if data[i].inStore {
        total := total + data[i].ticketPrice;
      }
    }
    assert data[..|data|] == data;
  }

  /** `getOnlineTotal`: sum of `ticketPrice` over the sales that are not in-store. */
  method GetOnlineTotal(data: seq<Customer>) returns (total: real)
    ensures total == Total(data, TicketPrice, Online)
    ensures data == [] ==> total == 0.0
  {
    total := 0.0;
    for i := 0 to |data|
      invariant total == Total(data[..i], TicketPrice, Online)
    {
      assert data[..i + 1] == data[..i] + [data[i]];
      TotalSnoc(data[..i], data[i], TicketPrice, Online);
      if !data[i].inStore {
        total := total + data[i].ticketPrice;
      }
    }
    assert data[..|data|] == data;
  }

  /** Appending one sale moves exactly one of the two channel totals, by its ticket price. */
  lemma {:induction false} AppendMovesOneChannel(data: seq<Customer>, c: Customer)
    ensures c.inStore ==>
      Total(data + [c], TicketPrice, InStore) == Total(data, TicketPrice, InStore) + c.ticketPrice &&
      Total(data + [c], TicketPrice, Online) == Total(data, TicketPrice, Online)
    ensures !c.inStore ==>
      Total(data + [c], TicketPrice, Online) == Total(data, TicketPrice, Online) + c.ticketPrice &&
      Total(data + [c], TicketPrice, InStore) == Total(data, TicketPrice, InStore)
  {
    TotalSnoc(data, c, TicketPrice, InStore);
    TotalSnoc(data, c, TicketPrice, Online);
  }

  class BarChartComponent {
    /** `customerData.customers`, the full dataset. */
    const customers: seq<Customer>
    var inStoreTotal: real
    var onlineTotal: real

    /** `ngAfterViewInit`: both channel totals over all customers; together they
        make up the total ticket price. The date labels it also sets read the
        first and the last record, so the dataset must not be empty. */
    constructor (customers: seq<Customer>)
      requires |customers| > 0
      ensures this.customers == customers
      ensures inStoreTotal == Total(customers, TicketPrice, InStore)
      ensures onlineTotal == Total(customers, TicketPrice, Online)
      ensures inStoreTotal + onlineTotal == Total(customers, TicketPrice, AllCustomers)
    {
      this.customers := customers;
      var inStore := GetInStoreTotal(customers);
      var online := GetOnlineTotal(customers);
      inStoreTotal, onlineTotal := inStore, online;
      InStorePlusOnline(customers, TicketPrice);
    }
  }
}
