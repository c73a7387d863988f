/** The records the three screens exchange with the backend. Every `id` is
    optional: the backend assigns it on the first successful create. */
module Entities {
  import opened Wrappers

  datatype Customer = Customer(
    id: Option<int>,
    customerName: string,
    email: string,
    phone: string,
    vehicleNo: string)

  datatype Stock = Stock(
    id: Option<int>,
    itemName: string,
    category: string,
    quantity: int,
    price: int)

  /** One consumed stock item of a service: a snapshot of the stock's id, name
      and unit price taken when it was selected, and the quantity used. The
      stock id is optional because it is copied from a stock whose own id is. */
  datatype LineItem = LineItem(
    id: Option<int>,
    stockId: Option<int>,
    price: int,
    stockName: string,
    quantityUsed: int)

  /** A service job, with an embedded copy of the customer (not a reference). */
  datatype ServiceRecord = ServiceRecord(
    id: Option<int>,
    customer: Customer,
    serviceDate: string,
    totalCost: int,
    remarks: string,
    stocks: seq<LineItem>)

  /** The guards test an id for truthiness: an absent id and the id 0 both
      count as "no id". */
  predicate HasId(id: Option<int>)
  {
    id.Some? && id.value != 0
  }
}
