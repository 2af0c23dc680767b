/** The records the orders service reads, stores and returns. */
module OrderTypes {
  import opened Wrappers

  /** Order status. The concrete set of values is an external enumeration that is
      not part of this model; these three values are an assumption. */
  datatype OrderStatus = Pending | Delivered | Cancelled

  /** The status the store gives a newly created order (assumed to be `Pending`). */
  const InitialStatus: OrderStatus := Pending

  /** A product as the product service reports it; prices are integers (cents). */
  datatype Product = Product(id: string, name: string, price: int)

  /** One requested line item of an order-creation request. */
  datatype ItemRequest = ItemRequest(productId: string, quantity: nat)

  /** A stored line item: the price is a snapshot taken at creation time. */
  datatype OrderItem = OrderItem(productId: string, quantity: nat, price: int)

  /** A stored order together with its line items. */
  datatype Order = Order(id: string, totalAmount: int, totalItems: nat, status: OrderStatus, items: seq<OrderItem>)

  /** The scalar columns of an order, as the store returns them when no items are included. */
  datatype OrderRow = OrderRow(id: string, totalAmount: int, totalItems: nat, status: OrderStatus)

  /** A line item of a response, with the product name joined on (absent when no product matches). */
  datatype NamedItem = NamedItem(productId: string, quantity: nat, price: int, name: Option<string>)

  /** An order as `create` and `findOne` return it: its columns and its named items. */
  datatype OrderView = OrderView(id: string, totalAmount: int, totalItems: nat, status: OrderStatus, items: seq<NamedItem>)

  /** HTTP status code carried by a not-found error. */
  const NOT_FOUND: nat := 404

  /** Errors surfaced to the caller: a status/message error raised by the service
      itself, or the product service's failure passed through unchanged. */
  datatype Error = Rpc(status: nat, message: string) | Remote(payload: string)

  function NotFoundMessage(id: string): string {
    "Order with id " + id + " not found"
  }

  /** The not-found message names the requested id. */
  lemma NotFoundMessageNamesId(id: string)
    ensures var m := NotFoundMessage(id); |m| >= 14 + |id| && m[14..14 + |id|] == id
  {
    var m := NotFoundMessage(id);
    assert m == "Order with id " + (id + " not found");
    assert |"Order with id "| == 14;
  }

  /** The columns of an order without its items. */
  function Row(o: Order): OrderRow {
    OrderRow(o.id, o.totalAmount, o.totalItems, o.status)
  }
}
