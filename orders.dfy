/** An order as the client pages receive it from the order API. The server
    side of orders (controller, model, middleware) is not part of this
    model; only the fields the pages read and write appear. */
module Orders {
  import opened Base

  datatype OrderLine = OrderLine(name: string, image: string, qty: int, price: int, product: Id)

  datatype Order = Order(
    id: Id,
    orderItems: seq<OrderLine>,
    itemsPrice: int,
    taxPrice: int,
    shippingPrice: int,
    totalPrice: int,
    isPaid: bool,
    paidAt: Option<int>,
    isDelivered: bool,
    deliveredAt: Option<int>)

  function OrderId(o: Order): Id { o.id }

  /** Paid and not yet delivered: the only state in which the pages offer
      to mark an order delivered. */
  function ReadyToDeliver(o: Order): (r: bool)
    ensures r ==> o.isPaid
    ensures r ==> PaidBeforeDelivered([o.(isDelivered := true)])
  {
    o.isPaid && !o.isDelivered
  }

  /** No order in the list is delivered without being paid. */
  predicate PaidBeforeDelivered(orders: seq<Order>)
  {
    forall i :: 0 <= i < |orders| ==> orders[i].isDelivered ==> orders[i].isPaid
  }
}
