/** The order details page: it fetches one order for a signed-in user, shows
    its lines with their subtotals, and offers Pay (unpaid orders) and Mark
    As Delivered (admins, paid and undelivered orders). After a pay or
    deliver request succeeds the order is fetched again. */
module OrderDetails {
  import opened Base
  import opened Orders

  const PaymentSucceeded := "Payment Successful! (Test Mode)"
  const PaymentFailed := "Payment Failed"
  const DeliverFailed := "Update Failed"

  /** The Pay button. */
  function PayOffered(o: Order): (r: bool)
    ensures r ==> !ReadyToDeliver(o)
  {
    !o.isPaid
  }

  /** The Mark As Delivered button. */
  function DeliverOffered(role: string, o: Order): (r: bool)
    ensures r ==> role == "admin" && o.isPaid && !PayOffered(o)
  {
    role == "admin" && ReadyToDeliver(o)
  }

  /** Mark As Delivered is offered exactly to an admin looking at a paid,
      undelivered order. */
  lemma DeliverNeedsPayment(role: string, o: Order)
    ensures DeliverOffered(role, o) <==> role == "admin" && o.isPaid && !o.isDelivered
  {
  }

  /** The amount shown for a line. */
  function LineSubtotal(l: OrderLine): int { l.qty * l.price }

  /** The amounts shown for an order's lines, one per line, in order. */
  function Subtotals(o: Order): (r: seq<int>)
    ensures |r| == |o.orderItems|
    ensures forall i :: 0 <= i < |r| ==> r[i] == o.orderItems[i].qty * o.orderItems[i].price
  {
    seq(|o.orderItems|, i requires 0 <= i < |o.orderItems| => LineSubtotal(o.orderItems[i]))
  }

  /** What the page renders. */
  datatype Screen =
    | Spinner
    | NotFound(message: string)
    | Details(order: Order, subtotals: seq<int>, payButton: bool, deliverButton: bool)

  const OrderNotFound := "Order not found"

  class OrderDetailsPage {
    const orderId: Id
    const user: Option<User>
    var order: Option<Order>
    var loading: bool
    /** The number of times the order has been requested. */
    ghost var fetches: nat

    /** Without a user nothing is fetched, so the page stays loading. */
    ghost predicate Valid()
      reads this
    {
      user.None? ==> loading && fetches == 0
    }

    /** Mounting: with a user the order is fetched once; `reply` is the
        order returned, or None when the request failed. */
    constructor (orderId: Id, user: Option<User>, reply: Option<Order>)
      ensures this.orderId == orderId && this.user == user && Valid()
      ensures user.None? ==> order == None && loading && fetches == 0
      ensures user.Some? ==> order == reply && !loading && fetches == 1
    {
      this.orderId, this.user := orderId, user;
      order, loading, fetches := None, true, 0;
      new;
      if user.Some? {
        FetchOrder(reply);
      }
    }

    /** `fetchOrder`: a successful reply replaces the order; either way the
        page stops loading. */
    method FetchOrder(reply: Option<Order>)
      requires user.Some?
      modifies this
      ensures fetches == old(fetches) + 1 && !loading && Valid()
      ensures order == if reply.Some? then reply else old(order)
    {
      fetches := fetches + 1;
      if reply.Some? {
        order := reply;
      }
      loading := false;
    }

    /** `handlePayment`: `succeeded` is whether the pay request went
        through; if so the order is fetched again (`reply`) and success is
        announced, otherwise nothing is fetched and failure is announced. */
    method HandlePayment(succeeded: bool, reply: Option<Order>) returns (alert: string)
      requires user.Some?
      modifies this
      ensures Valid()
      ensures succeeded ==> fetches == old(fetches) + 1 && !loading && alert == PaymentSucceeded
      ensures succeeded ==> order == if reply.Some? then reply else old(order)
      ensures !succeeded ==>
        fetches == old(fetches) && order == old(order) && loading == old(loading) && alert == PaymentFailed
    {
      if succeeded {
        FetchOrder(reply);
        alert := PaymentSucceeded;
      } else {
        alert := PaymentFailed;
      }
    }

    /** `handleDeliver`: as `handlePayment`, with no message on success. */
    method HandleDeliver(succeeded: bool, reply: Option<Order>) returns (alert: Option<string>)
      requires user.Some?
      modifies this
      ensures Valid()
      ensures succeeded ==> fetches == old(fetches) + 1 && !loading && alert == None
      ensures succeeded ==> order == if reply.Some? then reply else old(order)
      ensures !succeeded ==>
        fetches == old(fetches) && order == old(order) && loading == old(loading) && alert == Some(DeliverFailed)
    {
      if succeeded {
        FetchOrder(reply);
        alert := None;
      } else {
        alert := Some(DeliverFailed);
      }
    }

    /** The page as rendered: a spinner while loading, "Order not found"
        once loading ended without an order, otherwise the order with its
        line subtotals and the two buttons' visibility. */
    function View(): (s: Screen)
      requires Valid()
      reads this
      ensures loading <==> s.Spinner?
      ensures s.NotFound? <==> !loading && order.None?
      ensures s.NotFound? ==> s.message == OrderNotFound
      ensures s.Details? ==> Some(s.order) == order && s.subtotals == Subtotals(s.order)
      ensures s.Details? ==>
        (s.payButton <==> !s.order.isPaid) &&
        (s.deliverButton <==> user.Some? && user.value.role == "admin" && s.order.isPaid && !s.order.isDelivered)
    {
      if loading then Spinner
      else if order.None? then NotFound(OrderNotFound)
      else Details(order.value, Subtotals(order.value), PayOffered(order.value), DeliverOffered(user.value.role, order.value))
    }
  }
}
