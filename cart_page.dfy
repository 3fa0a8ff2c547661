/** The cart page: the items total and the checkout, which posts an order
    built from the cart and empties the cart once the order is accepted. */
module CartPage {
  import opened Base
  import opened Keyed
  import opened Parts
  import opened CartContext

  /** One line's amount: price × quantity, in cents. */
  function LineTotal(x: CartItem): int { x.part.price * x.qty }

  /** The `reduce` of the page: line amounts accumulated from the first
      line to the last, starting at 0. */
  function Total(items: seq<CartItem>): (r: int)
    ensures items == [] ==> r == 0
    ensures (forall i :: 0 <= i < |items| ==> items[i].part.price >= 0 && items[i].qty >= 0) ==> r >= 0
  {
    if items == [] then 0
    else Total(items[..|items| - 1]) + LineTotal(items[|items| - 1])
  }

  /** The total of a concatenation is the sum of the totals. */
  lemma {:induction false} TotalAppend(a: seq<CartItem>, b: seq<CartItem>)
    ensures Total(a + b) == Total(a) + Total(b)
    decreases |b|
  {
    if b == [] {
      assert a + b == a;
    } else {
      var c := b[..|b| - 1];
      assert (a + b)[..|a + b| - 1] == a + c;
      assert (a + b)[|a + b| - 1] == b[|b| - 1];
      TotalAppend(a, c);
    }
  }

  lemma {:induction false} TotalCons(x: CartItem, s: seq<CartItem>)
    ensures Total([x] + s) == LineTotal(x) + Total(s)
  {
    TotalAppend([x], s);
    assert [x][..0] == [];
  }

  /** Adding `n` of a part already in the cart raises the total by `n`
      times the price that line was added at. */
  lemma {:induction false} TotalAddedExisting(items: seq<CartItem>, part: Part, n: int, k: nat)
    requires UniqueIds(items, ItemId)
    requires k < |items| && ItemId(items[k]) == part.id
    ensures Total(Added(items, part, n)) == Total(items) + n * items[k].part.price
  {
    TotalBumped(items, part.id, n, k);
  }

  lemma {:induction false} TotalBumped(items: seq<CartItem>, id: Id, n: int, k: nat)
    requires UniqueIds(items, ItemId)
    requires k < |items| && ItemId(items[k]) == id
    ensures Total(UpdateWhere(items, ItemId, id, Increase(n))) == Total(items) + n * items[k].part.price
  {
    var rest := items[1..];
    var r := UpdateWhere(items, ItemId, id, Increase(n));
    var tail := UpdateWhere(rest, ItemId, id, Increase(n));
    assert r == [r[0]] + tail;
    assert items == [items[0]] + rest;
    TotalCons(items[0], rest);
    TotalCons(r[0], tail);
    UniqueTail(items, ItemId);
    if k == 0 {
      UpdateAbsent(rest, ItemId, id, Increase(n));
      IncreasedLine(items[0], n);
    } else {
      assert rest[k - 1] == items[k];
      TotalBumped(rest, id, n, k - 1);
    }
  }

  lemma IncreasedLine(x: CartItem, n: int)
    ensures LineTotal(Increase(n)(x)) == LineTotal(x) + n * x.part.price
  {
  }

  /** Adding `n` of a part not in the cart raises the total by `n` times
      the part's price. */
  lemma {:induction false} TotalAddedNew(items: seq<CartItem>, part: Part, n: int)
    requires !HasId(items, ItemId, part.id)
    ensures Total(Added(items, part, n)) == Total(items) + part.price * n
  {
  }

  /** Removing a line lowers the total by that line's amount. */
  lemma {:induction false} TotalRemoved(items: seq<CartItem>, k: nat)
    requires UniqueIds(items, ItemId) && k < |items|
    ensures Total(Removed(items, ItemId(items[k]))) == Total(items) - LineTotal(items[k])
  {
    RemovesOne(items, ItemId, k);
    assert items == items[..k] + ([items[k]] + items[k + 1..]);
    TotalAppend(items[..k], [items[k]] + items[k + 1..]);
    TotalCons(items[k], items[k + 1..]);
    TotalAppend(items[..k], items[k + 1..]);
  }

  /** A posted order line: the cart line plus `product`, the part's id. */
  datatype OrderItem = OrderItem(item: CartItem, product: Id)

  datatype ShippingAddress = ShippingAddress(address: string, city: string, postalCode: string, country: string)

  /** The body of POST /api/orders. */
  datatype OrderRequest = OrderRequest(
    orderItems: seq<OrderItem>,
    shippingAddress: ShippingAddress,
    paymentMethod: string,
    itemsPrice: int,
    taxPrice: int,
    shippingPrice: int,
    totalPrice: int)

  /** The request as sent, with the bearer token of its header. */
  datatype OrderPost = OrderPost(token: string, body: OrderRequest)

  const FixedAddress := ShippingAddress("123 Main St", "New York", "10001", "USA")
  const FixedPaymentMethod := "PayPal"
  const OrderFailed := "Order failed"

  /** The cart lines as order lines, in the same order. */
  function OrderItems(items: seq<CartItem>): (r: seq<OrderItem>)
    ensures |r| == |items|
    ensures forall i :: 0 <= i < |items| ==> r[i].item == items[i] && r[i].product == ItemId(items[i])
  {
    seq(|items|, i requires 0 <= i < |items| => OrderItem(items[i], items[i].part.id))
  }

  /** The order body the checkout sends for a cart. */
  function CheckoutRequest(items: seq<CartItem>): (r: OrderRequest)
    ensures r.orderItems == OrderItems(items)
    ensures r.itemsPrice == Total(items) && r.totalPrice == Total(items)
    ensures r.taxPrice == 0 && r.shippingPrice == 0
    ensures r.totalPrice == r.itemsPrice + r.taxPrice + r.shippingPrice
    ensures r.shippingAddress == FixedAddress && r.paymentMethod == FixedPaymentMethod
  {
    OrderRequest(OrderItems(items), FixedAddress, FixedPaymentMethod, Total(items), 0, 0, Total(items))
  }

  /** The sum of the posted lines' amounts, first line first. */
  function ItemsAmount(lines: seq<OrderItem>): int
  {
    if lines == [] then 0
    else LineTotal(lines[0].item) + ItemsAmount(lines[1..])
  }

  /** The lines of the request add up to the `itemsPrice` it declares. */
  lemma {:induction false} RequestLinesAddUp(items: seq<CartItem>)
    ensures ItemsAmount(CheckoutRequest(items).orderItems) == CheckoutRequest(items).itemsPrice
  {
    LinesAddUp(items);
  }

  lemma {:induction false} LinesAddUp(items: seq<CartItem>)
    ensures ItemsAmount(OrderItems(items)) == Total(items)
  {
    if items != [] {
      LinesAddUp(items[1..]);
      assert OrderItems(items)[1..] == OrderItems(items[1..]);
      assert items == [items[0]] + items[1..];
      TotalCons(items[0], items[1..]);
    }
  }

  /** `handleCheckout`. With no user it sends nothing and goes to the login
      page. Otherwise it posts the order (`reply` is the server's answer:
      the new order's id, or None when the request failed); on success the
      cart is cleared and the page goes to the order, on failure the cart
      is left as it was and an alert is shown. */
  method HandleCheckout(cart: Cart, user: Option<User>, reply: Option<Id>)
    returns (sent: Option<OrderPost>, goTo: Option<Location>, alert: Option<string>)
    modifies cart
    ensures user.None? ==> sent == None && goTo == Some(LoginRoute) && alert == None
    ensures user.Some? ==> sent == Some(OrderPost(user.value.token, CheckoutRequest(old(cart.items))))
    ensures user.Some? && reply.Some? ==>
      cart.items == [] && cart.saved == None && goTo == Some(OrderRoute(reply.value)) && alert == None
    ensures (user.None? || reply.None?) ==> cart.items == old(cart.items) && cart.saved == old(cart.saved)
    ensures user.Some? && reply.None? ==> goTo == None && alert == Some(OrderFailed)
  {
    if user.None? {
      return None, Some(LoginRoute), None;
    }
    sent := Some(OrderPost(user.value.token, CheckoutRequest(cart.items)));
    if reply.Some? {
      cart.ClearCart();
      goTo, alert := Some(OrderRoute(reply.value)), None;
    } else {
      goTo, alert := None, Some(OrderFailed);
    }
  }
}
