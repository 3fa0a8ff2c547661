/** The part details page: stock status, the quantity selector and its
    options, the Add To Cart button, and the call into the cart. */
module PartDetails {
  import opened Base
  import opened Keyed
  import opened Parts
  import opened CartContext
  import Inventory

  /** The largest quantity the selector offers. */
  const MaxOptions := 10

  function Min(a: int, b: int): int { if a <= b then a else b }

  /** The options of the quantity selector for a stock count: the first ten
      of 0, 1, …, stock - 1, each plus one. Building the list needs a
      non-negative count. */
  function QtyOptions(stock: int): (r: seq<int>)
    requires stock >= 0
    ensures |r| == Min(stock, MaxOptions)
    ensures forall i :: 0 <= i < |r| ==> r[i] == i + 1
    ensures forall i, j :: 0 <= i < j < |r| ==> r[i] < r[j]
    ensures forall q :: q in r <==> 1 <= q <= Min(stock, MaxOptions)
    ensures forall q :: q in r ==> q <= stock
  {
    NumberedMembers(Min(stock, MaxOptions));
    Numbered(Min(stock, MaxOptions))
  }

  /** 1, 2, …, n. */
  function Numbered(n: nat): seq<int>
  {
    seq(n, i => i + 1)
  }

  lemma NumberedMembers(n: nat)
    ensures forall q :: q in Numbered(n) <==> 1 <= q <= n
  {
    forall q | 1 <= q <= n ensures q in Numbered(n) {
      assert Numbered(n)[q - 1] == q;
    }
  }

  /** The status line. */
  function StockStatus(stock: int): (s: string)
    ensures s == "In Stock" <==> stock > 0
    ensures s == "Out of Stock" <==> stock <= 0
  {
    if stock > 0 then "In Stock" else "Out of Stock"
  }

  /** The selector is rendered only for a positive stock. */
  function ShowsQtySelector(stock: int): (r: bool)
    ensures r ==> StockStatus(stock) == "In Stock" && |QtyOptions(stock)| >= 1
  {
    stock > 0
  }

  /** The Add To Cart button is disabled only for a stock of exactly zero. */
  function AddDisabled(stock: int): (r: bool)
    ensures r ==> StockStatus(stock) == "Out of Stock" && !ShowsQtySelector(stock)
  {
    stock == 0
  }

  /** Whenever the selector is shown the button is enabled and the status
      reads "In Stock"; when the button is disabled the status reads "Out
      of Stock". A negative count reads "Out of Stock" yet leaves the
      button enabled, with no selector. */
  lemma StockViewsAgree(stock: int)
    ensures ShowsQtySelector(stock) ==> !AddDisabled(stock) && StockStatus(stock) == "In Stock"
    ensures AddDisabled(stock) ==> StockStatus(stock) == "Out of Stock" && !ShowsQtySelector(stock)
    ensures stock < 0 ==> StockStatus(stock) == "Out of Stock" && !AddDisabled(stock) && !ShowsQtySelector(stock)
  {
  }

  /** A part with the LOW STOCK badge can be bought in any quantity up to
      its whole stock. */
  lemma {:induction false} LowStockFullyOffered(p: Part)
    requires Inventory.LowStock(p)
    ensures ShowsQtySelector(p.countInStock) && !AddDisabled(p.countInStock)
    ensures QtyOptions(p.countInStock) == Numbered(p.countInStock)
  {
  }

  class PartDetailsPage {
    /** The fetched part; None until the request succeeds. */
    var part: Option<Part>
    var qty: int

    /** The selected quantity is one of the options, or the initial 1. */
    ghost predicate Valid()
      reads this
    {
      1 <= qty <= MaxOptions &&
      (qty != 1 ==> part.Some? && part.value.countInStock >= 0 && qty in QtyOptions(part.value.countInStock))
    }

    /** Mounting: the quantity starts at 1; `reply` is the fetched part, or
        None when the request failed. */
    constructor (reply: Option<Part>)
      ensures part == reply && qty == 1 && Valid()
    {
      part, qty := reply, 1;
    }

    /** Picking the `k`-th option of the selector, which is only shown for
        a positive stock. */
    method SelectQty(k: nat)
      requires part.Some? && ShowsQtySelector(part.value.countInStock)
      requires k < |QtyOptions(part.value.countInStock)|
      modifies this
      ensures part == old(part) && Valid()
      ensures qty == QtyOptions(part.value.countInStock)[k] && qty == k + 1
    {
      qty := QtyOptions(part.value.countInStock)[k];
    }

    /** `handleAddToCart`: the loaded part is added with the selected
        quantity (the button is rendered once the part is loaded and clicks
        only when enabled) and the page goes to the cart. When the stock is
        positive the quantity added does not exceed it. */
    method HandleAddToCart(cart: Cart) returns (goTo: Location)
      requires Valid() && part.Some? && !AddDisabled(part.value.countInStock)
      modifies cart
      ensures cart.items == Added(old(cart.items), part.value, qty)
      ensures cart.saved == Some(cart.items)
      ensures old(UniqueIds(cart.items, ItemId)) ==> UniqueIds(cart.items, ItemId)
      ensures 1 <= qty <= MaxOptions
      ensures part.value.countInStock > 0 ==> qty <= part.value.countInStock
      ensures goTo == CartRoute
    {
      cart.AddToCart(part.value, qty);
      goTo := CartRoute;
    }
  }
}
