/** The client cart: a list of line items keyed by the part's `_id`, kept
    in a context object and mirrored to the browser's local storage under
    the key `cartItems`. */
module CartContext {
  import opened Base
  import opened Keyed
  import opened Parts

  /** A cart line: the part as it was fetched, plus the quantity. */
  datatype CartItem = CartItem(part: Part, qty: int)

  function ItemId(x: CartItem): Id { x.part.id }

  /** Adds `n` to a line's quantity. */
  function Increase(n: int): CartItem -> CartItem
  {
    (x: CartItem) => x.(qty := x.qty + n)
  }

  /** The new list `addToCart(part, n)` computes: a line already holding
      the part gets `n` more, in place; otherwise a new line is appended. */
  function Added(items: seq<CartItem>, part: Part, n: int): (r: seq<CartItem>)
    ensures HasId(items, ItemId, part.id) ==> |r| == |items|
    ensures HasId(items, ItemId, part.id) ==>
      forall i :: 0 <= i < |items| ==>
        r[i] == if ItemId(items[i]) == part.id then items[i].(qty := items[i].qty + n) else items[i]
    ensures !HasId(items, ItemId, part.id) ==> r == items + [CartItem(part, n)]
  {
    if HasId(items, ItemId, part.id) then UpdateWhere(items, ItemId, part.id, Increase(n))
    else items + [CartItem(part, n)]
  }

  /** The new list `removeFromCart(id)` computes. */
  function Removed(items: seq<CartItem>, id: Id): (r: seq<CartItem>)
    ensures |r| <= |items|
    ensures forall x :: x in r ==> x in items && ItemId(x) != id
  {
    Without(items, ItemId, id)
  }

  /** Adding keeps the ids of the cart unique. */
  lemma {:induction false} AddedUnique(items: seq<CartItem>, part: Part, n: int)
    requires UniqueIds(items, ItemId)
    ensures UniqueIds(Added(items, part, n), ItemId)
  {
  }

  /** Removing keeps the ids of the cart unique. */
  lemma RemovedUnique(items: seq<CartItem>, id: Id)
    requires UniqueIds(items, ItemId)
    ensures UniqueIds(Removed(items, id), ItemId)
  {
    WithoutUnique(items, ItemId, id);
  }

  /** Removing drops exactly the lines with that id and keeps the others in
      their order; removing an id that is not in the cart changes nothing. */
  lemma RemovedExactly(items: seq<CartItem>, other: seq<CartItem>, id: Id, x: CartItem)
    ensures multiset(Removed(items, id))[x] == if ItemId(x) == id then 0 else multiset(items)[x]
    ensures Removed(items + other, id) == Removed(items, id) + Removed(other, id)
    ensures !HasId(items, ItemId, id) ==> Removed(items, id) == items
  {
    WithoutMultiset(items, ItemId, id, x);
    WithoutAppend(items, other, ItemId, id);
    if !HasId(items, ItemId, id) {
      WithoutAbsent(items, ItemId, id);
    }
  }

  /** The total quantity held under `id`. */
  function QtyOf(items: seq<CartItem>, id: Id): int
  {
    if items == [] then 0
    else (if ItemId(items[0]) == id then items[0].qty else 0) + QtyOf(items[1..], id)
  }

  lemma {:induction false} QtyOfAbsent(items: seq<CartItem>, id: Id)
    requires !HasId(items, ItemId, id)
    ensures QtyOf(items, id) == 0
  {
    if items != [] {
      assert !HasId(items[1..], ItemId, id) by {
        forall k | 0 <= k < |items[1..]| ensures ItemId(items[1..][k]) != id {
          assert items[1..][k] == items[k + 1];
        }
      }
      QtyOfAbsent(items[1..], id);
    }
  }

  lemma {:induction false} QtyOfAppend(a: seq<CartItem>, b: seq<CartItem>, id: Id)
    ensures QtyOf(a + b, id) == QtyOf(a, id) + QtyOf(b, id)
  {
    if a == [] {
      assert a + b == b;
    } else {
      assert (a + b)[0] == a[0];
      assert (a + b)[1..] == a[1..] + b;
      QtyOfAppend(a[1..], b, id);
    }
  }

  /** Adding `n` of a part raises the quantity held under its id by `n`,
      whether the part was in the cart or not, and leaves every other id's
      quantity as it was. */
  lemma {:induction false} AddedQty(items: seq<CartItem>, part: Part, n: int, other: Id)
    requires UniqueIds(items, ItemId)
    ensures QtyOf(Added(items, part, n), part.id) == QtyOf(items, part.id) + n
    ensures other != part.id ==> QtyOf(Added(items, part, n), other) == QtyOf(items, other)
  {
    if HasId(items, ItemId, part.id) {
      BumpedQty(items, part.id, n, other);
    } else {
      QtyOfAppend(items, [CartItem(part, n)], part.id);
      QtyOfAppend(items, [CartItem(part, n)], other);
    }
  }

  lemma {:induction false} BumpedQty(items: seq<CartItem>, id: Id, n: int, other: Id)
    requires UniqueIds(items, ItemId) && HasId(items, ItemId, id)
    ensures QtyOf(UpdateWhere(items, ItemId, id, Increase(n)), id) == QtyOf(items, id) + n
    ensures other != id ==> QtyOf(UpdateWhere(items, ItemId, id, Increase(n)), other) == QtyOf(items, other)
  {
    var r := UpdateWhere(items, ItemId, id, Increase(n));
    assert r[1..] == UpdateWhere(items[1..], ItemId, id, Increase(n));
    assert UniqueIds(items[1..], ItemId) by {
      forall i, j | 0 <= i < j < |items[1..]| ensures ItemId(items[1..][i]) != ItemId(items[1..][j]) {
        assert items[1..][i] == items[i + 1] && items[1..][j] == items[j + 1];
      }
    }
    if ItemId(items[0]) == id {
      assert !HasId(items[1..], ItemId, id) by {
        forall k | 0 <= k < |items[1..]| ensures ItemId(items[1..][k]) != id {
          assert items[1..][k] == items[k + 1];
        }
      }
      assert r[1..] == items[1..];
      QtyOfAbsent(items[1..], id);
    } else {
      assert HasId(items[1..], ItemId, id) by {
        var k :| 0 <= k < |items| && ItemId(items[k]) == id;
        assert items[1..][k - 1] == items[k];
      }
      BumpedQty(items[1..], id, n, other);
    }
  }

  /** Successive additions of one part. */
  function AddedAll(items: seq<CartItem>, part: Part, ns: seq<int>): seq<CartItem>
    decreases |ns|
  {
    if ns == [] then items else AddedAll(Added(items, part, ns[0]), part, ns[1..])
  }

  function Sum(ns: seq<int>): int
  {
    if ns == [] then 0 else ns[0] + Sum(ns[1..])
  }

  /** After successive additions of the same part its quantity is the sum
      of the quantities added: nothing caps it. */
  lemma {:induction false} AddedAllQty(items: seq<CartItem>, part: Part, ns: seq<int>)
    requires UniqueIds(items, ItemId)
    ensures UniqueIds(AddedAll(items, part, ns), ItemId)
    ensures QtyOf(AddedAll(items, part, ns), part.id) == QtyOf(items, part.id) + Sum(ns)
    decreases |ns|
  {
    if ns != [] {
      AddedUnique(items, part, ns[0]);
      AddedQty(items, part, ns[0], part.id);
      AddedAllQty(Added(items, part, ns[0]), part, ns[1..]);
    }
  }

  /** The cart held by the context. `saved` is the local-storage entry,
      None when the key is absent. */
  class Cart {
    var items: seq<CartItem>
    ghost var saved: Option<seq<CartItem>>

    /** The stored copy agrees with the list in memory. */
    ghost predicate Mirrored()
      reads this
    {
      match saved
      case None => items == []
      case Some(s) => s == items
    }

    /** Mounting: the list starts empty and is then loaded from the stored
        copy, when there is one. */
    constructor (stored: Option<seq<CartItem>>)
      ensures items == (if stored.Some? then stored.value else [])
      ensures saved == stored && Mirrored()
    {
      items := [];
      saved := stored;
      if stored.Some? {
        items := stored.value;
      }
    }

    /** `addToCart(part, n)`. */
    method AddToCart(part: Part, n: int)
      modifies this
      ensures items == Added(old(items), part, n)
      ensures saved == Some(items) && Mirrored()
      ensures old(UniqueIds(items, ItemId)) ==> UniqueIds(items, ItemId)
    {
      if UniqueIds(items, ItemId) {
        AddedUnique(items, part, n);
      }
      var newItems := Added(items, part, n);
      items := newItems;
      saved := Some(newItems);
    }

    /** `removeFromCart(id)`. */
    method RemoveFromCart(id: Id)
      modifies this
      ensures items == Removed(old(items), id)
      ensures saved == Some(items) && Mirrored()
      ensures old(UniqueIds(items, ItemId)) ==> UniqueIds(items, ItemId)
    {
      if UniqueIds(items, ItemId) {
        RemovedUnique(items, id);
      }
      var newItems := Removed(items, id);
      items := newItems;
      saved := Some(newItems);
    }

    /** `clearCart()`: the list becomes empty and the stored copy is removed. */
    method ClearCart()
      modifies this
      ensures items == [] && saved == None && Mirrored()
    {
      items := [];
      saved := None;
    }
  }
}
