/** The cart store: an ordered, append-only list of cart items. */
module Store {
  import opened Booking

  /** The observable store object; `cart` is the array it pushes onto. */
  class CartStore {
    var cart: seq<CartItem>

    /** A fresh store holds an empty cart. */
    constructor ()
      ensures cart == []
    {
      cart := [];
    }

    /** Pushes `item` onto the end of the cart; any item is accepted. */
    method AddCartItem(item: CartItem)
      modifies this
      ensures cart == old(cart) + [item]
      ensures |cart| == |old(cart)| + 1 && cart[|cart| - 1] == item
      ensures old(cart) <= cart
    {
      cart := cart + [item];
    }
  }

  /** The cart after calling `addCartItem` on each of `items`, one call at a
      time and in order, starting from `cart`. Each step `cart + [items[0]]` is
      exactly the new cart that `CartStore.AddCartItem` ensures
      (`cart == old(cart) + [item]`), so the lemmas below hold of the `cart`
      field of a store after that series of calls. */
  function AddAll(cart: seq<CartItem>, items: seq<CartItem>): (r: seq<CartItem>)
    ensures |r| == |cart| + |items|
    ensures cart <= r
    decreases |items|
  {
    if items == [] then cart else AddAll(cart + [items[0]], items[1..])
  }

  /** Successive pushes lay the items down after the old cart, in call order. */
  lemma {:induction false} AddAllInOrder(cart: seq<CartItem>, items: seq<CartItem>)
    ensures AddAll(cart, items) == cart + items
    decreases |items|
  {
    if items != [] {
      AddAllInOrder(cart + [items[0]], items[1..]);
      assert (cart + [items[0]]) + items[1..] == cart + items;
    }
  }

  /** From a fresh store, N calls leave exactly the N items, in call order. */
  lemma FreshStoreAfterCalls(items: seq<CartItem>)
    ensures AddAll([], items) == items
    ensures |AddAll([], items)| == |items|
  {
    AddAllInOrder([], items);
  }

  /** Adding the same item twice keeps two separate entries: no dedup, no merge. */
  lemma AddSameItemTwice(cart: seq<CartItem>, item: CartItem)
    ensures AddAll(cart, [item, item]) == cart + [item, item]
    ensures |AddAll(cart, [item, item])| == |cart| + 2
  {
  }

  /** Every element the cart held before a sequence of calls stays in place. */
  lemma AddAllKeepsEarlier(cart: seq<CartItem>, items: seq<CartItem>, k: nat)
    requires k < |cart|
    ensures AddAll(cart, items)[k] == cart[k]
  {
  }
}
