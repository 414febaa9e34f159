/** The total price shown in the cart summary. */
module Pricing {
  import opened Booking

  /** The ticket price, the same for every product. */
  const TicketPrice: nat := 1200

  /** The total: the number of cart items times the ticket price. */
  function TotalPrice(cart: seq<CartItem>): nat
  {
    |cart| * TicketPrice
  }

  /** What one item contributes: one ticket, whatever its product and passenger. */
  function ItemPrice(item: CartItem): nat
  {
    TicketPrice
  }

  /** Reference definition: the sum of the prices of the items, item by item. */
  function SumOfItemPrices(cart: seq<CartItem>): nat
  {
    if cart == [] then 0 else SumOfItemPrices(cart[..|cart| - 1]) + ItemPrice(cart[|cart| - 1])
  }

  /** The total equals the sum, over the items, of one ticket price each. */
  lemma {:induction false} TotalPriceIsSumOfItemPrices(cart: seq<CartItem>)
    ensures TotalPrice(cart) == SumOfItemPrices(cart)
  {
    if cart != [] {
      TotalPriceIsSumOfItemPrices(cart[..|cart| - 1]);
    }
  }

  /** An empty cart costs nothing. */
  lemma TotalPriceOfEmptyCart()
    ensures TotalPrice([]) == 0
  {
  }

  /** The total depends on the number of items only, not on their contents. */
  lemma TotalPriceIgnoresContents(a: seq<CartItem>, b: seq<CartItem>)
    ensures TotalPrice(a) == TotalPrice(b) <==> |a| == |b|
  {
  }

  /** Each added item raises the total by exactly one ticket price. */
  lemma TotalPriceOfAppend(cart: seq<CartItem>, item: CartItem)
    ensures TotalPrice(cart + [item]) == TotalPrice(cart) + TicketPrice
  {
  }
}
