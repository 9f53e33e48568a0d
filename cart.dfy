/** The cart as its readers (checkout, cart summary) see it: a sequence of
    (product, quantity) lines. The cart store's code is not part of this
    model; its `getTotal` and `getItemCount` are taken to be the sum of
    `price * quantity` and the sum of the quantities. */
module Cart {
  import opened Types

  datatype CartLine = CartLine(product: Product, quantity: int, variantId: Option<string>)

  /** `getTotal()`: the sum of `product.price * quantity` over the lines. */
  function CartTotal(cart: seq<CartLine>): int
  {
    if cart == [] then 0
    else cart[0].product.price * cart[0].quantity + CartTotal(cart[1..])
  }

  /** `getItemCount()`: the sum of the quantities (units, not lines). */
  function ItemCount(cart: seq<CartLine>): int
  {
    if cart == [] then 0
    else cart[0].quantity + ItemCount(cart[1..])
  }
}
