/** The cart summary bar: the item count with its Russian plural word, the
    total, and nothing at all for an empty cart. */
module CartSummary {
  import opened Types
  import opened Cart

  /** `getItemWord(count)`: "товар" for exactly one, "товара" for two to
      four, "товаров" for every other count. */
  function ItemWord(count: int): (word: string)
    ensures word == "товар" <==> count == 1
    ensures word == "товара" <==> 2 <= count <= 4
    ensures word == "товаров" <==> count != 1 && !(2 <= count <= 4)
  {
    if count == 1 then "товар"
    else if 2 <= count <= 4 then "товара"
    else "товаров"
  }

  /** The word the rule gives for 0, 11 and 21: the rule looks at the whole
      count, not its last digits, so 21 reads "товаров". */
  lemma ItemWordSamples()
    ensures ItemWord(0) == "товаров" && ItemWord(11) == "товаров" && ItemWord(21) == "товаров"
    ensures ItemWord(1) == "товар" && ItemWord(3) == "товара"
  {
  }

  /** The content of the bar. */
  datatype Summary = Summary(itemCount: int, itemWord: string, total: int)

  /** `CartSummary`: nothing for a cart without lines, otherwise the unit
      count, its word and the cart total. */
  function CartSummaryView(cart: seq<CartLine>): (summary: Option<Summary>)
    ensures summary.None? <==> |cart| == 0
    ensures summary.Some? ==>
      summary.value.itemCount == ItemCount(cart) &&
      summary.value.itemWord == ItemWord(ItemCount(cart)) &&
      summary.value.total == CartTotal(cart)
  {
    if |cart| == 0 then None
    else Some(Summary(ItemCount(cart), ItemWord(ItemCount(cart)), CartTotal(cart)))
  }
}
