/** The price block of a product: the current price, the struck-through
    original price and the discount badge. */
module PriceDisplay {
  import opened Types
  import opened Catalog

  /** `hasDiscount = originalPrice && originalPrice > price`: an original
      price that is present, non-zero and above the price. */
  predicate HasDiscount(price: int, originalPrice: Option<int>)
  {
    Truthy(originalPrice) && originalPrice.value > price
  }

  /** What the block shows: the price always, the original price and the
      badge percent when they are shown. */
  datatype PriceView = PriceView(current: int, struck: Option<int>, badge: Option<int>)

  /** `PriceDisplay`: the original price only with a discount, the badge
      only with a discount and a truthy percent. */
  function PriceBlock(price: int, originalPrice: Option<int>, discountPercent: Option<int>): (view: PriceView)
    ensures view.current == price
    ensures view.struck.Some? <==> HasDiscount(price, originalPrice)
    ensures view.struck.Some? ==> view.struck.value == originalPrice.value && view.struck.value > price
    ensures view.badge.Some? <==> HasDiscount(price, originalPrice) && Truthy(discountPercent)
    ensures view.badge.Some? ==> view.badge.value == discountPercent.value && view.badge.value != 0
    ensures view.badge.Some? ==> view.struck.Some?
  {
    if HasDiscount(price, originalPrice) then
      PriceView(price, Some(originalPrice.value),
                if Truthy(discountPercent) then Some(discountPercent.value) else None)
    else
      PriceView(price, None, None)
  }

  /** Every catalog product on sale shows its original price and its badge:
      the catalog data never sets a percent without a higher original
      price. */
  lemma {:induction false} CatalogSaleShowsBadge(p: Product)
    requires p in Products && IsDiscounted(p)
    ensures PriceBlock(p.price, p.originalPrice, p.discountPercent).badge == Some(p.discountPercent.value)
    ensures PriceBlock(p.price, p.originalPrice, p.discountPercent).struck == Some(p.originalPrice.value)
  {
    CatalogIsConsistent();
    CatalogPricesArePositive();
  }
}
