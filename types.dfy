/** The shared value types of the storefront: products, categories,
    optional values, the host user and the clock reading that the stores
    stamp onto new records. */
module Types {

  datatype Option<+T> = None | Some(value: T)

  /** JavaScript truthiness of an optional number (`p.discountPercent`,
      `originalPrice && ...`): present and not zero. */
  predicate Truthy(n: Option<int>)
  {
    n.Some? && n.value != 0
  }

  datatype ProductVariant = ProductVariant(id: string, name: string, price: int, weight: string)

  /** A catalog product. Prices are whole roubles. */
  datatype Product = Product(
    id: string,
    name: string,
    description: string,
    price: int,
    originalPrice: Option<int>,
    discountPercent: Option<int>,
    categoryId: string,
    images: seq<string>,
    tags: seq<string>,
    weight: string,
    inStock: bool,
    isFrozen: bool,
    variants: Option<seq<ProductVariant>>)

  datatype Category = Category(id: string, name: string, icon: string, slug: string)

  /** What the host application reports about the signed-in user, with the
      numeric id already rendered as text. */
  datatype HostUser = HostUser(id: string, firstName: string)

  /** What the stores read from the clock: `Date.now()` in milliseconds,
      used in ids, and a `toISOString()` text, used as the timestamp. The
      stores read the clock twice; the model does not tie the text to the
      milliseconds. */
  datatype Clock = Clock(millis: nat, iso: string)
}
