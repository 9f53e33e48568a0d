/** The static catalog (five categories, ten products) and the pure
    queries over it: by category, similar products, discounted products and
    text search. Every query is an order-preserving filter of `Products`. */
module Catalog {
  import opened Types
  import opened Seqs

  const Categories: seq<Category> := [
    Category("1", "Орехи", "🥜", "nuts"),
    Category("2", "Сухофрукты", "🍇", "dried-fruits"),
    Category("3", "Смеси", "🥗", "mixes"),
    Category("4", "Цукаты", "🍬", "candied"),
    Category("5", "Семена", "🌻", "seeds")]

  const P1: Product := Product(
    id := "1",
    name := "Малина Franui в молочном и белом шоколаде замороженная",
    description := "Свежая малина в нежном молочном и белом шоколаде. Идеальный десерт для любого случая. Малина собирается на экологически чистых плантациях Патагонии и покрывается натуральным бельгийским шоколадом.",
    price := 899,
    originalPrice := None,
    discountPercent := None,
    categoryId := "2",
    images := [
      "https://images.unsplash.com/photo-1587815073078-f636169821e3?w=400&h=400&fit=crop",
      "https://images.unsplash.com/photo-1563746098251-d35aef196e83?w=400&h=400&fit=crop",
      "https://images.unsplash.com/photo-1560806887-1e4cd0b6cbd6?w=400&h=400&fit=crop"],
    tags := ["Десерты", "Замороженные десерты", "Franui"],
    weight := "150 г",
    inStock := true,
    isFrozen := true,
    variants := Some([
      ProductVariant("v1", "150 г", 899, "150 г"),
      ProductVariant("v2", "300 г", 1699, "300 г")]))

  const P2: Product := Product(
    id := "2",
    name := "Чебупицца Горячая штучка",
    description := "Вкуснейшая чебупицца с сыром и ветчиной. Идеально подходит для быстрого перекуса. Просто разогрейте в микроволновке 2-3 минуты.",
    price := 145,
    originalPrice := Some(239),
    discountPercent := Some(39),
    categoryId := "3",
    images := [
      "https://images.unsplash.com/photo-1565299624946-b28f40a0ae38?w=400&h=400&fit=crop",
      "https://images.unsplash.com/photo-1574071318508-1cdbab80d002?w=400&h=400&fit=crop"],
    tags := ["Готовая еда", "Замороженное"],
    weight := "250 г",
    inStock := true,
    isFrozen := true,
    variants := None)

  const P3: Product := Product(
    id := "3",
    name := "Миндаль жареный соленый",
    description := "Отборный миндаль, обжаренный до золотистого цвета с морской солью. Богат витамином E и полезными жирами. Идеальный снек для здорового перекуса.",
    price := 450,
    originalPrice := None,
    discountPercent := None,
    categoryId := "1",
    images := [
      "https://images.unsplash.com/photo-1508061253366-f7da158b6d46?w=400&h=400&fit=crop",
      "https://images.unsplash.com/photo-1609534717940-6dc2241c9778?w=400&h=400&fit=crop"],
    tags := ["Орехи", "Снеки"],
    weight := "200 г",
    inStock := true,
    isFrozen := false,
    variants := Some([
      ProductVariant("v1", "100 г", 250, "100 г"),
      ProductVariant("v2", "200 г", 450, "200 г"),
      ProductVariant("v3", "500 г", 999, "500 г")]))

  const P4: Product := Product(
    id := "4",
    name := "Кешью натуральный",
    description := "Нежный кешью без обработки, сохранивший все полезные свойства. Выращен во Вьетнаме. Содержит магний, цинк и железо.",
    price := 590,
    originalPrice := Some(690),
    discountPercent := Some(15),
    categoryId := "1",
    images := [
      "https://images.unsplash.com/photo-1563292651-4d6c7b893cb8?w=400&h=400&fit=crop"],
    tags := ["Орехи", "Натуральное"],
    weight := "250 г",
    inStock := true,
    isFrozen := false,
    variants := Some([
      ProductVariant("v1", "250 г", 590, "250 г"),
      ProductVariant("v2", "500 г", 1099, "500 г")]))

  const P5: Product := Product(
    id := "5",
    name := "Финики Меджул премиум",
    description := "Королевские финики Меджул — самые крупные и сладкие. Выращены в Израиле. Природный источник энергии, богаты калием и клетчаткой.",
    price := 799,
    originalPrice := None,
    discountPercent := None,
    categoryId := "2",
    images := [
      "https://images.unsplash.com/photo-1593904308877-9bcb88b4e7b1?w=400&h=400&fit=crop"],
    tags := ["Сухофрукты", "Премиум"],
    weight := "500 г",
    inStock := true,
    isFrozen := false,
    variants := None)

  const P6: Product := Product(
    id := "6",
    name := "Курага узбекская отборная",
    description := "Сочная курага из солнечного Узбекистана без добавления сахара. Натуральная сушка на солнце сохраняет все витамины.",
    price := 320,
    originalPrice := Some(399),
    discountPercent := Some(20),
    categoryId := "2",
    images := [
      "https://images.unsplash.com/photo-1596273501048-8eb4c826c8c5?w=400&h=400&fit=crop"],
    tags := ["Сухофрукты", "Без сахара"],
    weight := "300 г",
    inStock := true,
    isFrozen := false,
    variants := None)

  const P7: Product := Product(
    id := "7",
    name := "Микс орехов и сухофруктов",
    description := "Сбалансированная смесь орехов и сухофруктов для перекуса. В составе: миндаль, кешью, изюм, курага, чернослив.",
    price := 420,
    originalPrice := None,
    discountPercent := None,
    categoryId := "3",
    images := [
      "https://images.unsplash.com/photo-1604068549290-dea0e4a305ca?w=400&h=400&fit=crop"],
    tags := ["Смеси", "Перекус"],
    weight := "250 г",
    inStock := true,
    isFrozen := false,
    variants := None)

  const P8: Product := Product(
    id := "8",
    name := "Грецкий орех очищенный",
    description := "Отборные ядра грецкого ореха, богатые омега-3. Улучшают работу мозга и сердечно-сосудистой системы.",
    price := 380,
    originalPrice := None,
    discountPercent := None,
    categoryId := "1",
    images := [
      "https://images.unsplash.com/photo-1605493725784-de00195cc589?w=400&h=400&fit=crop"],
    tags := ["Орехи", "Полезное"],
    weight := "200 г",
    inStock := true,
    isFrozen := false,
    variants := None)

  const P9: Product := Product(
    id := "9",
    name := "Чернослив без косточки",
    description := "Мягкий чернослив без косточки, идеален для выпечки и употребления в чистом виде. Улучшает пищеварение.",
    price := 280,
    originalPrice := Some(350),
    discountPercent := Some(20),
    categoryId := "2",
    images := [
      "https://images.unsplash.com/photo-1597714026720-8f74c62310ba?w=400&h=400&fit=crop"],
    tags := ["Сухофрукты", "Для выпечки"],
    weight := "300 г",
    inStock := true,
    isFrozen := false,
    variants := None)

  const P10: Product := Product(
    id := "10",
    name := "Фундук жареный",
    description := "Ароматный фундук, обжаренный до хруста. Богат витамином E и фолиевой кислотой. Идеален для десертов.",
    price := 520,
    originalPrice := None,
    discountPercent := None,
    categoryId := "1",
    images := [
      "https://images.unsplash.com/photo-1574570068583-f77c67e1d0f1?w=400&h=400&fit=crop"],
    tags := ["Орехи", "Жареные"],
    weight := "200 г",
    inStock := true,
    isFrozen := false,
    variants := None)

  const Products: seq<Product> := [P1, P2, P3, P4, P5, P6, P7, P8, P9, P10]

  /** The category ids the catalog lists, in order. */
  function CategoryIds(): (ids: seq<string>)
    ensures |ids| == |Categories|
    ensures forall i :: 0 <= i < |ids| ==> ids[i] == Categories[i].id
  {
    seq(|Categories|, i requires 0 <= i < |Categories| => Categories[i].id)
  }

  /** `p.discountPercent` is truthy: the product is on sale. */
  predicate IsDiscounted(p: Product)
  {
    Truthy(p.discountPercent)
  }

  /** `p.isFrozen`: the product is sold frozen. */
  predicate IsFrozen(p: Product)
  {
    p.isFrozen
  }

  /** `getProductsByCategory`: the whole catalog for "all", the frozen
      products for "frozen", otherwise the products of that category. */
  function GetProductsByCategory(categoryId: string): (r: seq<Product>)
    ensures IsSubsequence(r, Products)
    ensures categoryId == "all" ==> r == Products
    ensures categoryId == "frozen" ==>
      forall p :: p in r <==> p in Products && p.isFrozen
    ensures categoryId != "all" && categoryId != "frozen" ==>
      forall p :: p in r <==> p in Products && p.categoryId == categoryId
  {
    if categoryId == "all" then
      SubsequenceOfSelf(Products);
      Products
    else if categoryId == "frozen" then
      Filter(Products, IsFrozen)
    else
      Filter(Products, (p: Product) => p.categoryId == categoryId)
  }

  /** The first `end` positions kept by `slice(0, end)` on a list of length
      `len`: a negative end counts back from the end of the list. */
  function SliceEnd(len: nat, end: int): (k: nat)
    ensures k <= len
    ensures 0 <= end ==> k == if end < len then end else len
    ensures end < 0 ==> k == if len + end < 0 then 0 else len + end
  {
    if end < 0 then (if len + end < 0 then 0 else len + end)
    else if end < len then end
    else len
  }

  /** Another product of the same category. */
  predicate IsSimilar(product: Product, p: Product)
  {
    p.id != product.id && p.categoryId == product.categoryId
  }

  /** `getSimilarProducts(product, limit = 6)`: the first `limit` other
      products of the same category, in catalog order; a negative limit
      drops that many from the end of the list, as `slice` does. */
  function GetSimilarProducts(product: Product, limit: int := 6): (r: seq<Product>)
    ensures IsSubsequence(r, Products)
    ensures forall p :: p in r ==> p in Products && IsSimilar(product, p)
    ensures |r| == SliceEnd(|Filter(Products, (p: Product) => IsSimilar(product, p))|, limit)
    ensures 0 <= limit ==> |r| <= limit
    ensures 0 <= limit && |r| < limit ==>
      forall p :: p in Products && IsSimilar(product, p) ==> p in r
  {
    var similar := Filter(Products, (p: Product) => IsSimilar(product, p));
    var k := SliceEnd(|similar|, limit);
    PrefixOfSubsequence(similar, Products, k);
    assert forall p :: p in similar[..k] ==> p in similar;
    similar[..k]
  }

  /** The kept similar products are the first ones: a similar product
      that comes before a kept one in the catalog is kept too. */
  lemma {:induction false} SimilarProductsAreTheFirst(product: Product, limit: int, i: int, j: int)
    requires 0 <= i < j < |Products|
    requires IsSimilar(product, Products[i]) && Products[j] in GetSimilarProducts(product, limit)
    ensures Products[i] in GetSimilarProducts(product, limit)
  {
    CatalogIsConsistent();
    var keep := (p: Product) => IsSimilar(product, p);
    var similar := Filter(Products, keep);
    FilterPrefixKeepsEarlier(Products, keep, SliceEnd(|similar|, limit), i, j);
  }

  /** `getDiscountedProducts`: the products whose `discountPercent` is
      present and non-zero. */
  function GetDiscountedProducts(): (r: seq<Product>)
    ensures IsSubsequence(r, Products)
    ensures forall p :: p in r <==> p in Products && IsDiscounted(p)
  {
    Filter(Products, IsDiscounted)
  }

  /** A product matches the lowercased query when its lowercased name,
      description or one of its lowercased tags contains it. */
  predicate MatchesQuery(p: Product, lowerQuery: string, lower: string -> string)
  {
    Includes(lower(p.name), lowerQuery) ||
    Includes(lower(p.description), lowerQuery) ||
    exists tag :: tag in p.tags && Includes(lower(tag), lowerQuery)
  }

  /** `searchProducts(query)`, with `toLowerCase` supplied as `lower`. */
  function SearchProducts(query: string, lower: string -> string): (r: seq<Product>)
    ensures IsSubsequence(r, Products)
    ensures forall p :: p in r <==> p in Products && MatchesQuery(p, lower(query), lower)
  {
    Filter(Products, (p: Product) => MatchesQuery(p, lower(query), lower))
  }

  /** Data check: product ids are pairwise distinct, every product belongs
      to a listed category, and every product carrying a discount percent
      also carries an original price above its price. */
  lemma CatalogIsConsistent()
    ensures forall i, j :: 0 <= i < j < |Products| ==> Products[i].id != Products[j].id
    ensures forall p :: p in Products ==> p.categoryId in CategoryIds()
    ensures forall p :: p in Products && p.discountPercent.Some? ==>
      p.originalPrice.Some? && p.originalPrice.value > p.price
  {
    var ids := CategoryIds();
    assert ids == ["1", "2", "3", "4", "5"];
  }

  /** Data check: every price is positive. */
  lemma CatalogPricesArePositive()
    ensures forall p :: p in Products ==> p.price > 0
  {
  }

  /** An id that is neither "all", "frozen" nor a listed category selects
      nothing. */
  lemma {:induction false} UnknownCategoryIsEmpty(categoryId: string)
    requires categoryId != "all" && categoryId != "frozen"
    requires categoryId !in CategoryIds()
    ensures GetProductsByCategory(categoryId) == []
  {
    CatalogIsConsistent();
    FilterNone(Products, (p: Product) => p.categoryId == categoryId);
  }

  /** When `lower` maps the empty query to itself (as `toLowerCase` does),
      the empty search keeps the whole catalog. */
  lemma {:induction false} EmptySearchKeepsAll(lower: string -> string)
    requires lower("") == ""
    ensures SearchProducts("", lower) == Products
  {
    forall p | p in Products
      ensures MatchesQuery(p, lower(""), lower)
    {
      assert "" <= lower(p.name);
    }
    FilterAll(Products, p => MatchesQuery(p, lower(""), lower));
  }
}
