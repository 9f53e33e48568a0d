/** The home page's product lists: the search-and-chip filtered results
    grid, shown only while there is a query, and otherwise the sale
    section, the frozen section and the whole catalog. */
module HomePage {
  import opened Types
  import opened Seqs
  import opened Catalog

  /** `matchesSearch`: an empty query matches everything; otherwise the
      lowercased name must contain the lowercased query. Description and
      tags are not searched here. */
  predicate MatchesSearch(p: Product, searchQuery: string, lower: string -> string)
  {
    searchQuery == "" || Includes(lower(p.name), lower(searchQuery))
  }

  /** `matchesCategory`: no chip (or an empty id) filters nothing; "sale"
      keeps discounted products; "favorites" and "history" keep
      everything; any other chip keeps nothing. */
  predicate MatchesCategory(p: Product, activeCategory: Option<string>)
  {
    activeCategory.None? || activeCategory.value == "" ||
    (activeCategory.value == "sale" && Truthy(p.discountPercent)) ||
    activeCategory.value == "favorites" ||
    activeCategory.value == "history"
  }

  /** `filteredProducts`, the list behind the results grid, with
      `toLowerCase` supplied as `lower`. */
  function FilteredProducts(searchQuery: string, activeCategory: Option<string>, lower: string -> string): (r: seq<Product>)
    ensures IsSubsequence(r, Products)
    ensures forall p :: p in r <==>
      p in Products && MatchesSearch(p, searchQuery, lower) && MatchesCategory(p, activeCategory)
  {
    Filter(Products, (p: Product) => MatchesSearch(p, searchQuery, lower) && MatchesCategory(p, activeCategory))
  }

  /** With no query and no chip `filteredProducts` is the whole catalog. */
  lemma {:induction false} UnfilteredShowsAll(lower: string -> string)
    ensures FilteredProducts("", None, lower) == Products
  {
    FilterAll(Products, (p: Product) => MatchesSearch(p, "", lower) && MatchesCategory(p, None));
  }

  /** A chip other than "sale", "favorites" and "history" (such as "new")
      empties `filteredProducts`, whatever the query; the results grid
      then reads 0. */
  lemma {:induction false} UnknownChipShowsNothing(searchQuery: string, chip: string, lower: string -> string)
    requires chip != "" && chip != "sale" && chip != "favorites" && chip != "history"
    ensures FilteredProducts(searchQuery, Some(chip), lower) == []
  {
    FilterNone(Products, (p: Product) => MatchesSearch(p, searchQuery, lower) && MatchesCategory(p, Some(chip)));
  }

  /** The "favorites" and "history" chips do not filter:
      `filteredProducts` is the list it is with no chip. */
  lemma {:induction false} FavoritesAndHistoryDoNotFilter(searchQuery: string, chip: string, lower: string -> string)
    requires chip == "favorites" || chip == "history"
    ensures FilteredProducts(searchQuery, Some(chip), lower) == FilteredProducts(searchQuery, None, lower)
  {
    FilterCongruent(Products,
      (p: Product) => MatchesSearch(p, searchQuery, lower) && MatchesCategory(p, Some(chip)),
      (p: Product) => MatchesSearch(p, searchQuery, lower) && MatchesCategory(p, None));
  }

  /** With an empty query, `filteredProducts` under the "sale" chip is
      what `getDiscountedProducts` returns (the page does not render it
      then: see `HomePageView`). */
  lemma {:induction false} SaleChipShowsDiscounted(lower: string -> string)
    ensures FilteredProducts("", Some("sale"), lower) == GetDiscountedProducts()
  {
    FilterCongruent(Products,
      (p: Product) => MatchesSearch(p, "", lower) && MatchesCategory(p, Some("sale")),
      IsDiscounted);
  }

  /** `discountProducts`: the sale carousel, which is the list
      `getDiscountedProducts` returns. */
  function DiscountProducts(): (r: seq<Product>)
    ensures r == GetDiscountedProducts()
  {
    var r := Filter(Products, (p: Product) => Truthy(p.discountPercent));
    FilterCongruent(Products, (p: Product) => Truthy(p.discountPercent), IsDiscounted);
    r
  }

  /** `frozenProducts`: the frozen carousel, which is the list
      `getProductsByCategory("frozen")` returns. */
  function FrozenProducts(): (r: seq<Product>)
    ensures r == GetProductsByCategory("frozen")
  {
    var r := Filter(Products, (p: Product) => p.isFrozen);
    FilterCongruent(Products, (p: Product) => p.isFrozen, IsFrozen);
    r
  }

  /** What the page renders below the chips. */
  datatype HomeView =
    | SearchResults(found: seq<Product>)
    | Showcase(discounts: Option<seq<Product>>, frozen: Option<seq<Product>>, all: seq<Product>)

  /** With a query, one results grid of `filteredProducts`; without one,
      the sale section if it has products, the frozen section if it has
      products, then the whole catalog. The chip is not consulted there. */
  function HomePageView(searchQuery: string, activeCategory: Option<string>, lower: string -> string): (view: HomeView)
    ensures view.SearchResults? <==> searchQuery != ""
    ensures view.SearchResults? ==> view.found == FilteredProducts(searchQuery, activeCategory, lower)
    ensures view.Showcase? ==>
      (view.discounts.Some? <==> GetDiscountedProducts() != []) &&
      (view.discounts.Some? ==> view.discounts.value == GetDiscountedProducts()) &&
      (view.frozen.Some? <==> GetProductsByCategory("frozen") != []) &&
      (view.frozen.Some? ==> view.frozen.value == GetProductsByCategory("frozen")) &&
      view.all == Products
  {
    if searchQuery != "" then SearchResults(FilteredProducts(searchQuery, activeCategory, lower))
    else
      var discounts := DiscountProducts();
      var frozen := FrozenProducts();
      Showcase(if |discounts| > 0 then Some(discounts) else None,
               if |frozen| > 0 then Some(frozen) else None,
               Products)
  }

  /** Without a query the active chip has no visible effect: every chip
      gives the page it gives with no chip. */
  lemma {:induction false} ChipIsInvisibleWithoutQuery(activeCategory: Option<string>, lower: string -> string)
    ensures HomePageView("", activeCategory, lower) == HomePageView("", None, lower)
  {
  }
}
