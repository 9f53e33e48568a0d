/** The catalog page: the name search over the catalog and the grouping of
    its result into one section per category, in category order. */
module CatalogPage {
  import opened Types
  import opened Seqs
  import opened Catalog

  /** `filteredProducts`: the whole catalog without a query, otherwise the
      products whose lowercased name contains the lowercased query. */
  function FilteredProducts(searchQuery: string, lower: string -> string): (r: seq<Product>)
    ensures IsSubsequence(r, Products)
    ensures searchQuery == "" ==> r == Products
    ensures searchQuery != "" ==>
      forall p :: p in r <==> p in Products && Includes(lower(p.name), lower(searchQuery))
  {
    if searchQuery == "" then
      SubsequenceOfSelf(Products);
      Products
    else
      Filter(Products, (p: Product) => Includes(lower(p.name), lower(searchQuery)))
  }

  /** One section of the page: a category and its products. */
  datatype ProductGroup = ProductGroup(category: Category, items: seq<Product>)

  /** `categories.map(category => ({ category, items: filtered.filter(...) }))`:
      one group per category, in category order, each holding the filtered
      products of that category in filtered order. */
  function GroupProducts(categories: seq<Category>, filtered: seq<Product>): (groups: seq<ProductGroup>)
    ensures |groups| == |categories|
    ensures forall i :: 0 <= i < |groups| ==>
      groups[i].category == categories[i] && IsSubsequence(groups[i].items, filtered)
    ensures forall i, p :: 0 <= i < |groups| ==>
      (p in groups[i].items <==> p in filtered && p.categoryId == categories[i].id)
  {
    seq(|categories|, i requires 0 <= i < |categories| =>
      ProductGroup(categories[i], Filter(filtered, (p: Product) => p.categoryId == categories[i].id)))
  }

  /** `groupedProducts`. */
  function GroupedProducts(searchQuery: string, lower: string -> string): seq<ProductGroup>
  {
    GroupProducts(Categories, FilteredProducts(searchQuery, lower))
  }

  predicate DistinctIds(categories: seq<Category>)
  {
    forall i, j :: 0 <= i < j < |categories| ==> categories[i].id != categories[j].id
  }

  predicate HasCategory(categories: seq<Category>, id: string)
  {
    exists i :: 0 <= i < |categories| && categories[i].id == id
  }

  /** With distinct category ids a product falls into at most one group:
      the groups are pairwise disjoint. */
  lemma GroupsAreDisjoint(categories: seq<Category>, filtered: seq<Product>, i: int, j: int, p: Product)
    requires DistinctIds(categories)
    requires 0 <= i < j < |categories|
    ensures !(p in GroupProducts(categories, filtered)[i].items && p in GroupProducts(categories, filtered)[j].items)
  {
  }

  /** The listed categories have distinct ids. */
  lemma CategoryIdsAreDistinct()
    ensures DistinctIds(Categories)
  {
    assert CategoryIds() == ["1", "2", "3", "4", "5"];
  }

  /** Every catalog product belongs to a listed category. */
  lemma {:induction false} CatalogIsCategorised()
    ensures forall p :: p in Products ==> HasCategory(Categories, p.categoryId)
  {
    CatalogIsConsistent();
    forall p | p in Products
      ensures HasCategory(Categories, p.categoryId)
    {
      var ids := CategoryIds();
      assert p.categoryId in ids;
      var k :| 0 <= k < |ids| && ids[k] == p.categoryId;
      assert Categories[k].id == p.categoryId;
    }
  }

  /** On the page, no product appears in two sections. */
  lemma {:induction false} PageGroupsAreDisjoint(searchQuery: string, lower: string -> string, i: int, j: int, p: Product)
    requires 0 <= i < j < |Categories|
    ensures !(p in GroupedProducts(searchQuery, lower)[i].items && p in GroupedProducts(searchQuery, lower)[j].items)
  {
    CategoryIdsAreDistinct();
    GroupsAreDisjoint(Categories, FilteredProducts(searchQuery, lower), i, j, p);
  }

  /** The group sizes summed over the groups. */
  function TotalItems(groups: seq<ProductGroup>): nat
  {
    if groups == [] then 0 else |groups[0].items| + TotalItems(groups[1..])
  }

  /** The number of products of `filtered` counted category by category. */
  function GroupedCount(categories: seq<Category>, filtered: seq<Product>): nat
  {
    if categories == [] then 0
    else |Filter(filtered, (p: Product) => p.categoryId == categories[0].id)| + GroupedCount(categories[1..], filtered)
  }

  lemma {:induction false} TotalItemsIsGroupedCount(categories: seq<Category>, filtered: seq<Product>)
    ensures TotalItems(GroupProducts(categories, filtered)) == GroupedCount(categories, filtered)
    decreases |categories|
  {
    if categories != [] {
      assert GroupProducts(categories, filtered)[1..] == GroupProducts(categories[1..], filtered);
      TotalItemsIsGroupedCount(categories[1..], filtered);
    }
  }

  /** Nothing to count gives 0 in every category: the base case of
      `GroupedCountIsLength`. */
  lemma {:induction false} GroupedCountOfNothing(categories: seq<Category>)
    ensures GroupedCount(categories, []) == 0
    decreases |categories|
  {
    if categories != [] {
      GroupedCountOfNothing(categories[1..]);
    }
  }

  /** One more product adds one to the count when its category is listed,
      and nothing otherwise. */
  lemma {:induction false} GroupedCountCons(categories: seq<Category>, x: Product, s: seq<Product>)
    requires DistinctIds(categories)
    ensures GroupedCount(categories, [x] + s) ==
      GroupedCount(categories, s) + (if HasCategory(categories, x.categoryId) then 1 else 0)
    decreases |categories|
  {
    if categories != [] {
      var rest := categories[1..];
      assert DistinctIds(rest) by {
        forall i, j | 0 <= i < j < |rest| ensures rest[i].id != rest[j].id {
          assert rest[i] == categories[i + 1] && rest[j] == categories[j + 1];
        }
      }
      GroupedCountCons(rest, x, s);
      FilterCons(x, s, (p: Product) => p.categoryId == categories[0].id);
      if categories[0].id == x.categoryId {
        forall k | 0 <= k < |rest|
          ensures rest[k].id != x.categoryId
        {
          assert rest[k] == categories[k + 1];
        }
      } else {
        if HasCategory(categories, x.categoryId) {
          var k :| 0 <= k < |categories| && categories[k].id == x.categoryId;
          assert rest[k - 1].id == x.categoryId;
        }
        if HasCategory(rest, x.categoryId) {
          var k :| 0 <= k < |rest| && rest[k].id == x.categoryId;
          assert categories[k + 1].id == x.categoryId;
        }
      }
    }
  }

  /** When categories are distinct and every product's category is listed,
      counting category by category counts every product once. */
  lemma {:induction false} GroupedCountIsLength(categories: seq<Category>, filtered: seq<Product>)
    requires DistinctIds(categories)
    requires forall p :: p in filtered ==> HasCategory(categories, p.categoryId)
    ensures GroupedCount(categories, filtered) == |filtered|
    decreases |filtered|
  {
    if filtered == [] {
      GroupedCountOfNothing(categories);
    } else {
      var x, rest := filtered[0], filtered[1..];
      assert filtered == [x] + rest;
      assert forall p :: p in rest ==> p in filtered;
      GroupedCountIsLength(categories, rest);
      GroupedCountCons(categories, x, rest);
    }
  }

  /** The sections partition the search result: their sizes add up to the
      number of products found, so every found product is in exactly one
      section. */
  lemma {:induction false} GroupsPartitionFiltered(searchQuery: string, lower: string -> string)
    ensures TotalItems(GroupedProducts(searchQuery, lower)) == |FilteredProducts(searchQuery, lower)|
  {
    var filtered := FilteredProducts(searchQuery, lower);
    CategoryIdsAreDistinct();
    CatalogIsCategorised();
    assert forall p :: p in filtered ==> p in Products;
    TotalItemsIsGroupedCount(Categories, filtered);
    GroupedCountIsLength(Categories, filtered);
  }

  /** What the page renders below the category tiles. */
  datatype CatalogView =
    | SearchResults(found: seq<Product>)
    | CategorySections(sections: seq<ProductGroup>)

  /** With a query, one grid of everything found; without one, a section per
      category that has products, in category order. */
  function CatalogPageView(searchQuery: string, lower: string -> string): (view: CatalogView)
    ensures view.SearchResults? <==> searchQuery != ""
    ensures view.SearchResults? ==> view.found == FilteredProducts(searchQuery, lower)
    ensures view.CategorySections? ==>
      IsSubsequence(view.sections, GroupedProducts(searchQuery, lower)) &&
      forall g :: g in view.sections <==> g in GroupedProducts(searchQuery, lower) && g.items != []
  {
    if searchQuery != "" then SearchResults(FilteredProducts(searchQuery, lower))
    else CategorySections(Filter(GroupedProducts(searchQuery, lower), (g: ProductGroup) => g.items != []))
  }
}
