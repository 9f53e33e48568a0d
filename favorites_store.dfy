/** The favorites store: the products the shopper has liked, in the order
    they were added, at most one entry per product id. */
module FavoritesStore {
  import opened Types
  import opened Seqs

  /** `items.some(p => p.id === id)`. */
  predicate HasId(items: seq<Product>, id: string)
  {
    exists p :: p in items && p.id == id
  }

  /** No product id occurs twice. */
  predicate UniqueIds(items: seq<Product>)
  {
    forall i, j :: 0 <= i < j < |items| ==> items[i].id != items[j].id
  }

  /** The list `addFavorite` leaves: unchanged when the id is present,
      otherwise the product appended. */
  function WithFavorite(items: seq<Product>, product: Product): seq<Product>
  {
    if HasId(items, product.id) then items else items + [product]
  }

  /** The list `removeFavorite` leaves: `items.filter(p => p.id !== id)`. */
  function WithoutFavorite(items: seq<Product>, id: string): seq<Product>
  {
    Filter(items, (p: Product) => p.id != id)
  }

  /** The list `toggleFavorite` leaves: remove when present, else add. */
  function Toggled(items: seq<Product>, product: Product): seq<Product>
  {
    if HasId(items, product.id) then WithoutFavorite(items, product.id)
    else WithFavorite(items, product)
  }

  /** Removing an id drops exactly the entries with that id and keeps the
      others in order; removing an absent id changes nothing. */
  lemma {:induction false} WithoutFavoriteDropsExactlyThatId(items: seq<Product>, id: string)
    ensures IsSubsequence(WithoutFavorite(items, id), items)
    ensures forall p :: p in WithoutFavorite(items, id) <==> p in items && p.id != id
    ensures !HasId(WithoutFavorite(items, id), id)
    ensures !HasId(items, id) ==> WithoutFavorite(items, id) == items
  {
    if !HasId(items, id) {
      FilterAll(items, (p: Product) => p.id != id);
    }
  }

  /** Adding keeps the ids pairwise distinct. */
  lemma {:induction false} WithFavoriteKeepsIdsUnique(items: seq<Product>, product: Product)
    requires UniqueIds(items)
    ensures UniqueIds(WithFavorite(items, product))
  {
    if !HasId(items, product.id) {
      var r := items + [product];
      forall i, j | 0 <= i < j < |r|
        ensures r[i].id != r[j].id
      {
        if j == |items| {
          assert r[i] in items;
        }
      }
    }
  }

  /** Removing keeps the ids pairwise distinct. */
  lemma {:induction false} WithoutFavoriteKeepsIdsUnique(items: seq<Product>, id: string)
    requires UniqueIds(items)
    ensures UniqueIds(WithoutFavorite(items, id))
    decreases |items|
  {
    if items != [] {
      var keep := (p: Product) => p.id != id;
      var rest := items[1..];
      assert UniqueIds(rest) by {
        forall i, j | 0 <= i < j < |rest|
          ensures rest[i].id != rest[j].id
        {
          assert rest[i] == items[i + 1] && rest[j] == items[j + 1];
        }
      }
      WithoutFavoriteKeepsIdsUnique(rest, id);
      assert items == [items[0]] + rest;
      FilterCons(items[0], rest, keep);
      var tail := WithoutFavorite(rest, id);
      if keep(items[0]) {
        var r := [items[0]] + tail;
        forall i, j | 0 <= i < j < |r|
          ensures r[i].id != r[j].id
        {
          if i == 0 {
            assert r[j] in tail;
            var k :| 0 <= k < |rest| && rest[k] == r[j];
            assert items[k + 1] == r[j];
          } else {
            assert r[i] == tail[i - 1] && r[j] == tail[j - 1];
          }
        }
      }
    }
  }

  /** Toggling keeps the ids pairwise distinct. */
  lemma {:induction false} ToggledKeepsIdsUnique(items: seq<Product>, product: Product)
    requires UniqueIds(items)
    ensures UniqueIds(Toggled(items, product))
  {
    if HasId(items, product.id) {
      WithoutFavoriteKeepsIdsUnique(items, product.id);
    } else {
      WithFavoriteKeepsIdsUnique(items, product);
    }
  }

  /** Toggling flips membership of the toggled id and leaves every other
      id's membership as it was. */
  lemma {:induction false} ToggledFlipsOnlyItsId(items: seq<Product>, product: Product, id: string)
    ensures HasId(Toggled(items, product), id) <==>
      if id == product.id then !HasId(items, id) else HasId(items, id)
  {
    WithoutFavoriteDropsExactlyThatId(items, product.id);
    if !HasId(items, product.id) {
      assert product in Toggled(items, product);
    }
    if HasId(items, id) && id != product.id {
      var p :| p in items && p.id == id;
      assert p in Toggled(items, product);
    }
  }

  /** Starting without the product, toggling it twice restores the list
      exactly. */
  lemma {:induction false} DoubleToggleFromAbsentRestores(items: seq<Product>, product: Product)
    requires !HasId(items, product.id)
    ensures Toggled(Toggled(items, product), product) == items
  {
    var keep := (p: Product) => p.id != product.id;
    assert Toggled(items, product) == items + [product];
    assert HasId(items + [product], product.id) by {
      assert product in items + [product];
    }
    FilterAppend(items, [product], keep);
    FilterAll(items, keep);
    FilterCons(product, [], keep);
  }

  /** Starting with the product, toggling it twice moves it to the end:
      the result is the list without it, then the product. */
  lemma {:induction false} DoubleToggleFromPresentMovesToEnd(items: seq<Product>, product: Product)
    requires HasId(items, product.id)
    ensures Toggled(Toggled(items, product), product) == WithoutFavorite(items, product.id) + [product]
  {
    WithoutFavoriteDropsExactlyThatId(items, product.id);
  }

  class Favorites {
    var items: seq<Product>

    /** The store starts with no favorites. */
    constructor ()
      ensures items == []
    {
      items := [];
    }

    /** `addFavorite`: a product whose id is present leaves the list as it
        is; otherwise it is appended after the existing entries. */
    method AddFavorite(product: Product)
      modifies this
      ensures items == WithFavorite(old(items), product)
      ensures HasId(old(items), product.id) ==> items == old(items)
      ensures !HasId(old(items), product.id) ==> items == old(items) + [product]
      ensures UniqueIds(old(items)) ==> UniqueIds(items)
    {
      if UniqueIds(items) {
        WithFavoriteKeepsIdsUnique(items, product);
      }
      if !HasId(items, product.id) {
        items := items + [product];
      }
    }

    /** `removeFavorite`: drops every entry with that id, keeping the rest in
        order. */
    method RemoveFavorite(productId: string)
      modifies this
      ensures items == WithoutFavorite(old(items), productId)
      ensures !HasId(items, productId)
      ensures !HasId(old(items), productId) ==> items == old(items)
      ensures UniqueIds(old(items)) ==> UniqueIds(items)
    {
      WithoutFavoriteDropsExactlyThatId(items, productId);
      if UniqueIds(items) {
        WithoutFavoriteKeepsIdsUnique(items, productId);
      }
      items := Filter(items, (p: Product) => p.id != productId);
    }

    /** `isFavorite`: some entry has that id. */
    function IsFavorite(productId: string): (b: bool)
      reads this
      ensures b <==> exists i :: 0 <= i < |items| && items[i].id == productId
    {
      HasId(items, productId)
    }

    /** `toggleFavorite`: removes the product when its id is present,
        otherwise adds it. */
    method ToggleFavorite(product: Product)
      modifies this
      ensures items == Toggled(old(items), product)
      ensures IsFavorite(product.id) == !old(IsFavorite(product.id))
      ensures forall id :: id != product.id ==> (IsFavorite(id) <==> old(IsFavorite(id)))
      ensures UniqueIds(old(items)) ==> UniqueIds(items)
    {
      ghost var before := items;
      forall id {
        ToggledFlipsOnlyItsId(before, product, id);
      }
      var isFav := IsFavorite(product.id);
      if isFav {
        RemoveFavorite(product.id);
      } else {
        AddFavorite(product);
      }
    }
  }
}
