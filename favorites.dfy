/** The favorites store (src/context/FavoritesContext.tsx): a list of products kept free
    of repeated ids, with add, remove, toggle, membership, clear and count. */
module Favorites {
  import opened Seqs
  import opened Catalog

  function OtherId(id: int): Product -> bool {
    (p: Product) => p.id != id
  }

  /** The list after `addToFavorites(product)`: unchanged when a product with that id is
      already present, otherwise the product appended at the end. */
  function WithFavorite(items: seq<Product>, product: Product): seq<Product> {
    if HasId(items, product.id) then items else items + [product]
  }

  /** The list after `removeFromFavorites(id)`: every product with that id dropped. */
  function WithoutFavorite(items: seq<Product>, id: int): seq<Product> {
    Filter(items, OtherId(id))
  }

  /** The list after `toggleFavorite(product)`: removed when present, added when absent. */
  function Toggled(items: seq<Product>, product: Product): seq<Product> {
    if HasId(items, product.id) then WithoutFavorite(items, product.id) else WithFavorite(items, product)
  }

  /** Adding is idempotent, and the ids present afterwards are the old ones and the new one. */
  lemma AddSpec(items: seq<Product>, product: Product)
    ensures WithFavorite(WithFavorite(items, product), product) == WithFavorite(items, product)
    ensures HasId(items, product.id) ==> WithFavorite(items, product) == items
    ensures !HasId(items, product.id) ==> WithFavorite(items, product) == items + [product]
    ensures forall id :: HasId(WithFavorite(items, product), id) <==> HasId(items, id) || id == product.id
  {
    var r := WithFavorite(items, product);
    if !HasId(items, product.id) {
      assert r[|items|].id == product.id;
    }
    forall id | HasId(items, id) ensures HasId(r, id) {
      var i :| 0 <= i < |items| && items[i].id == id;
      assert r[i] == items[i];
    }
  }

  /** Adding keeps the ids pairwise distinct. */
  lemma AddKeepsUnique(items: seq<Product>, product: Product)
    requires UniqueIds(items)
    ensures UniqueIds(WithFavorite(items, product))
  {
    var r := WithFavorite(items, product);
    if !HasId(items, product.id) {
      forall i, j | 0 <= i < j < |r| ensures r[i].id != r[j].id {
        if j == |items| {
          assert r[i] == items[i];
        }
      }
    }
  }

  /** Removing drops exactly the product with that id: the others stay, in order. */
  lemma RemoveSpec(items: seq<Product>, id: int)
    ensures IsSubsequence(WithoutFavorite(items, id), items)
    ensures forall x :: HasId(WithoutFavorite(items, id), x) <==> HasId(items, x) && x != id
    ensures !HasId(items, id) ==> WithoutFavorite(items, id) == items
  {
    var r := WithoutFavorite(items, id);
    FilterMembers(items, OtherId(id));
    forall x | HasId(r, x) ensures HasId(items, x) && x != id {
      var i :| 0 <= i < |r| && r[i].id == x;
      var k :| 0 <= k < |items| && items[k] == r[i];
    }
    forall x | HasId(items, x) && x != id ensures HasId(r, x) {
      var i :| 0 <= i < |items| && items[i].id == x;
      var k :| 0 <= k < |r| && r[k] == items[i];
    }
    if !HasId(items, id) {
      FilterKeepsAll(items, OtherId(id));
    }
  }

  /** Removing keeps the ids pairwise distinct. */
  lemma RemoveKeepsUnique(items: seq<Product>, id: int)
    requires UniqueIds(items)
    ensures UniqueIds(WithoutFavorite(items, id))
  {
    FilterKeepsUnique(items, OtherId(id));
  }

  /** Toggling twice restores which ids are present; when the product was absent, it
      restores the very list. */
  lemma ToggleTwice(items: seq<Product>, product: Product)
    ensures forall id :: HasId(Toggled(Toggled(items, product), product), id) <==> HasId(items, id)
    ensures !HasId(items, product.id) ==> Toggled(Toggled(items, product), product) == items
  {
    var once := Toggled(items, product);
    if HasId(items, product.id) {
      RemoveSpec(items, product.id);
      AddSpec(once, product);
    } else {
      AddSpec(items, product);
      RemoveSpec(once, product.id);
      FilterAppend(items, [product], OtherId(product.id));
      FilterKeepsAll(items, OtherId(product.id));
      assert WithoutFavorite([product], product.id) == [];
    }
  }

  /** The store's state: the list and its loading flag. */
  class FavoritesStore {
    var items: seq<Product>
    var loading: bool

    /** No two favorites share an id. */
    predicate Valid()
      reads this
    {
      UniqueIds(items)
    }

    constructor()
      ensures items == [] && !loading && Valid()
    {
      items := [];
      loading := false;
    }

    /** `isFavorite(productId)` */
    predicate IsFavorite(productId: int)
      reads this
    {
      HasId(items, productId)
    }

    /** `getFavoritesCount()` */
    function FavoritesCount(): nat
      reads this
    {
      |items|
    }

    /** `addToFavorites(product)` */
    method AddToFavorites(product: Product)
      modifies this
      ensures items == WithFavorite(old(items), product) && loading == old(loading)
      ensures IsFavorite(product.id) && (old(Valid()) ==> Valid())
    {
      if Valid() { AddKeepsUnique(items, product); }
      AddSpec(items, product);
      items := WithFavorite(items, product);
    }

    /** `removeFromFavorites(productId)` */
    method RemoveFromFavorites(productId: int)
      modifies this
      ensures items == WithoutFavorite(old(items), productId) && loading == old(loading)
      ensures !IsFavorite(productId) && (old(Valid()) ==> Valid())
    {
      if Valid() { RemoveKeepsUnique(items, productId); }
      RemoveSpec(items, productId);
      items := WithoutFavorite(items, productId);
    }

    /** `toggleFavorite(product)`: remove when present, add when absent. */
    method ToggleFavorite(product: Product)
      modifies this
      ensures items == Toggled(old(items), product) && loading == old(loading)
      ensures IsFavorite(product.id) <==> !old(IsFavorite(product.id))
      ensures old(Valid()) ==> Valid()
    {
      if IsFavorite(product.id) {
        RemoveFromFavorites(product.id);
      } else {
        AddToFavorites(product);
      }
    }

    /** `clearFavorites()` */
    method ClearFavorites()
      modifies this
      ensures items == [] && loading == old(loading) && Valid() && FavoritesCount() == 0
    {
      items := [];
    }
  }
}
