/** The product page (src/pages/ProductDetail.tsx): loading the product named by the id in
    the address, the list of related products shown under it, the variation choice, the
    add-to-cart button and the discount badge. */
module ProductDetail {
  import opened Wrappers
  import opened Seqs
  import opened Text
  import opened Catalog
  import opened Pricing
  import opened Cart

  // ---------------------------------------------------------------- related products

  /** `p.tags.some((tag) => viewed.tags.includes(tag))` */
  predicate SharesTag(p: Product, viewed: Product) {
    exists i :: 0 <= i < |p.tags| && p.tags[i] in viewed.tags
  }

  /** The first stage's test: another product with a tag in common with the viewed one. */
  function SharedTest(viewed: Product): Product -> bool {
    (p: Product) => p.id != viewed.id && SharesTag(p, viewed)
  }

  /** The fill's test: another product whose id is not yet among `chosen`. */
  function OtherTest(viewed: Product, chosen: seq<Product>): Product -> bool {
    (p: Product) => p.id != viewed.id && !HasId(chosen, p.id)
  }

  /** The products sharing a tag with the viewed one, in catalogue order. */
  function Shared(products: seq<Product>, viewed: Product): seq<Product> {
    Filter(products, SharedTest(viewed))
  }

  /** The products other than the viewed one and not already chosen, in catalogue order. */
  function Others(products: seq<Product>, viewed: Product, chosen: seq<Product>): seq<Product> {
    Filter(products, OtherTest(viewed, chosen))
  }

  /** The list before it is cut: the shared stage, followed by the others when the shared
      stage holds fewer than 4 products. */
  function Combined(products: seq<Product>, viewed: Product): seq<Product> {
    var shared := Shared(products, viewed);
    if |shared| < 4 then shared + Others(products, viewed, shared) else shared
  }

  /** The related products shown: the first 8 entries of the combined list. */
  function Related(products: seq<Product>, viewed: Product): seq<Product> {
    Take(Combined(products, viewed), 8)
  }

  /** At most 8 products are shown: all of the combined list when it is shorter, otherwise
      its first 8, in the same order. */
  lemma RelatedIsPrefix(products: seq<Product>, viewed: Product)
    ensures var r, c := Related(products, viewed), Combined(products, viewed);
      |r| == Min(8, |c|) && r == c[..|r|]
  {
  }

  /** The viewed product is never among the related ones, and every related product comes
      from the catalogue. */
  lemma RelatedExcludesViewed(products: seq<Product>, viewed: Product)
    ensures forall i :: 0 <= i < |Related(products, viewed)| ==>
              Related(products, viewed)[i].id != viewed.id && Related(products, viewed)[i] in products
  {
    var shared := Shared(products, viewed);
    FilterMembers(products, SharedTest(viewed));
    FilterMembers(products, OtherTest(viewed, shared));
  }

  /** The shared stage holds exactly the other products with a tag in common, in catalogue
      order, and it comes first in the related list. */
  lemma RelatedSharedFirst(products: seq<Product>, viewed: Product)
    ensures var shared := Shared(products, viewed);
      IsSubsequence(shared, products)
      && (forall i :: 0 <= i < |shared| ==> shared[i].id != viewed.id && SharesTag(shared[i], viewed))
      && (forall i :: 0 <= i < |products| && products[i].id != viewed.id && SharesTag(products[i], viewed) ==>
            products[i] in shared)
      && (forall i :: 0 <= i < |Related(products, viewed)| && i < |shared| ==> Related(products, viewed)[i] == shared[i])
  {
    FilterMembers(products, SharedTest(viewed));
  }

  /** With 4 or more shared products, only shared products are shown; with fewer, the others
      follow them, in catalogue order: every product that is not the viewed one and whose id
      is not among the shared ones. */
  lemma RelatedFill(products: seq<Product>, viewed: Product)
    ensures var shared := Shared(products, viewed);
      (|shared| >= 4 ==> Related(products, viewed) == Take(shared, 8))
      && (|shared| < 4 ==>
            var others := Others(products, viewed, shared);
            Related(products, viewed) == Take(shared + others, 8)
            && IsSubsequence(others, products)
            && (forall i :: 0 <= i < |others| ==> others[i].id != viewed.id && !HasId(shared, others[i].id))
            && (forall i :: 0 <= i < |products| && products[i].id != viewed.id && !HasId(shared, products[i].id) ==>
                  products[i] in others))
  {
    var shared := Shared(products, viewed);
    FilterMembers(products, OtherTest(viewed, shared));
  }

  /** In a catalogue without repeated ids, no product appears twice among the related ones. */
  lemma RelatedUnique(products: seq<Product>, viewed: Product)
    requires UniqueIds(products)
    ensures UniqueIds(Related(products, viewed))
  {
    var shared := Shared(products, viewed);
    FilterKeepsUnique(products, SharedTest(viewed));
    if |shared| < 4 {
      var others := Others(products, viewed, shared);
      FilterKeepsUnique(products, OtherTest(viewed, shared));
      FilterMembers(products, OtherTest(viewed, shared));
      var c := shared + others;
      forall i, j | 0 <= i < j < |c| ensures c[i].id != c[j].id {
        if i < |shared| && |shared| <= j {
          assert !HasId(shared, c[j].id);
        }
      }
    }
  }

  // ---------------------------------------------------------------- variation choice

  /** The selected variations, `Record<string, string>`, as its (key, value) pairs in
      insertion order. */
  type Selection = seq<(string, string)>

  /** The keys of a selection, in order. */
  function Keys(m: Selection): (r: seq<string>)
    ensures |r| == |m| && forall i :: 0 <= i < |m| ==> r[i] == m[i].0
  {
    if m == [] then [] else [m[0].0] + Keys(m[1..])
  }

  /** `m[key]`: the value stored under `key`, if any. */
  function Lookup(m: Selection, key: string): Option<string> {
    if m == [] then None else if m[0].0 == key then Some(m[0].1) else Lookup(m[1..], key)
  }

  /** No key is stored twice, as in any JavaScript object. */
  predicate DistinctKeys(m: Selection) {
    forall i, j :: 0 <= i < j < |m| ==> m[i].0 != m[j].0
  }

  /** `{ ...m, [key]: value }`: an existing key keeps its place and takes the new value; a
      new key is added at the end. */
  function WithKey(m: Selection, key: string, value: string): Selection {
    if m == [] then [(key, value)]
    else if m[0].0 == key then [(key, value)] + m[1..]
    else [m[0]] + WithKey(m[1..], key, value)
  }

  /** Setting a key stores the value under it and changes no other key; the keys keep their
      order, with a new key added last. */
  lemma {:induction false} WithKeySpec(m: Selection, key: string, value: string)
    ensures Lookup(WithKey(m, key, value), key) == Some(value)
    ensures forall other :: other != key ==> Lookup(WithKey(m, key, value), other) == Lookup(m, other)
    ensures Keys(WithKey(m, key, value)) == if key in Keys(m) then Keys(m) else Keys(m) + [key]
  {
    if m != [] {
      WithKeySpec(m[1..], key, value);
      var r := WithKey(m, key, value);
      assert r[1..] == if m[0].0 == key then m[1..] else WithKey(m[1..], key, value);
      assert Keys(m) == [m[0].0] + Keys(m[1..]);
      if m[0].0 != key {
        assert key in Keys(m) <==> key in Keys(m[1..]);
      }
    }
  }

  /** Setting a key keeps the keys distinct. */
  lemma WithKeyKeepsUnique(m: Selection, key: string, value: string)
    requires DistinctKeys(m)
    ensures DistinctKeys(WithKey(m, key, value))
  {
    var r := WithKey(m, key, value);
    WithKeySpec(m, key, value);
    assert Keys(r) == if key in Keys(m) then Keys(m) else Keys(m) + [key];
    forall i, j | 0 <= i < j < |r| ensures r[i].0 != r[j].0 {
      assert Keys(r)[i] == r[i].0 && Keys(r)[j] == r[j].0;
      if key !in Keys(m) && j == |m| {
        assert Keys(m)[i] == m[i].0;
      } else {
        assert Keys(m)[i] == m[i].0 && Keys(m)[j] == m[j].0;
      }
    }
  }

  // ---------------------------------------------------------------- discount badge

  /** `product.originalPrice ? calculateDiscount(product.originalPrice, product.price) : 0`:
      a missing original price and an original price of 0 are both falsy. */
  function Discount(p: Product): int {
    if p.originalPrice.Some? && p.originalPrice.value != 0 then CalculateDiscount(p.originalPrice.value, p.price) else 0
  }

  /** No original price means no discount; a real reduction from a positive original price
      gives a whole percentage between 0 and 100, and none when the price is unchanged. */
  lemma DiscountShown(p: Product)
    ensures p.originalPrice.None? ==> Discount(p) == 0
    ensures p.originalPrice.Some? && p.originalPrice.value > 0 && 0 <= p.price <= p.originalPrice.value ==>
              0 <= Discount(p) <= 100
    ensures p.originalPrice == Some(p.price) ==> Discount(p) == 0
  {
    if p.originalPrice.Some? && p.originalPrice.value > 0 && 0 <= p.price <= p.originalPrice.value {
      DiscountRange(p.originalPrice.value, p.price);
    }
    if p.originalPrice == Some(p.price) && p.price > 0 {
      DiscountEnds(p.price);
    } else if p.originalPrice == Some(p.price) && p.price < 0 {
      RoundUnique(-p.price, 0, Discount(p), 0);
    }
  }

  // ---------------------------------------------------------------- the page

  /** The product the address names in `catalogue`: `getProduct(parseInt(id))`, nothing
      when the id does not read as a number. */
  function Requested(catalogue: seq<Product>, id: string): Option<Product> {
    match ParseInt(id)
    case Some(n) => FindById(catalogue, n)
    case None => None
  }

  /** A page address carrying a product's id in decimal names that product of the seed
      catalogue, and nothing when no seed product has that id. */
  lemma RequestedById(n: int)
    ensures Requested(MockProducts, IntToDecimal(n)) == GetProduct(n)
  {
    ParseRendered(n, "");
    assert IntToDecimal(n) + "" == IntToDecimal(n);
  }

  /** The related list as the loading effect builds it: the shared stage, extended by the
      others when it is short, then cut to 8. */
  method RelatedList(products: seq<Product>, viewed: Product) returns (r: seq<Product>)
    ensures r == Related(products, viewed)
  {
    var related := Filter(products, SharedTest(viewed));
    if |related| < 4 {
      var others := Filter(products, OtherTest(viewed, related));
      related := related + others;
    }
    r := Slice(related, 0, 8);
  }

  /** `!id`: the address carries no id, or an empty one. */
  predicate Absent(id: Option<string>) {
    id.None? || |id.value| == 0
  }

  /** The page's state. */
  class ProductPage {
    var product: Option<Product>
    var selectedVariations: Selection
    var loading: bool
    var relatedProducts: seq<Product>
    /** `useState(1)` without a setter: the quantity added is always 1. */
    const quantity: int := 1

    constructor()
      ensures product == None && selectedVariations == [] && loading && relatedProducts == []
    {
      product := None;
      selectedVariations := [];
      loading := true;
      relatedProducts := [];
    }

    /** The loading effect for the address parameter `id`, over the catalogue `catalogue`
        (`mockProducts`, which `getProduct` also searches). A missing or empty id returns at
        once and leaves the page loading. Otherwise the page stops loading; when the id
        names a product, that product and its related list are shown. */
    method Load(id: Option<string>, catalogue: seq<Product>)
      modifies this
      ensures Absent(id) ==> product == old(product) && loading == old(loading) && relatedProducts == old(relatedProducts)
      ensures !Absent(id) ==> !loading
      ensures !Absent(id) && Requested(catalogue, id.value).Some? ==>
                product == Requested(catalogue, id.value)
                && relatedProducts == Related(catalogue, Requested(catalogue, id.value).value)
      ensures !Absent(id) && Requested(catalogue, id.value).None? ==>
                product == old(product) && relatedProducts == old(relatedProducts)
      ensures selectedVariations == old(selectedVariations)
    {
      if Absent(id) {
        return;
      }
      var productData := Requested(catalogue, id.value);
      if productData.Some? {
        product := productData;
        relatedProducts := RelatedList(catalogue, productData.value);
      }
      loading := false;
    }

    /** `handleVariationChange(key, value)` */
    method HandleVariationChange(key: string, value: string)
      modifies this
      ensures selectedVariations == WithKey(old(selectedVariations), key, value)
      ensures Lookup(selectedVariations, key) == Some(value)
      ensures forall other :: other != key ==> Lookup(selectedVariations, other) == Lookup(old(selectedVariations), other)
      ensures product == old(product) && loading == old(loading) && relatedProducts == old(relatedProducts)
    {
      WithKeySpec(selectedVariations, key, value);
      selectedVariations := WithKey(selectedVariations, key, value);
    }

    /** `handleAddToCart()`: with a product shown, the cart action it dispatches, adding one
        unit with the current variation choice; nothing without a product. */
    method HandleAddToCart(freshId: int) returns (dispatched: Option<Action>)
      ensures product.None? ==> dispatched == None
      ensures product.Some? ==> dispatched == Some(AddItem(product.value, Some(1), Some(selectedVariations), freshId))
    {
      if product.Some? {
        dispatched := Some(AddItem(product.value, Some(quantity), Some(selectedVariations), freshId));
      } else {
        dispatched := None;
      }
    }
  }

  /** The button adds exactly one unit: to the line of the same product and choice when there
      is one, as a new line otherwise, and the totals grow by one unit and its price (the
      lines of that product in the cart holding the same catalogue entry). */
  lemma AddToCartAddsOne(s: CartState, p: Product, choice: Selection, freshId: int)
    requires UniqueKeys(s.items)
    requires forall i :: 0 <= i < |s.items| && s.items[i].product.id == p.id ==> s.items[i].product == p
    ensures var r := Reduce(s, AddItem(p, Some(1), Some(choice), freshId));
      r.totalItems == TotalItems(s.items) + 1 && r.totalPrice == TotalPrice(s.items) + p.price
  {
    var v: Variations := Some(choice);
    var q: Option<int> := Some(1);
    assert q.GetOr(1) == 1;
    if HasLine(s.items, p.id, v) {
      var k :| 0 <= k < |s.items| && Matches(s.items[k], p.id, v);
      assert s.items[k].product.price == p.price;
      OnlyMatch(s.items, k, p.id, v);
      ReduceAdd(s, p, q, v, freshId);
      AddExistingTotals(s.items, p, 1, v, freshId, k);
    } else {
      AddNew(s, p, Some(1), v, freshId);
    }
  }
}
