/** The cart reducer of src/context/CartContext.tsx: an ordered list of lines, each a
    product, a quantity and a variation selection, with both totals recomputed as folds
    after every action. */
module Cart {
  import opened Wrappers
  import opened Seqs
  import opened Catalog

  /** A variation selection as `JSON.stringify` sees it: `undefined` (None), or an object
      whose own keys, in insertion order, carry string values. Two selections serialise
      to the same text exactly when these values are equal, so `{size, material}` and
      `{material, size}` are different signatures. */
  type Variations = Option<seq<(string, string)>>

  datatype CartLine = CartLine(id: int, product: Product, quantity: int, selectedVariations: Variations)

  datatype CartState = CartState(items: seq<CartLine>, totalPrice: int, totalItems: int)

  /** The four reducer actions. `quantity` of ADD_ITEM may be omitted (None), and the
      id a new line gets from `Date.now()` is supplied as `freshId`. */
  datatype Action =
    | AddItem(product: Product, quantity: Option<int>, variations: Variations, freshId: int)
    | RemoveItem(productId: int)
    | UpdateQuantity(productId: int, newQuantity: int)
    | ClearCart

  const Empty: CartState := CartState([], 0, 0)

  /** The subtotal of one line, `price × quantity` (also shown per line at checkout). */
  function LineTotal(line: CartLine): int {
    line.product.price * line.quantity
  }

  /** `items.reduce((sum, item) => sum + item.quantity, 0)` */
  function TotalItems(items: seq<CartLine>): int {
    if items == [] then 0 else TotalItems(items[..|items| - 1]) + items[|items| - 1].quantity
  }

  /** `items.reduce((sum, item) => sum + item.product.price * item.quantity, 0)` */
  function TotalPrice(items: seq<CartLine>): int {
    if items == [] then 0 else TotalPrice(items[..|items| - 1]) + LineTotal(items[|items| - 1])
  }

  /** A state whose totals are the folds of its lines. */
  predicate Consistent(s: CartState) {
    s.totalItems == TotalItems(s.items) && s.totalPrice == TotalPrice(s.items)
  }

  /** `line` belongs to product `id` with the given variation signature. */
  predicate Matches(line: CartLine, id: int, v: Variations) {
    line.product.id == id && line.selectedVariations == v
  }

  /** Some line matches the product id and the signature (the `find` of ADD_ITEM succeeds). */
  predicate HasLine(items: seq<CartLine>, id: int, v: Variations) {
    exists i :: 0 <= i < |items| && Matches(items[i], id, v)
  }

  /** No two lines share both product id and variation signature. */
  predicate UniqueKeys(items: seq<CartLine>) {
    forall i, j :: 0 <= i < j < |items| ==> !Matches(items[j], items[i].product.id, items[i].selectedVariations)
  }

  /** Every line holds at least one unit. */
  predicate PositiveQuantities(items: seq<CartLine>) {
    forall i :: 0 <= i < |items| ==> items[i].quantity >= 1
  }

  function OtherProduct(id: int): CartLine -> bool {
    (line: CartLine) => line.product.id != id
  }

  function SameProduct(id: int): CartLine -> bool {
    (line: CartLine) => line.product.id == id
  }

  /** The lines of other products, in order (the filter of REMOVE_ITEM). */
  function Without(items: seq<CartLine>, id: int): seq<CartLine> {
    Filter(items, OtherProduct(id))
  }

  /** The lines of product `id`, in order. */
  function LinesOf(items: seq<CartLine>, id: int): seq<CartLine> {
    Filter(items, SameProduct(id))
  }

  /** The map of ADD_ITEM on an existing line: every matching line gains `q` units. */
  function AddToMatching(items: seq<CartLine>, id: int, v: Variations, q: int): (r: seq<CartLine>)
    ensures |r| == |items|
    ensures forall i :: 0 <= i < |items| ==>
              r[i] == if Matches(items[i], id, v) then items[i].(quantity := items[i].quantity + q) else items[i]
  {
    if items == [] then []
    else [if Matches(items[0], id, v) then items[0].(quantity := items[0].quantity + q) else items[0]]
         + AddToMatching(items[1..], id, v, q)
  }

  /** The map of UPDATE_QUANTITY: every line of product `id` gets quantity `q`. */
  function SetQuantity(items: seq<CartLine>, id: int, q: int): (r: seq<CartLine>)
    ensures |r| == |items|
    ensures forall i :: 0 <= i < |items| ==>
              r[i] == if items[i].product.id == id then items[i].(quantity := q) else items[i]
  {
    if items == [] then []
    else [if items[0].product.id == id then items[0].(quantity := q) else items[0]]
         + SetQuantity(items[1..], id, q)
  }

  /** The lines after ADD_ITEM of `quantity` units: added to the matching lines when there
      is one, otherwise a new line at the end. */
  function Added(items: seq<CartLine>, product: Product, quantity: int, v: Variations, freshId: int): seq<CartLine> {
    if HasLine(items, product.id, v) then AddToMatching(items, product.id, v, quantity)
    else items + [CartLine(freshId, product, quantity, v)]
  }

  /** The state holding `items`, with both totals recomputed. */
  function WithTotals(items: seq<CartLine>): (r: CartState)
    ensures r.items == items && Consistent(r)
  {
    CartState(items, TotalPrice(items), TotalItems(items))
  }

  /** `cartReducer(state, action)`. */
  function Reduce(s: CartState, a: Action): (r: CartState)
    ensures Consistent(r)
    decreases if a.UpdateQuantity? then 1 else 0
  {
    match a
    case AddItem(product, q, v, freshId) =>
      WithTotals(Added(s.items, product, q.GetOr(1), v, freshId))
    case RemoveItem(id) =>
      WithTotals(Without(s.items, id))
    case UpdateQuantity(id, q) =>
      if q <= 0 then Reduce(s, RemoveItem(id))
      else WithTotals(SetQuantity(s.items, id, q))
    case ClearCart =>
      Empty
  }

  // ---------------------------------------------------------------- folds

  /** Both folds distribute over concatenation. */
  lemma {:induction false} TotalsAppend(a: seq<CartLine>, b: seq<CartLine>)
    ensures TotalItems(a + b) == TotalItems(a) + TotalItems(b)
    ensures TotalPrice(a + b) == TotalPrice(a) + TotalPrice(b)
    decreases |b|
  {
    if b == [] {
      assert a + b == a;
    } else {
      var b' := b[..|b| - 1];
      assert (a + b)[..|a + b| - 1] == a + b';
      TotalsAppend(a, b');
    }
  }

  /** Replacing one line changes both folds by that line's difference. */
  lemma {:induction false} TotalsUpdateAt(items: seq<CartLine>, k: nat, line: CartLine)
    requires k < |items|
    ensures TotalItems(items[k := line]) == TotalItems(items) - items[k].quantity + line.quantity
    ensures TotalPrice(items[k := line]) == TotalPrice(items) - LineTotal(items[k]) + LineTotal(line)
  {
    var n := |items|;
    if k < n - 1 {
      assert items[k := line][..n - 1] == items[..n - 1][k := line];
      TotalsUpdateAt(items[..n - 1], k, line);
    } else {
      assert items[k := line][..n - 1] == items[..n - 1];
    }
  }

  /** The totals of a cart split into those of one product's lines and those of the rest. */
  lemma {:induction false} TotalsSplit(items: seq<CartLine>, id: int)
    ensures TotalItems(items) == TotalItems(Without(items, id)) + TotalItems(LinesOf(items, id))
    ensures TotalPrice(items) == TotalPrice(Without(items, id)) + TotalPrice(LinesOf(items, id))
  {
    if items != [] {
      var x, rest := items[0], items[1..];
      assert items == [x] + rest;
      TotalsSplit(rest, id);
      TotalsAppend([x], rest);
      if x.product.id == id {
        assert LinesOf(items, id) == [x] + LinesOf(rest, id);
        TotalsAppend([x], LinesOf(rest, id));
      } else {
        assert Without(items, id) == [x] + Without(rest, id);
        TotalsAppend([x], Without(rest, id));
      }
    }
  }

  /** The sum of the unit prices of some lines. */
  function UnitPrices(items: seq<CartLine>): int {
    if items == [] then 0 else items[0].product.price + UnitPrices(items[1..])
  }

  /** Both folds of a line followed by more lines. */
  lemma TotalsCons(x: CartLine, rest: seq<CartLine>)
    ensures TotalItems([x] + rest) == x.quantity + TotalItems(rest)
    ensures TotalPrice([x] + rest) == LineTotal(x) + TotalPrice(rest)
  {
    TotalsAppend([x], rest);
    assert [x][..0] == [];
  }

  lemma Distribute(q: int, a: int, b: int)
    ensures q * (a + b) == q * a + q * b
  {
  }

  lemma Scale(q: int, m: int, a: int, b: int)
    requires m == a + b
    ensures q * m == a * q + q * b
  {
  }

  /** Setting every line of a product to `q` units leaves the other lines' item count and
      adds `q` units per line of that product. */
  lemma {:induction false} ItemsSetQuantity(items: seq<CartLine>, id: int, q: int)
    ensures TotalItems(SetQuantity(items, id, q)) == TotalItems(Without(items, id)) + q * |LinesOf(items, id)|
  {
    if items != [] {
      var x, rest := items[0], items[1..];
      var x' := if x.product.id == id then x.(quantity := q) else x;
      var sq := SetQuantity(rest, id, q);
      assert SetQuantity(items, id, q) == [x'] + sq;
      ItemsSetQuantity(rest, id, q);
      TotalsCons(x', sq);
      var n := |LinesOf(rest, id)|;
      if x.product.id == id {
        assert LinesOf(items, id) == [x] + LinesOf(rest, id);
        assert Without(items, id) == Without(rest, id);
        Distribute(q, n, 1);
      } else {
        assert LinesOf(items, id) == LinesOf(rest, id);
        assert Without(items, id) == [x] + Without(rest, id);
        TotalsCons(x, Without(rest, id));
      }
    }
  }

  /** One step of `PriceSetQuantity` when the first line is of the product. */
  lemma PriceSetQuantitySame(items: seq<CartLine>, id: int, q: int)
    requires items != [] && items[0].product.id == id
    requires TotalPrice(SetQuantity(items[1..], id, q))
          == TotalPrice(Without(items[1..], id)) + q * UnitPrices(LinesOf(items[1..], id))
    ensures TotalPrice(SetQuantity(items, id, q)) == TotalPrice(Without(items, id)) + q * UnitPrices(LinesOf(items, id))
  {
    var x, rest := items[0], items[1..];
    var sq := SetQuantity(rest, id, q);
    assert SetQuantity(items, id, q) == [x.(quantity := q)] + sq;
    TotalsCons(x.(quantity := q), sq);
    var lines := [x] + LinesOf(rest, id);
    assert LinesOf(items, id) == lines;
    assert lines[1..] == LinesOf(rest, id);
    assert Without(items, id) == Without(rest, id);
    var price, u := x.product.price, UnitPrices(LinesOf(rest, id));
    assert LineTotal(x.(quantity := q)) == price * q;
    assert UnitPrices(LinesOf(items, id)) == price + u;
    Scale(q, UnitPrices(LinesOf(items, id)), price, u);
  }

  /** One step of `PriceSetQuantity` when the first line is of another product. */
  lemma PriceSetQuantityOther(items: seq<CartLine>, id: int, q: int)
    requires items != [] && items[0].product.id != id
    requires TotalPrice(SetQuantity(items[1..], id, q))
          == TotalPrice(Without(items[1..], id)) + q * UnitPrices(LinesOf(items[1..], id))
    ensures TotalPrice(SetQuantity(items, id, q)) == TotalPrice(Without(items, id)) + q * UnitPrices(LinesOf(items, id))
  {
    var x, rest := items[0], items[1..];
    var sq := SetQuantity(rest, id, q);
    assert SetQuantity(items, id, q) == [x] + sq;
    TotalsCons(x, sq);
    assert LinesOf(items, id) == LinesOf(rest, id);
    assert Without(items, id) == [x] + Without(rest, id);
    TotalsCons(x, Without(rest, id));
  }

  /** Setting every line of a product to `q` units leaves the other lines' price and adds
      `q` times the unit price per line of that product. */
  lemma {:induction false} PriceSetQuantity(items: seq<CartLine>, id: int, q: int)
    ensures TotalPrice(SetQuantity(items, id, q)) == TotalPrice(Without(items, id)) + q * UnitPrices(LinesOf(items, id))
  {
    if items != [] {
      PriceSetQuantity(items[1..], id, q);
      if items[0].product.id == id {
        PriceSetQuantitySame(items, id, q);
      } else {
        PriceSetQuantityOther(items, id, q);
      }
    }
  }

  // ---------------------------------------------------------------- actions

  /** ADD_ITEM for a (product id, signature) already in the cart adds the quantity to each
      matching line; the number of lines and every other line stay as they were. */
  lemma AddExisting(s: CartState, p: Product, q: Option<int>, v: Variations, freshId: int)
    requires HasLine(s.items, p.id, v)
    ensures var r := Reduce(s, AddItem(p, q, v, freshId));
      |r.items| == |s.items|
      && (forall i :: 0 <= i < |s.items| && !Matches(s.items[i], p.id, v) ==> r.items[i] == s.items[i])
      && (forall i :: 0 <= i < |s.items| && Matches(s.items[i], p.id, v) ==>
            r.items[i] == s.items[i].(quantity := s.items[i].quantity + q.GetOr(1)))
  {
  }

  /** In a cart without repeated keys, the line at `k` is the only one with its key. */
  lemma OnlyMatch(items: seq<CartLine>, k: nat, id: int, v: Variations)
    requires UniqueKeys(items) && k < |items| && Matches(items[k], id, v)
    ensures forall i :: 0 <= i < |items| && i != k ==> !Matches(items[i], id, v)
  {
    forall i | 0 <= i < |items| && i != k
      ensures !Matches(items[i], id, v)
    {
      if i < k { assert !Matches(items[k], items[i].product.id, items[i].selectedVariations); }
    }
  }

  /** The lines and totals ADD_ITEM leaves (`ReduceAdd`) when line `k` is the only one with
      the product's key, as in a cart without repeated keys (`OnlyMatch`): only line `k`
      changes, the item count rises by the quantity and the price by that many units of the
      line's product. */
  lemma AddExistingTotals(items: seq<CartLine>, p: Product, d: int, v: Variations, freshId: int, k: nat)
    requires k < |items| && Matches(items[k], p.id, v)
    requires forall i :: 0 <= i < |items| && i != k ==> !Matches(items[i], p.id, v)
    ensures var r := WithTotals(Added(items, p, d, v, freshId));
      r.items == items[k := items[k].(quantity := items[k].quantity + d)]
      && r.totalItems == TotalItems(items) + d
      && r.totalPrice == TotalPrice(items) + items[k].product.price * d
  {
    assert HasLine(items, p.id, v);
    AddToOnlyMatch(items, k, p.id, v, d);
    AddAtTotals(items, k, d);
  }

  /** When line `k` is the only one matching, adding to the matching lines adds to line `k`
      alone. */
  lemma AddToOnlyMatch(items: seq<CartLine>, k: nat, id: int, v: Variations, d: int)
    requires k < |items| && Matches(items[k], id, v)
    requires forall i :: 0 <= i < |items| && i != k ==> !Matches(items[i], id, v)
    ensures AddToMatching(items, id, v, d) == items[k := items[k].(quantity := items[k].quantity + d)]
  {
  }

  /** Adding `d` units to line `k` raises the item count by `d` and the price by `d` units
      of that line's product. */
  lemma AddAtTotals(items: seq<CartLine>, k: nat, d: int)
    requires k < |items|
    ensures var line := items[k].(quantity := items[k].quantity + d);
      TotalItems(items[k := line]) == TotalItems(items) + d
      && TotalPrice(items[k := line]) == TotalPrice(items) + items[k].product.price * d
  {
    var line := items[k].(quantity := items[k].quantity + d);
    TotalsUpdateAt(items, k, line);
    LineTotalAdd(items[k], d);
  }

  /** `d` more units of a line cost `d` times its product's price more. */
  lemma LineTotalAdd(line: CartLine, d: int)
    ensures LineTotal(line.(quantity := line.quantity + d)) == LineTotal(line) + line.product.price * d
  {
    var pr, n := line.product.price, line.quantity;
    assert pr * (n + d) == pr * n + pr * d;
  }

  /** ADD_ITEM with no matching line appends exactly one line, at the end, holding the
      product, the quantity (1 when omitted) and the signature; the totals grow by it. */
  lemma AddNew(s: CartState, p: Product, q: Option<int>, v: Variations, freshId: int)
    requires !HasLine(s.items, p.id, v)
    ensures var r := Reduce(s, AddItem(p, q, v, freshId));
      r.items == s.items + [CartLine(freshId, p, q.GetOr(1), v)]
      && r.totalItems == TotalItems(s.items) + q.GetOr(1)
      && r.totalPrice == TotalPrice(s.items) + p.price * q.GetOr(1)
  {
    TotalsAppend(s.items, [CartLine(freshId, p, q.GetOr(1), v)]);
  }

  /** An omitted quantity is a quantity of 1. */
  lemma AddDefaultsToOne(s: CartState, p: Product, v: Variations, freshId: int)
    ensures Reduce(s, AddItem(p, None, v, freshId)) == Reduce(s, AddItem(p, Some(1), v, freshId))
  {
  }

  /** REMOVE_ITEM drops every line of the product, whatever its variations, keeps the other
      lines in order with their multiplicities, and moves those lines' units out of the totals. */
  lemma RemoveDropsProduct(s: CartState, id: int)
    requires Consistent(s)
    ensures var r := Reduce(s, RemoveItem(id));
      (forall i :: 0 <= i < |r.items| ==> r.items[i].product.id != id)
      && IsSubsequence(r.items, s.items)
      && (forall x :: multiset(r.items)[x] == if x.product.id != id then multiset(s.items)[x] else 0)
      && r.totalItems == s.totalItems - TotalItems(LinesOf(s.items, id))
      && r.totalPrice == s.totalPrice - TotalPrice(LinesOf(s.items, id))
  {
    FilterMembers(s.items, OtherProduct(id));
    forall x { FilterMultiset(s.items, OtherProduct(id), x); }
    TotalsSplit(s.items, id);
  }

  /** REMOVE_ITEM of a product that has no line leaves the cart as it was. */
  lemma RemoveAbsent(s: CartState, id: int)
    requires Consistent(s)
    requires forall i :: 0 <= i < |s.items| ==> s.items[i].product.id != id
    ensures Reduce(s, RemoveItem(id)) == s
  {
    FilterKeepsAll(s.items, OtherProduct(id));
  }

  /** UPDATE_QUANTITY with a quantity of 0 or less is REMOVE_ITEM of that product. */
  lemma UpdateNonPositiveRemoves(s: CartState, id: int, q: int)
    requires q <= 0
    ensures Reduce(s, UpdateQuantity(id, q)) == Reduce(s, RemoveItem(id))
  {
  }

  /** UPDATE_QUANTITY with a positive quantity sets it on every line of the product,
      whatever its variations, and leaves the number of lines and all other lines as they
      were; the item count becomes that of the other lines plus `q` per line of the product. */
  lemma UpdatePositive(s: CartState, id: int, q: int)
    requires q > 0
    ensures var r := Reduce(s, UpdateQuantity(id, q));
      |r.items| == |s.items|
      && (forall i :: 0 <= i < |s.items| ==>
            r.items[i].product == s.items[i].product && r.items[i].id == s.items[i].id
            && r.items[i].selectedVariations == s.items[i].selectedVariations)
      && (forall i :: 0 <= i < |s.items| ==>
            r.items[i].quantity == if s.items[i].product.id == id then q else s.items[i].quantity)
      && r.totalItems == TotalItems(Without(s.items, id)) + q * |LinesOf(s.items, id)|
      && r.totalPrice == TotalPrice(Without(s.items, id)) + q * UnitPrices(LinesOf(s.items, id))
  {
    ItemsSetQuantity(s.items, id, q);
    PriceSetQuantity(s.items, id, q);
  }

  /** CLEAR_CART empties the cart and zeroes both totals. */
  lemma ClearEmpties(s: CartState)
    ensures Reduce(s, ClearCart) == CartState([], 0, 0)
    ensures TotalItems([]) == 0 && TotalPrice([]) == 0
  {
  }

  // ---------------------------------------------------------------- invariants

  /** Filtering keeps keys unique. */
  lemma {:induction false} WithoutKeepsUnique(items: seq<CartLine>, id: int)
    requires UniqueKeys(items)
    ensures UniqueKeys(Without(items, id))
  {
    if items != [] {
      var x, rest := items[0], items[1..];
      WithoutKeepsUnique(rest, id);
      FilterMembers(rest, OtherProduct(id));
      if x.product.id != id {
        var w := Without(items, id);
        assert w == [x] + Without(rest, id);
        forall j | 1 <= j < |w| ensures !Matches(w[j], x.product.id, x.selectedVariations) {
          var k :| 0 <= k < |rest| && rest[k] == w[j];
          assert items[k + 1] == w[j];
        }
      }
    }
  }

  /** No action ever creates two lines with the same product id and signature. */
  lemma ReducePreservesUniqueKeys(s: CartState, a: Action)
    requires UniqueKeys(s.items)
    ensures UniqueKeys(Reduce(s, a).items)
  {
    match a
    case AddItem(p, q, v, freshId) =>
      ReduceAdd(s, p, q, v, freshId);
      AddedKeepsUnique(s.items, p, q.GetOr(1), v, freshId);
    case RemoveItem(id) =>
      ReduceRemove(s, id);
      WithoutKeepsUnique(s.items, id);
    case UpdateQuantity(id, q) =>
      ReduceUpdate(s, id, q);
      if q <= 0 { WithoutKeepsUnique(s.items, id); } else { SetQuantityKeepsUnique(s.items, id, q); }
    case ClearCart =>
  }

  /** Every line keeps at least one unit, provided ADD_ITEM is given a quantity of at
      least 1 (the page's quantity selector never goes below 1). */
  lemma ReducePreservesPositive(s: CartState, a: Action)
    requires PositiveQuantities(s.items)
    requires a.AddItem? ==> a.quantity.GetOr(1) >= 1
    ensures PositiveQuantities(Reduce(s, a).items)
  {
    match a
    case AddItem(p, q, v, freshId) =>
      ReduceAdd(s, p, q, v, freshId);
      AddedKeepsPositive(s.items, p, q.GetOr(1), v, freshId);
    case RemoveItem(id) =>
      ReduceRemove(s, id);
      WithoutKeepsPositive(s.items, id);
    case UpdateQuantity(id, q) =>
      ReduceUpdate(s, id, q);
      if q <= 0 { WithoutKeepsPositive(s.items, id); }
    case ClearCart =>
  }

  /** Dropping lines keeps every remaining line at one unit or more. */
  lemma WithoutKeepsPositive(items: seq<CartLine>, id: int)
    requires PositiveQuantities(items)
    ensures PositiveQuantities(Without(items, id))
  {
    FilterMembers(items, OtherProduct(id));
  }

  /** ADD_ITEM keeps the keys unique: it adds to the line with the key, or appends a line
      whose key no line has. */
  lemma AddedKeepsUnique(items: seq<CartLine>, p: Product, d: int, v: Variations, freshId: int)
    requires UniqueKeys(items)
    ensures UniqueKeys(Added(items, p, d, v, freshId))
  {
    var r := Added(items, p, d, v, freshId);
    if HasLine(items, p.id, v) {
      assert forall i :: 0 <= i < |items| ==>
        r[i].product == items[i].product && r[i].selectedVariations == items[i].selectedVariations;
    } else {
      assert forall i :: 0 <= i < |items| ==> r[i] == items[i];
      assert forall i :: 0 <= i < |items| ==> !Matches(r[|items|], items[i].product.id, items[i].selectedVariations);
    }
  }

  /** UPDATE_QUANTITY with a positive quantity changes no key. */
  lemma SetQuantityKeepsUnique(items: seq<CartLine>, id: int, q: int)
    requires UniqueKeys(items)
    ensures UniqueKeys(SetQuantity(items, id, q))
  {
    var r := SetQuantity(items, id, q);
    assert forall i :: 0 <= i < |items| ==>
      r[i].product == items[i].product && r[i].selectedVariations == items[i].selectedVariations;
  }

  /** ADD_ITEM of at least one unit keeps every line at one unit or more. */
  lemma AddedKeepsPositive(items: seq<CartLine>, p: Product, d: int, v: Variations, freshId: int)
    requires PositiveQuantities(items) && d >= 1
    ensures PositiveQuantities(Added(items, p, d, v, freshId))
  {
  }


  /** Two rounds of adding to the matching lines are one round with the sum. */
  lemma {:induction false} AddToMatchingTwice(items: seq<CartLine>, id: int, v: Variations, q1: int, q2: int)
    ensures AddToMatching(AddToMatching(items, id, v, q1), id, v, q2) == AddToMatching(items, id, v, q1 + q2)
  {
    if items != [] {
      AddToMatchingTwice(items[1..], id, v, q1, q2);
      assert AddToMatching(items, id, v, q1)[1..] == AddToMatching(items[1..], id, v, q1);
    }
  }

  /** Adding `q1` and then `q2` units of the same product and signature gives the lines
      that adding `q1 + q2` units at once gives. */
  lemma AddTwiceIsSum(s: CartState, p: Product, q1: int, q2: int, v: Variations, f1: int, f2: int)
    ensures Reduce(Reduce(s, AddItem(p, Some(q1), v, f1)), AddItem(p, Some(q2), v, f2)).items
         == Reduce(s, AddItem(p, Some(q1 + q2), v, f1)).items
  {
    ReduceAdd(s, p, Some(q1), v, f1);
    ReduceAdd(Reduce(s, AddItem(p, Some(q1), v, f1)), p, Some(q2), v, f2);
    ReduceAdd(s, p, Some(q1 + q2), v, f1);
    AddedTwice(s.items, p, q1, q2, v, f1, f2);
  }

  /** REMOVE_ITEM leaves the lines `Without` gives. */
  lemma ReduceRemove(s: CartState, id: int)
    ensures Reduce(s, RemoveItem(id)).items == Without(s.items, id)
  {
  }

  /** UPDATE_QUANTITY leaves the lines `Without` gives for a quantity of 0 or less, and
      those `SetQuantity` gives otherwise. */
  lemma ReduceUpdate(s: CartState, id: int, q: int)
    ensures Reduce(s, UpdateQuantity(id, q)).items == if q <= 0 then Without(s.items, id) else SetQuantity(s.items, id, q)
  {
  }

  /** ADD_ITEM leaves the lines `Added` gives; its totals follow them (`Consistent`). */
  lemma ReduceAdd(s: CartState, p: Product, q: Option<int>, v: Variations, freshId: int)
    ensures Reduce(s, AddItem(p, q, v, freshId)).items == Added(s.items, p, q.GetOr(1), v, freshId)
  {
  }

  /** The lines of two ADD_ITEMs of the same product and signature are those of one. */
  lemma AddedTwice(items: seq<CartLine>, p: Product, q1: int, q2: int, v: Variations, f1: int, f2: int)
    ensures Added(Added(items, p, q1, v, f1), p, q2, v, f2) == Added(items, p, q1 + q2, v, f1)
  {
    var once := Added(items, p, q1, v, f1);
    if HasLine(items, p.id, v) {
      var i :| 0 <= i < |items| && Matches(items[i], p.id, v);
      assert Matches(once[i], p.id, v);
      AddToMatchingTwice(items, p.id, v, q1, q2);
    } else {
      var n := |items|;
      assert Matches(once[n], p.id, v);
      var twice := AddToMatching(once, p.id, v, q2);
      assert forall j :: 0 <= j < n ==> once[j] == items[j] && !Matches(items[j], p.id, v);
      assert twice == items + [CartLine(f1, p, q1 + q2, v)];
    }
  }

  /** Setting the quantity of the only product in the cart to 0 empties the cart. */
  lemma ZeroOnlyProduct(s: CartState, line: CartLine)
    requires s.items == [line]
    ensures Reduce(s, UpdateQuantity(line.product.id, 0)) == Empty
  {
    assert Without(s.items, line.product.id) == [];
  }

  /** From an empty cart: two units of a product, then one more with the same
      variations, give one line of three units; setting its quantity to 0 empties the cart. */
  lemma AddThenZeroScenario(p: Product, v: Variations, f1: int, f2: int)
    ensures var s1 := Reduce(Empty, AddItem(p, Some(2), v, f1));
      s1.totalItems == 2 && s1.totalPrice == 2 * p.price
      && Reduce(s1, AddItem(p, Some(1), v, f2)).items == [CartLine(f1, p, 3, v)]
      && Reduce(Reduce(s1, AddItem(p, Some(1), v, f2)), UpdateQuantity(p.id, 0)) == Empty
  {
    var s1 := Reduce(Empty, AddItem(p, Some(2), v, f1));
    AddNew(Empty, p, Some(2), v, f1);
    AddTwiceIsSum(Empty, p, 2, 1, v, f1, f2);
    AddNew(Empty, p, Some(3), v, f1);
    var s2 := Reduce(s1, AddItem(p, Some(1), v, f2));
    ZeroOnlyProduct(s2, CartLine(f1, p, 3, v));
  }
}
