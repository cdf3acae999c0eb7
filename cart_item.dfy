/** The quantity controls of one cart line (src/components/cart/CartItem.tsx): the minus,
    plus and trash buttons choose which cart action to dispatch for the line's product. */
module CartItemView {
  import opened Seqs
  import opened Cart

  /** `handleQuantityChange(newQuantity)`: a quantity of 0 or less removes the product,
      any other quantity updates it. */
  function QuantityChange(line: CartLine, newQuantity: int): Action {
    if newQuantity <= 0 then RemoveItem(line.product.id) else UpdateQuantity(line.product.id, newQuantity)
  }

  /** The minus button: `handleQuantityChange(item.quantity - 1)`. */
  function Decrease(line: CartLine): Action {
    QuantityChange(line, line.quantity - 1)
  }

  /** The plus button: `handleQuantityChange(item.quantity + 1)`. */
  function Increase(line: CartLine): Action {
    QuantityChange(line, line.quantity + 1)
  }

  /** The trash button: `removeItem(item.product.id)`. */
  function Remove(line: CartLine): Action {
    RemoveItem(line.product.id)
  }

  /** Whichever branch it takes, the dispatch has the effect UPDATE_QUANTITY of the
      product would have: the component's own guard repeats the reducer's. */
  lemma QuantityChangeIsUpdate(s: CartState, line: CartLine, q: int)
    ensures Reduce(s, QuantityChange(line, q)) == Reduce(s, UpdateQuantity(line.product.id, q))
    ensures q <= 0 ==> QuantityChange(line, q) == RemoveItem(line.product.id)
    ensures q > 0 ==> QuantityChange(line, q) == UpdateQuantity(line.product.id, q)
  {
  }

  /** Minus on a line of one unit removes every line of that product, whatever its
      variations, and keeps every other line. */
  lemma DecreaseAtOneRemovesProduct(s: CartState, line: CartLine)
    requires Consistent(s) && line.quantity == 1
    ensures var r := Reduce(s, Decrease(line));
      (forall i :: 0 <= i < |r.items| ==> r.items[i].product.id != line.product.id)
      && IsSubsequence(r.items, s.items)
      && (forall x: CartLine :: x.product.id != line.product.id ==> multiset(r.items)[x] == multiset(s.items)[x])
  {
    RemoveDropsProduct(s, line.product.id);
  }

  /** Minus on a line of more than one unit sets every line of the product to one unit
      less than this line holds. */
  lemma DecreaseAboveOne(s: CartState, line: CartLine)
    requires line.quantity > 1
    ensures var r := Reduce(s, Decrease(line));
      |r.items| == |s.items|
      && forall i :: 0 <= i < |s.items| ==>
           r.items[i].quantity == if s.items[i].product.id == line.product.id then line.quantity - 1 else s.items[i].quantity
  {
    UpdatePositive(s, line.product.id, line.quantity - 1);
  }

  /** Plus sets every line of the product, whatever its variations, to one unit more than
      this line holds, and changes nothing else. */
  lemma IncreaseSetsProduct(s: CartState, line: CartLine)
    requires line.quantity >= 0
    ensures var r := Reduce(s, Increase(line));
      |r.items| == |s.items|
      && (forall i :: 0 <= i < |s.items| ==>
            r.items[i].quantity == if s.items[i].product.id == line.product.id then line.quantity + 1 else s.items[i].quantity)
      && (forall i :: 0 <= i < |s.items| && s.items[i].product.id != line.product.id ==> r.items[i] == s.items[i])
  {
    UpdatePositive(s, line.product.id, line.quantity + 1);
  }

  /** The trash button removes by product id alone: no line of the product is left. */
  lemma RemoveDropsAllVariants(s: CartState, line: CartLine)
    requires Consistent(s)
    ensures var r := Reduce(s, Remove(line));
      (forall i :: 0 <= i < |r.items| ==> r.items[i].product.id != line.product.id)
      && r.totalItems == s.totalItems - TotalItems(LinesOf(s.items, line.product.id))
  {
    RemoveDropsProduct(s, line.product.id);
  }
}
