/** The order summary (src/components/cart/CartSummary.tsx): shipping is free only above
    a fixed threshold, and the final total adds the shipping cost to the cart total. */
module CartSummary {
  import opened Cart

  const FreeShippingThreshold: int := 50000000
  const ShippingFee: int := 5000000

  /** `totalPrice > 50000000 ? 0 : 5000000` */
  function ShippingCost(totalPrice: int): (r: int)
    ensures r == 0 <==> totalPrice > FreeShippingThreshold
    ensures r == 0 || r == ShippingFee
  {
    if totalPrice > FreeShippingThreshold then 0 else ShippingFee
  }

  /** `totalPrice + shippingCost` */
  function FinalTotal(totalPrice: int): (r: int)
    ensures totalPrice <= r <= totalPrice + ShippingFee
    ensures r == totalPrice <==> totalPrice > FreeShippingThreshold
  {
    totalPrice + ShippingCost(totalPrice)
  }

  /** The free-shipping hint is shown while shipping still costs something. */
  predicate ShowsFreeShippingHint(totalPrice: int) {
    ShippingCost(totalPrice) > 0
  }

  /** The hint is shown exactly up to and including the threshold. */
  lemma HintUpToThreshold(totalPrice: int)
    ensures ShowsFreeShippingHint(totalPrice) <==> totalPrice <= FreeShippingThreshold
  {
  }

  /** The displayed item count, `items.reduce((sum, item) => sum + item.quantity, 0)`. */
  function ItemCount(items: seq<CartLine>): int {
    TotalItems(items)
  }

  /** For any state the reducer produced, the count shown is the cart's `totalItems`. */
  lemma ItemCountIsTotalItems(s: CartState, a: Action)
    ensures ItemCount(Reduce(s, a).items) == Reduce(s, a).totalItems
  {
  }

  /** The final total is not monotone in the cart total: crossing the threshold by one
      rial lowers what the customer pays. */
  lemma FinalTotalDropsAtThreshold()
    ensures FinalTotal(FreeShippingThreshold + 1) < FinalTotal(FreeShippingThreshold)
  {
  }
}
