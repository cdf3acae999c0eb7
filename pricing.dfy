/** The price helpers of src/utils/formatPrice.ts that compute something: the rounded
    discount percentage and its label. The percentage is computed here in exact rational
    arithmetic followed by `Math.round`; JavaScript computes it in double precision, which
    can fall just below a half and round down where the exact value rounds up. */
module Pricing {
  import opened Wrappers
  import opened Text

  /** `Math.round(x)` for the rational `n / d`, `d > 0`: the integer nearest to it, halves
      rounded up, which is `floor(n / d + 1/2)`. */
  function RoundDiv(n: int, d: int): (r: int)
    requires d > 0
    ensures 2 * d * r - d <= 2 * n < 2 * d * r + d
  {
    (2 * n + d) / (2 * d)
  }

  /** `calculateDiscount(o, c) = Math.round(((o - c) / o) * 100)`: the percentage by which
      the current price `c` lies below the original price `o`, as the integer nearest to
      `100 * (o - c) / o`. A zero original price (a division by zero, `NaN` in JavaScript)
      is excluded. */
  function CalculateDiscount(o: int, c: int): (r: int)
    requires o != 0
    ensures o > 0 ==> 2 * o * r - o <= 200 * (o - c) < 2 * o * r + o
    ensures o < 0 ==> 2 * o * r - o >= 200 * (o - c) > 2 * o * r + o
  {
    if o > 0 then RoundDiv(100 * (o - c), o) else RoundDiv(-100 * (o - c), -o)
  }

  /** Multiplying by a positive factor keeps an integer of magnitude at least 1 at least that far from 0. */
  lemma ScaleAwayFromZero(d: int, t: int)
    requires d > 0
    ensures t >= 1 ==> d * t >= d
    ensures t <= -1 ==> d * t <= -d
  {
  }

  /** Only one integer `r` can satisfy the rounding bounds for a given numerator. */
  lemma RoundUnique(d: int, n: int, r: int, k: int)
    requires d > 0
    requires 2 * d * r - d <= 2 * n < 2 * d * r + d
    requires 2 * d * k - d <= 2 * n < 2 * d * k + d
    ensures r == k
  {
    assert 2 * d * r - 2 * d * k == 2 * d * (r - k);
    ScaleAwayFromZero(2 * d, r - k);
  }

  /** A product sold at its original price carries no discount; one given away carries 100%. */
  lemma DiscountEnds(o: int)
    requires o > 0
    ensures CalculateDiscount(o, o) == 0
    ensures CalculateDiscount(o, 0) == 100
  {
    RoundUnique(o, 0, CalculateDiscount(o, o), 0);
    RoundUnique(o, 100 * o, CalculateDiscount(o, 0), 100);
  }

  /** The rounded value is monotone in its numerator. */
  lemma RoundDivMonotone(n1: int, n2: int, d: int)
    requires d > 0 && n1 <= n2
    ensures RoundDiv(n1, d) <= RoundDiv(n2, d)
  {
    var r1, r2 := RoundDiv(n1, d), RoundDiv(n2, d);
    assert 2 * d * r1 - 2 * d * r2 == 2 * d * (r1 - r2);
    ScaleAwayFromZero(2 * d, r1 - r2);
  }

  /** For a fixed original price, a higher current price never gives a larger discount. */
  lemma DiscountMonotone(o: int, c1: int, c2: int)
    requires o > 0 && c1 <= c2
    ensures CalculateDiscount(o, c2) <= CalculateDiscount(o, c1)
  {
    RoundDivMonotone(100 * (o - c2), 100 * (o - c1), o);
  }

  /** A current price between nothing and the original price gives a percentage in [0, 100]. */
  lemma DiscountRange(o: int, c: int)
    requires o > 0 && 0 <= c <= o
    ensures 0 <= CalculateDiscount(o, c) <= 100
  {
    DiscountEnds(o);
    DiscountMonotone(o, c, o);
    DiscountMonotone(o, 0, c);
  }

  /** `formatDiscount(d)`: the decimal rendering of `d` followed by "% تخفیف". */
  function FormatDiscount(d: int): (r: string)
    ensures |r| > |"% تخفیف"| && r[|r| - |"% تخفیف"|..] == "% تخفیف"
  {
    IntToDecimal(d) + "% تخفیف"
  }

  /** The label keeps the number: `parseInt` of the label gives the discount back. */
  lemma FormatDiscountReadsBack(d: int)
    ensures ParseInt(FormatDiscount(d)) == Some(d)
  {
    ParseRendered(d, "% تخفیف");
  }
}
