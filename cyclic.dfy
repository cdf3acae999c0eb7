/** Stepping forwards and backwards around a list of `n` entries with JavaScript's `%`,
    as the image gallery's arrows (src/components/product/ImageGallery.tsx) and the
    suggestion keys of the search box (src/components/common/SearchAutocomplete.tsx) do. */
module Cyclic {

  /** `a % n` in JavaScript, whose remainder takes the sign of `a`. */
  function JsRem(a: int, n: int): int
    requires n > 0
  {
    if a >= 0 then a % n else -((-a) % n)
  }

  /** `(prev + 1) % n` */
  function Forward(prev: int, n: int): int
    requires n > 0
  {
    JsRem(prev + 1, n)
  }

  /** `(prev - 1 + n) % n` */
  function Backward(prev: int, n: int): int
    requires n > 0
  {
    JsRem(prev - 1 + n, n)
  }

  /** The remainder of a number below `2 * n`. */
  lemma RemBelowTwice(a: int, n: int)
    requires n > 0 && 0 <= a < 2 * n
    ensures JsRem(a, n) == if a < n then a else a - n
  {
    var q, r := a / n, a % n;
    assert a == q * n + r && 0 <= r < n;
    MultipleBounds(q, n);
    if q == 0 {
      assert a == r;
    } else {
      assert q == 1;
      assert a == n + r;
    }
  }

  /** A multiple `q * n` of a positive `n` is at least `2 * n` when `q >= 2`, and negative
      when `q < 0`. */
  lemma MultipleBounds(q: int, n: int)
    requires n > 0
    ensures q >= 2 ==> q * n >= 2 * n
    ensures q < 0 ==> q * n < 0
  {
    if q >= 2 {
      assert q * n == 2 * n + (q - 2) * n;
    }
  }

  /** From -1 (nothing chosen) or an index in `0..n-1`, either step lands on an index in
      `0..n-1`; from an index, the two steps undo each other; they wrap around at the ends;
      a forward step from -1 reaches the first entry. */
  lemma StepsCycle(prev: int, n: int)
    requires n > 0 && -1 <= prev < n
    ensures 0 <= Forward(prev, n) < n && 0 <= Backward(prev, n) < n
    ensures 0 <= prev ==> Backward(Forward(prev, n), n) == prev && Forward(Backward(prev, n), n) == prev
    ensures Forward(n - 1, n) == 0 && Backward(0, n) == n - 1
    ensures Forward(-1, n) == 0
  {
    RemBelowTwice(prev + 1, n);
    RemBelowTwice(n, n);
    RemBelowTwice(n - 1, n);
    RemBelowTwice(0, n);
    if prev == -1 && n == 1 {
      assert Backward(prev, n) == 0;
    } else {
      RemBelowTwice(prev - 1 + n, n);
    }
    if 0 <= prev {
      var f, b := Forward(prev, n), Backward(prev, n);
      RemBelowTwice(f - 1 + n, n);
      RemBelowTwice(b + 1, n);
    }
  }

  /** A backward step from -1 lands on the next-to-last entry when there are two or more,
      not on the last one. */
  lemma BackwardFromNothing(n: int)
    requires n >= 2
    ensures Backward(-1, n) == n - 2
  {
    RemBelowTwice(n - 2, n);
  }
}
