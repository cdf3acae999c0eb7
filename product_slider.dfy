/** The product carousel (src/components/product/ProductSlider.tsx): the index of the first
    product shown, moved one step by the previous and next buttons without passing either
    end, and how many products are shown for the window width. */
module ProductSlider {
  import opened Seqs

  /** `handleResize`: 1 product below 640 pixels, 2 below 1024, otherwise 4. */
  function ItemsFor(width: int): int {
    if width < 640 then 1 else if width < 1024 then 2 else 4
  }

  /** The count is one of 1, 2 and 4, and it never falls as the window widens. */
  lemma ItemsForSpec(w1: int, w2: int)
    ensures ItemsFor(w1) in {1, 2, 4}
    ensures w1 <= w2 ==> ItemsFor(w1) <= ItemsFor(w2)
  {
  }

  /** The last index the next button can reach, `Math.max(0, products.length - itemsToShow)`. */
  function MaxIndex(count: int, itemsToShow: int): int {
    Max(0, count - itemsToShow)
  }

  /** The carousel's state, for a list of `count` products. */
  class Slider {
    var currentIndex: int
    var itemsToShow: int

    /** The index lies between 0 and the last reachable index. */
    predicate InRange(count: int)
      reads this
    {
      0 <= currentIndex <= MaxIndex(count, itemsToShow)
    }

    /** `canGoPrevious` */
    predicate CanGoPrevious()
      reads this
    {
      currentIndex > 0
    }

    /** `canGoNext` */
    predicate CanGoNext(count: int)
      reads this
    {
      currentIndex < count - itemsToShow
    }

    /** Index 0 and 4 products; the first resize then sets the count for the window. */
    constructor()
      ensures currentIndex == 0 && itemsToShow == 4
      ensures forall count :: InRange(count)
    {
      currentIndex := 0;
      itemsToShow := 4;
    }

    /** `handleResize()` for a window `width` pixels wide; the index is left as it is. */
    method HandleResize(width: int)
      modifies this
      ensures itemsToShow == ItemsFor(width) && currentIndex == old(currentIndex)
    {
      if width < 640 {
        itemsToShow := 1;
      } else if width < 1024 {
        itemsToShow := 2;
      } else {
        itemsToShow := 4;
      }
    }

    /** `handlePrevious()`: one step back, never below 0. */
    method HandlePrevious(count: int)
      modifies this
      ensures currentIndex == Max(0, old(currentIndex) - 1) && itemsToShow == old(itemsToShow)
      ensures old(InRange(count)) ==> InRange(count)
      ensures old(InRange(count)) ==> (currentIndex != old(currentIndex) <==> old(CanGoPrevious()))
    {
      currentIndex := Max(0, currentIndex - 1);
    }

    /** `handleNext()`: one step on, never past the last reachable index. */
    method HandleNext(count: int)
      modifies this
      ensures currentIndex == Min(MaxIndex(count, itemsToShow), old(currentIndex) + 1) && itemsToShow == old(itemsToShow)
      ensures old(InRange(count)) ==> InRange(count)
      ensures old(InRange(count)) ==> (currentIndex != old(currentIndex) <==> old(CanGoNext(count)))
    {
      var maxIndex := Max(0, count - itemsToShow);
      currentIndex := Min(maxIndex, currentIndex + 1);
    }
  }

  /** Within range, each button is enabled exactly when pressing it moves the index: the
      previous button when the index is above 0, the next button when it is below the last
      reachable index. */
  lemma ButtonsMatchMoves(i: int, count: int, k: int)
    requires 0 <= i <= MaxIndex(count, k)
    ensures i > 0 <==> Max(0, i - 1) != i
    ensures i < count - k <==> Min(MaxIndex(count, k), i + 1) != i
  {
  }
}
