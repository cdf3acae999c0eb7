/** The product image gallery (src/components/product/ImageGallery.tsx): which image is
    shown, moved by the arrows around the list or chosen from the thumbnails, and whether
    it is zoomed. */
module ImageGallery {
  import opened Cyclic

  /** The gallery's state for a product with `count` images. The zoom position follows the
      pointer in fractional percentages and is not part of this model. */
  class Gallery {
    const count: int
    var selectedImageIndex: int
    var isZoomed: bool

    /** The index names one of the images. */
    predicate Valid()
      reads this
    {
      0 <= selectedImageIndex < count
    }

    /** The first image, not zoomed. */
    constructor(imageCount: int)
      ensures count == imageCount && selectedImageIndex == 0 && !isZoomed
      ensures imageCount > 0 ==> Valid()
    {
      count := imageCount;
      selectedImageIndex := 0;
      isZoomed := false;
    }

    /** `nextImage()`: the following image, the first after the last, unzoomed. */
    method NextImage()
      requires count > 0
      modifies this
      ensures selectedImageIndex == Forward(old(selectedImageIndex), count) && !isZoomed
      ensures old(Valid()) ==> Valid()
    {
      if Valid() { StepsCycle(selectedImageIndex, count); }
      selectedImageIndex := Forward(selectedImageIndex, count);
      isZoomed := false;
    }

    /** `prevImage()`: the preceding image, the last before the first, unzoomed. */
    method PrevImage()
      requires count > 0
      modifies this
      ensures selectedImageIndex == Backward(old(selectedImageIndex), count) && !isZoomed
      ensures old(Valid()) ==> Valid()
    {
      if Valid() { StepsCycle(selectedImageIndex, count); }
      selectedImageIndex := Backward(selectedImageIndex, count);
      isZoomed := false;
    }

    /** A click on the thumbnail of image `index`: that image, unzoomed. */
    method SelectThumbnail(index: int)
      requires 0 <= index < count
      modifies this
      ensures selectedImageIndex == index && !isZoomed && Valid()
    {
      selectedImageIndex := index;
      isZoomed := false;
    }

    /** `handleImageClick()`: the zoom flips. */
    method HandleImageClick()
      modifies this
      ensures isZoomed == !old(isZoomed) && selectedImageIndex == old(selectedImageIndex)
    {
      isZoomed := !isZoomed;
    }

    /** `handleMouseLeave()`, and a click on the full-screen view: the zoom ends. */
    method HandleMouseLeave()
      modifies this
      ensures !isZoomed && selectedImageIndex == old(selectedImageIndex)
    {
      isZoomed := false;
    }
  }

  /** Going forward and then back shows the image shown before, unzoomed. */
  method NextThenPrev(g: Gallery)
    requires g.Valid()
    modifies g
    ensures g.selectedImageIndex == old(g.selectedImageIndex) && !g.isZoomed && g.Valid()
  {
    g.NextImage();
    StepsCycle(old(g.selectedImageIndex), g.count);
    g.PrevImage();
  }
}
