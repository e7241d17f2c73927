/**
 * The scissor rectangle of `GuiRenderer.startClipping`: a clip area in
 * logical GUI units becomes a rectangle in window pixels, scaled by the
 * current factor and flipped vertically, because the graphics pipeline's
 * origin is the bottom-left corner of the window while the GUI's is the
 * top-left one.
 */
module Scissor {
  import opened JavaInt

  /** The clip area a component asks for: origin, extent and a "do not clip" flag. */
  datatype ClipArea = ClipArea(x: Int32, y: Int32, width: Int32, height: Int32, noClip: bool)

  /** A rectangle in window pixels, origin at the bottom-left corner, as `glScissor` takes it. */
  datatype Rect = Rect(x: Int32, y: Int32, w: Int32, h: Int32)

  /** The guard shared by `startClipping` and `endClipping`: such an area is not clipped at all. */
  predicate Skips(area: ClipArea)
  {
    area.noClip || area.width <= 0 || area.height <= 0
  }

  /** The pixel factor of a clip rectangle: 1 when the GUI scale is ignored, otherwise the scale factor. */
  function PixelFactor(ignoreScale: bool, scaleFactor: Int32): (r: Int32)
    ensures scaleFactor >= 1 ==> r >= 1
  {
    if ignoreScale then 1 else scaleFactor
  }

  /** True when none of the products, sums and differences of the rectangle overflows an int. */
  predicate NoOverflow(area: ClipArea, displayHeight: int, f: int)
  {
    && MinInt <= area.x * f <= MaxInt
    && MinInt <= area.y + area.height <= MaxInt
    && MinInt <= (area.y + area.height) * f <= MaxInt
    && MinInt <= displayHeight - (area.y + area.height) * f <= MaxInt
    && MinInt <= area.width * f <= MaxInt
    && MinInt <= area.height * f <= MaxInt
  }

  /**
   * The rectangle handed to `glScissor`, computed with Java int arithmetic.
   * Without overflow it is the area scaled by `f`, flipped vertically: the
   * area's bottom edge `y + height` lands at `displayHeight - (y + height) * f`
   * and its top edge `y` at `displayHeight - y * f`; an area that is clipped
   * at all gets a box of positive size.
   */
  function ScissorRect(area: ClipArea, displayHeight: Int32, f: Int32): (r: Rect)
    ensures NoOverflow(area, displayHeight, f) ==>
              r == Rect(area.x * f, displayHeight - (area.y + area.height) * f, area.width * f, area.height * f)
    ensures NoOverflow(area, displayHeight, f) ==> r.y + r.h == displayHeight - area.y * f
    ensures NoOverflow(area, displayHeight, f) && !Skips(area) && f >= 1 ==> r.w >= 1 && r.h >= 1
  {
    ScaledEdges(area, f);
    Rect(Mul(area.x, f),
         Sub(displayHeight, Mul(Add(area.y, area.height), f)),
         Mul(area.width, f),
         Mul(area.height, f))
  }

  /** Scaling distributes over the bottom edge and keeps a positive extent positive. */
  lemma ScaledEdges(area: ClipArea, f: int)
    ensures (area.y + area.height) * f == area.y * f + area.height * f
    ensures area.width >= 1 && f >= 1 ==> area.width * f >= 1
    ensures area.height >= 1 && f >= 1 ==> area.height * f >= 1
  {
    if area.width >= 1 && f >= 1 {
      assert area.width * f == area.width + area.width * (f - 1);
    }
    if area.height >= 1 && f >= 1 {
      assert area.height * f == area.height + area.height * (f - 1);
    }
  }

  /** Area (10, 20, 30, 40) in a 600-pixel-high window at factor 2 clips to (20, 480, 60, 80). */
  lemma ScissorRectExample()
    ensures ScissorRect(ClipArea(10, 20, 30, 40, false), 600, PixelFactor(false, 2)) == Rect(20, 480, 60, 80)
  {
  }
}
