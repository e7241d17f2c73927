/**
 * The GUI scale factor: the largest integer multiplier, up to a cap, for
 * which the window still holds at least 320 x 240 logical GUI units
 * (`GuiRenderer.calcScaleFactor`). This module gives the value the loop
 * computes as a function and proves what it means; the loop itself is
 * `Renderer.GuiRenderer.CalcScaleFactor`.
 */
module Scale {
  import opened JavaInt

  const MinGuiWidth: int := 320
  const MinGuiHeight: int := 240
  /** The cap used when the user asked for "auto" (a `guiScale` of 0). */
  const AutoCap: int := 1000

  /**
   * The largest factor the loop may reach for a requested `guiScale`: the
   * request itself, or 1000 on "auto"; a negative request leaves the loop
   * no room to climb.
   */
  function Cap(guiScale: int): (r: int)
    ensures guiScale > 0 ==> r == guiScale
    ensures guiScale == 0 ==> r == AutoCap
    ensures r >= 1 <==> guiScale >= 0
  {
    if guiScale == 0 then AutoCap else guiScale
  }

  /**
   * The loop's test on a candidate factor `f`, with Java's int division; a
   * window that passes it for any factor is at least 320 x 240 pixels.
   */
  predicate Fits(displayWidth: int, displayHeight: int, f: int)
    requires f > 0
    ensures Fits(displayWidth, displayHeight, f) ==> displayWidth >= MinGuiWidth && displayHeight >= MinGuiHeight
  {
    Div(displayWidth, f) >= MinGuiWidth && Div(displayHeight, f) >= MinGuiHeight
  }

  /** The factor the loop ends with when it starts from `f`. */
  function ScaleFrom(displayWidth: int, displayHeight: int, cap: int, f: int): (r: int)
    requires f >= 1
    ensures r >= f
    decreases cap - f
  {
    if f < cap && Fits(displayWidth, displayHeight, f + 1)
    then ScaleFrom(displayWidth, displayHeight, cap, f + 1)
    else f
  }

  /** The scale factor for a window and a requested scale (0 = auto). */
  function ScaleFactor(displayWidth: int, displayHeight: int, guiScale: int): (r: int)
    ensures r >= 1
  {
    ScaleFrom(displayWidth, displayHeight, Cap(guiScale), 1)
  }

  /** With Java's division, a factor fits exactly when the window holds 320f x 240f pixels. */
  lemma FitsIff(displayWidth: int, displayHeight: int, f: int)
    requires f > 0
    ensures Fits(displayWidth, displayHeight, f)
        <==> displayWidth >= MinGuiWidth * f && displayHeight >= MinGuiHeight * f
  {
    DivAtLeast(displayWidth, f, MinGuiWidth);
    DivAtLeast(displayHeight, f, MinGuiHeight);
  }

  lemma DivAtLeast(a: int, b: int, m: int)
    requires b > 0 && m > 0
    ensures Div(a, b) >= m <==> a >= m * b
  {
    var q := Div(a, b);
    if a >= 0 {
      if q >= m {
        MulMono(m, q, b);
      } else {
        MulMono(q + 1, m, b);
      }
    } else {
      assert m * b > 0 by { MulMono(1, m, b); }
    }
  }

  lemma MulMono(x: int, y: int, b: int)
    requires x <= y && b > 0
    ensures x * b <= y * b
  {
    assert y * b - x * b == (y - x) * b;
  }

  /** Fitting is monotone: a factor that fits makes every smaller one fit too. */
  lemma FitsDownward(displayWidth: int, displayHeight: int, f: int, g: int)
    requires 0 < f <= g
    requires Fits(displayWidth, displayHeight, g)
    ensures Fits(displayWidth, displayHeight, f)
  {
    FitsIff(displayWidth, displayHeight, f);
    FitsIff(displayWidth, displayHeight, g);
  }

  /** What the loop started at `f` ends with: never above the cap it may climb to, and every factor it passed fits. */
  lemma {:induction false} ScaleFromSpec(displayWidth: int, displayHeight: int, cap: int, f: int)
    requires f >= 1
    ensures f < cap ==> ScaleFrom(displayWidth, displayHeight, cap, f) <= cap
    ensures f >= cap ==> ScaleFrom(displayWidth, displayHeight, cap, f) == f
    ensures forall g :: f < g <= ScaleFrom(displayWidth, displayHeight, cap, f) ==> Fits(displayWidth, displayHeight, g)
    ensures ScaleFrom(displayWidth, displayHeight, cap, f) < cap
        ==> !Fits(displayWidth, displayHeight, ScaleFrom(displayWidth, displayHeight, cap, f) + 1)
    decreases cap - f
  {
    if f < cap && Fits(displayWidth, displayHeight, f + 1) {
      ScaleFromSpec(displayWidth, displayHeight, cap, f + 1);
    }
  }

  /**
   * The scale factor never exceeds a positive requested
   * scale, the auto cap is 1000, and a zero-or-negative cap leaves it at 1.
   */
  lemma ScaleFactorBounds(displayWidth: int, displayHeight: int, guiScale: int)
    ensures guiScale >= 1 ==> ScaleFactor(displayWidth, displayHeight, guiScale) <= guiScale
    ensures guiScale == 0 ==> ScaleFactor(displayWidth, displayHeight, guiScale) <= AutoCap
    ensures guiScale <= 1 && guiScale != 0 ==> ScaleFactor(displayWidth, displayHeight, guiScale) == 1
  {
    ScaleFromSpec(displayWidth, displayHeight, Cap(guiScale), 1);
  }

  /**
   * Maximality: every factor from 2 up to the result fits, and below the cap
   * the next factor does not fit.
   */
  lemma ScaleFactorMaximal(displayWidth: int, displayHeight: int, guiScale: int)
    ensures forall f :: 2 <= f <= ScaleFactor(displayWidth, displayHeight, guiScale) ==> Fits(displayWidth, displayHeight, f)
    ensures ScaleFactor(displayWidth, displayHeight, guiScale) < Cap(guiScale)
        ==> !Fits(displayWidth, displayHeight, ScaleFactor(displayWidth, displayHeight, guiScale) + 1)
  {
    ScaleFromSpec(displayWidth, displayHeight, Cap(guiScale), 1);
  }

  /**
   * The result is the largest factor within the cap that fits: no factor
   * above it and within the cap fits.
   */
  lemma ScaleFactorIsLargest(displayWidth: int, displayHeight: int, guiScale: int, f: int)
    requires ScaleFactor(displayWidth, displayHeight, guiScale) < f <= Cap(guiScale)
    ensures !Fits(displayWidth, displayHeight, f)
  {
    var s := ScaleFactor(displayWidth, displayHeight, guiScale);
    ScaleFactorBounds(displayWidth, displayHeight, guiScale);
    ScaleFactorMaximal(displayWidth, displayHeight, guiScale);
    if Fits(displayWidth, displayHeight, f) {
      FitsDownward(displayWidth, displayHeight, s + 1, f);
    }
  }

  /** A 1920 x 1080 window on "auto" gets factor 4 (1920/5 = 384, but 1080/5 = 216 < 240). */
  lemma FullHdAuto()
    ensures ScaleFactor(1920, 1080, 0) == 4
  {
  }
}
