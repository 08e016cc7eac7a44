/**
 * The number of background stars created when the engine starts: one star per
 * 3000 square pixels of viewport, but never fewer than 100.
 */
module StarField {

  const MinStars: nat := 100
  const PixelsPerStar: nat := 3000

  /**
   * `Math.max(100, Math.floor(width * height / 3000))`; for the non-negative
   * viewport sizes the browser reports, `Math.floor` of the quotient is the
   * integer quotient.
   */
  function StarCount(width: nat, height: nat): (n: nat)
    ensures n >= MinStars
    ensures n == MinStars || n * PixelsPerStar <= width * height < (n + 1) * PixelsPerStar
    ensures width * height >= MinStars * PixelsPerStar ==> n * PixelsPerStar <= width * height
    ensures width * height < (n + 1) * PixelsPerStar
  {
    var area := width * height;
    if area / PixelsPerStar > MinStars then area / PixelsPerStar else MinStars
  }

  /** The count grows with the viewport. */
  lemma StarCountMonotone(w1: nat, h1: nat, w2: nat, h2: nat)
    requires w1 <= w2 && h1 <= h2
    ensures StarCount(w1, h1) <= StarCount(w2, h2)
  {
    assert w1 * h1 <= w2 * h1 <= w2 * h2;
  }

  /** A desktop screen and a phone screen. */
  lemma SampleViewports()
    ensures StarCount(1920, 1080) == 691
    ensures StarCount(375, 667) == 100
  {
  }
}
