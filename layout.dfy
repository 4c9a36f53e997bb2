/** Item widths and scroll targets of the two carousels. */
module Layout {

  /** Breakpoints of the logo strip, in CSS pixels of `window.innerWidth`. */
  const SmallViewport := 576
  const MediumViewport := 768

  /** Gap between testimonial cards that an advance step adds to the measured card width. */
  const TestimonialStepGap := 20
  /** Gap the testimonial dot rule adds to the measured card width (not the same as the step's). */
  const TestimonialDotGap := 30

  /** Number of distinct items in one logical set (the markup holds each set twice). */
  const LogosPerSet := 5
  const TestimonialsPerSet := 3

  /** One logo item plus its gap, chosen by viewport width. */
  function LogoItemWidth(viewportWidth: int): (w: nat)
    ensures w == 125 <==> viewportWidth <= SmallViewport
    ensures w == 150 <==> SmallViewport < viewportWidth <= MediumViewport
    ensures w == 190 <==> MediumViewport < viewportWidth
  {
    if viewportWidth <= SmallViewport then 125
    else if viewportWidth <= MediumViewport then 150
    else 190
  }

  /** A wider viewport never gets a narrower logo step. */
  lemma LogoItemWidthMonotone(v1: int, v2: int)
    requires v1 <= v2
    ensures LogoItemWidth(v1) <= LogoItemWidth(v2)
  {
    if v1 <= SmallViewport {
      assert LogoItemWidth(v1) == 125;
    } else if v1 <= MediumViewport {
      assert LogoItemWidth(v1) == 150 && MediumViewport >= SmallViewport;
    } else {
      assert LogoItemWidth(v2) == 190;
    }
  }

  /** Distance one testimonial advance (auto or prev/next button) scrolls. */
  function TestimonialStep(cardWidth: nat): (w: nat)
    ensures w > cardWidth
  {
    cardWidth + TestimonialStepGap
  }

  /** Width of one indicator zone in the testimonial dot rule. */
  function TestimonialDotStride(cardWidth: nat): (w: nat)
    ensures w > TestimonialStep(cardWidth)
  {
    cardWidth + TestimonialDotGap
  }

  /** Absolute offset the k-th logo dot scrolls to: 0, two items, four items. */
  function LogoDotTarget(k: nat, viewportWidth: int): (target: real)
    requires k < 3
    ensures target == (2 * k * LogoItemWidth(viewportWidth)) as real
  {
    if k == 0 then 0.0
    else if k == 1 then (LogoItemWidth(viewportWidth) * 2) as real
    else (LogoItemWidth(viewportWidth) * 4) as real
  }

  /** Absolute offset the k-th testimonial dot scrolls to: k advance steps. */
  function TestimonialDotTarget(k: nat, cardWidth: nat): (target: real)
    requires k < 3
    ensures target == (k * TestimonialStep(cardWidth)) as real
  {
    if k == 0 then 0.0
    else if k == 1 then TestimonialStep(cardWidth) as real
    else (TestimonialStep(cardWidth) * 2) as real
  }

  /** Offset a relative `scrollBy` asks the browser for; `forward` is the next button or an auto-advance. */
  function ScrollByTarget(scrollLeft: real, step: nat, forward: bool): (target: real)
    ensures forward ==> target - scrollLeft == step as real
    ensures !forward ==> scrollLeft - target == step as real
  {
    if forward then scrollLeft + step as real else scrollLeft - step as real
  }
}
