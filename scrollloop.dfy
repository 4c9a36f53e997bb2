/**
 * The wrap-around corrections of the two "infinite" strips. Each strip holds its
 * items twice; a handler samples the offset and, at the ends, moves it by one set
 * (or to a fixed landing point) so that scrolling appears endless.
 */
module ScrollLoop {
  import opened Js
  import opened Layout
  import opened Indicator

  /** Below this offset a backward move of the logo strip wraps into the second set. */
  const LogoRewindZone := 10.0
  /** The testimonial strip wraps to the start this many pixels before the end of the first set. */
  const EarlyWrapMargin := 50.0

  /** A scrollable strip element, with the `previousScrollLeft` property the handlers attach to it. */
  class Strip {
    var scrollLeft: real
    var scrollWidth: nat
    var clientWidth: nat
    var previousScrollLeft: Maybe<real>

    /** A freshly rendered strip: at the start, and with no recorded sample. */
    constructor (scrollWidth: nat, clientWidth: nat)
      ensures this.scrollWidth == scrollWidth && this.clientWidth == clientWidth
      ensures scrollLeft == 0.0 && previousScrollLeft == Undefined
    {
      this.scrollWidth := scrollWidth;
      this.clientWidth := clientWidth;
      scrollLeft := 0.0;
      previousScrollLeft := Undefined;
    }
  }

  /** The offset a handler leaves and the value it records as the previous sample. */
  datatype Correction = Correction(scrollLeft: real, previousScrollLeft: real)

  /** The logo strip's backward rule: close to the start and moving towards it. */
  function LogoBackward(s: real, prev: Maybe<real>): (b: bool)
    ensures prev == Undefined ==> !b
    ensures b <==> s < LogoRewindZone && prev.Defined? && s < prev.value
  {
    s < LogoRewindZone && LessThan(s, prev)
  }

  /**
   * `handleInfiniteScroll` (App.jsx:145-164): past one set, move back by a set; near the
   * start while moving backwards, move forward by a set (this rule wins when both apply);
   * record the corrected offset.
   */
  function LogoWrap(s: real, prev: Maybe<real>, scrollWidth: nat): (c: Correction)
    ensures c.previousScrollLeft == c.scrollLeft
    ensures LogoBackward(s, prev) ==> c.scrollLeft == SetWidth(scrollWidth) + s
    ensures !LogoBackward(s, prev) && s > SetWidth(scrollWidth) ==> c.scrollLeft == s - SetWidth(scrollWidth)
    ensures !LogoBackward(s, prev) && s <= SetWidth(scrollWidth) ==> c.scrollLeft == s
    ensures !LogoBackward(s, prev) && SetWidth(scrollWidth) < s <= 2.0 * SetWidth(scrollWidth) ==>
      0.0 < c.scrollLeft <= SetWidth(scrollWidth)
    ensures var shift := c.scrollLeft - s; shift == 0.0 || shift == SetWidth(scrollWidth) || shift == -SetWidth(scrollWidth)
  {
    var h := SetWidth(scrollWidth);
    var afterForward := if s > h then s - h else s;
    var after := if LogoBackward(s, prev) then h + s else afterForward;
    Correction(after, after)
  }

  /** A logo correction moves by whole sets, so the highlighted zone does not jump. */
  lemma LogoWrapKeepsZone(s: real, prev: Maybe<real>, scrollWidth: nat)
    requires 0.0 <= s && 0 < scrollWidth
    ensures LogoZone(LogoWrap(s, prev, scrollWidth).scrollLeft, scrollWidth) == LogoZone(s, scrollWidth)
  {
    var h := SetWidth(scrollWidth);
    var c := LogoWrap(s, prev, scrollWidth);
    if LogoBackward(s, prev) {
      RemPeriodic(s, h);
    } else if s > h {
      RemPeriodic(s - h, h);
      assert (s - h) + h == s;
    }
  }

  /** Once within [0, 2H] and not rewinding, a second pass over the corrected offset changes nothing. */
  lemma LogoWrapSettles(s: real, prev: Maybe<real>, scrollWidth: nat)
    requires 0.0 <= s <= 2.0 * SetWidth(scrollWidth) && !LogoBackward(s, prev)
    ensures var c := LogoWrap(s, prev, scrollWidth);
      LogoWrap(c.scrollLeft, Defined(c.previousScrollLeft), scrollWidth) == c
  {}

  /**
   * Assigning `scrollLeft` fires a scroll event, which runs the handler again: a backward
   * wrap from an offset strictly between 0 and 10 is then moved back by a set, to where it began.
   */
  lemma LogoRewindIsUndoneByNextPass(s: real, prev: Maybe<real>, scrollWidth: nat)
    requires 0.0 < s && LogoBackward(s, prev)
    ensures var c := LogoWrap(s, prev, scrollWidth);
      LogoWrap(c.scrollLeft, Defined(c.previousScrollLeft), scrollWidth).scrollLeft == s
  {}

  /** The testimonial strip's backward rule: at or before the start and moving towards it. */
  function TestimonialBackward(s: real, prev: Maybe<real>): (b: bool)
    ensures prev == Undefined ==> !b
    ensures b <==> s <= 0.0 && prev.Defined? && s < prev.value
  {
    s <= 0.0 && GreaterThan(prev, s)
  }

  /**
   * `handleTestimonialInfiniteScroll` (App.jsx:166-184): from 50 pixels before the end of
   * the first set, jump to 0; on a backward crossing of 0, jump to one viewport before the
   * end of the first set (this rule wins when both apply); record the sample as taken.
   */
  function TestimonialWrap(s: real, prev: Maybe<real>, scrollWidth: nat, clientWidth: nat): (c: Correction)
    ensures c.previousScrollLeft == s
    ensures TestimonialBackward(s, prev) ==> c.scrollLeft == SetWidth(scrollWidth) - clientWidth as real
    ensures !TestimonialBackward(s, prev) && s >= SetWidth(scrollWidth) - EarlyWrapMargin ==> c.scrollLeft == 0.0
    ensures !TestimonialBackward(s, prev) && s < SetWidth(scrollWidth) - EarlyWrapMargin ==> c.scrollLeft == s
    ensures 0.0 <= s ==> (0.0 <= c.scrollLeft <==> !TestimonialBackward(s, prev) || clientWidth as real <= SetWidth(scrollWidth))
  {
    var h := SetWidth(scrollWidth);
    var afterEarly := if s >= h - EarlyWrapMargin then 0.0 else s;
    var after := if TestimonialBackward(s, prev) then h - clientWidth as real else afterEarly;
    Correction(after, s)
  }

  /** A strip 3000 wide with a 500-wide viewport, moving from 10 back to 0, lands at 1500 - 500. */
  lemma TestimonialBackwardScenario()
    ensures TestimonialWrap(0.0, Defined(10.0), 3000, 500).scrollLeft == 1000.0
  {}

  /**
   * Between one viewport before the seam and 50 pixels before it, no rule fires: the
   * corrected offset is not bounded by the backward landing point H - clientWidth.
   */
  lemma TestimonialWrapCanPassLanding()
    ensures var c := TestimonialWrap(1200.0, Defined(1100.0), 3000, 500);
      c.scrollLeft == 1200.0 && c.scrollLeft > SetWidth(3000) - 500 as real
  {}

  /**
   * The early wrap records the large sample but leaves the strip at 0: the scroll event
   * that assignment fires sees a backward crossing of 0, and the strip lands one viewport
   * before the end of the first set instead of at the start.
   */
  lemma TestimonialEarlyWrapBounces(s: real, prev: Maybe<real>, scrollWidth: nat, clientWidth: nat)
    requires 0.0 < s && SetWidth(scrollWidth) - EarlyWrapMargin <= s
    ensures var c := TestimonialWrap(s, prev, scrollWidth, clientWidth);
      c.scrollLeft == 0.0 &&
      TestimonialWrap(c.scrollLeft, Defined(c.previousScrollLeft), scrollWidth, clientWidth).scrollLeft
        == SetWidth(scrollWidth) - clientWidth as real
  {}

  /**
   * The 500 ms settle step of the testimonial auto-advance (App.jsx:621-632): reset to 0
   * from 50 pixels before the end, then run the wrap handler on the new offset.
   */
  function TestimonialSettle(s: real, prev: Maybe<real>, scrollWidth: nat, clientWidth: nat): (c: Correction)
    ensures s >= SetWidth(scrollWidth) - EarlyWrapMargin ==> c.previousScrollLeft == 0.0
    ensures s < SetWidth(scrollWidth) - EarlyWrapMargin ==> c == TestimonialWrap(s, prev, scrollWidth, clientWidth)
  {
    var reset := if s >= SetWidth(scrollWidth) - EarlyWrapMargin then 0.0 else s;
    TestimonialWrap(reset, prev, scrollWidth, clientWidth)
  }

  /**
   * When the settle step resets to 0 while a positive sample is recorded, the handler it
   * calls re-reads 0, sees a backward crossing, and the strip lands at H - clientWidth.
   */
  lemma TestimonialSettleLandsBeforeSeam(s: real, prev: real, scrollWidth: nat, clientWidth: nat)
    requires SetWidth(scrollWidth) - EarlyWrapMargin <= s && 0.0 < prev
    ensures TestimonialSettle(s, Defined(prev), scrollWidth, clientWidth).scrollLeft
      == SetWidth(scrollWidth) - clientWidth as real
  {}

  /** The testimonial handler recording the corrected offset, as the logo handler does. */
  function CorrectedTestimonialWrap(s: real, prev: Maybe<real>, scrollWidth: nat, clientWidth: nat): (c: Correction)
    ensures c.previousScrollLeft == c.scrollLeft
    ensures c.scrollLeft == TestimonialWrap(s, prev, scrollWidth, clientWidth).scrollLeft
  {
    var after := TestimonialWrap(s, prev, scrollWidth, clientWidth).scrollLeft;
    Correction(after, after)
  }

  /** The settle step recording its own reset before it runs the corrected handler. */
  function CorrectedTestimonialSettle(s: real, prev: Maybe<real>, scrollWidth: nat, clientWidth: nat): (c: Correction)
    ensures s >= SetWidth(scrollWidth) - EarlyWrapMargin ==> c == Correction(0.0, 0.0)
    ensures s < SetWidth(scrollWidth) - EarlyWrapMargin ==> c == CorrectedTestimonialWrap(s, prev, scrollWidth, clientWidth)
  {
    if s >= SetWidth(scrollWidth) - EarlyWrapMargin then CorrectedTestimonialWrap(0.0, Defined(0.0), scrollWidth, clientWidth)
    else CorrectedTestimonialWrap(s, prev, scrollWidth, clientWidth)
  }

  /**
   * With the corrections, an early wrap (by the handler or by the settle step) stays at
   * the start when the scroll event it fires runs the handler again.
   */
  lemma CorrectedEarlyWrapStaysAtStart(s: real, prev: Maybe<real>, scrollWidth: nat, clientWidth: nat)
    requires 0.0 < s && EarlyWrapMargin < SetWidth(scrollWidth) && SetWidth(scrollWidth) - EarlyWrapMargin <= s
    ensures var c := CorrectedTestimonialWrap(s, prev, scrollWidth, clientWidth);
      c.scrollLeft == 0.0 &&
      CorrectedTestimonialWrap(c.scrollLeft, Defined(c.previousScrollLeft), scrollWidth, clientWidth) == c
    ensures var c := CorrectedTestimonialSettle(s, prev, scrollWidth, clientWidth);
      c.scrollLeft == 0.0 &&
      CorrectedTestimonialWrap(c.scrollLeft, Defined(c.previousScrollLeft), scrollWidth, clientWidth) == c
  {}

  /** The logo `updateActiveDot` (App.jsx:120-143): the zone of the current offset over every dot of the page. */
  method UpdateActiveDot(container: Strip?, dots: array<bool>)
    modifies dots
    ensures container == null ==> dots[..] == old(dots[..])
    ensures container != null ==>
      dots[..] == DotsAfter(old(dots[..]), 0, dots.Length, LogoZone(container.scrollLeft, container.scrollWidth))
  {
    if container == null {
      return;
    }
    var zone := LogoZone(container.scrollLeft, container.scrollWidth);
    UpdateActiveDots(dots, 0, dots.Length, zone);
  }

  /** One call of `handleInfiniteScroll` on the strip, followed by its dot update. */
  method HandleInfiniteScroll(container: Strip?, dots: array<bool>)
    modifies container, dots
    ensures container == null ==> dots[..] == old(dots[..])
    ensures container != null ==>
      var c := LogoWrap(old(container.scrollLeft), old(container.previousScrollLeft), container.scrollWidth);
      && container.scrollLeft == c.scrollLeft
      && container.previousScrollLeft == Defined(c.previousScrollLeft)
      && container.scrollWidth == old(container.scrollWidth)
      && container.clientWidth == old(container.clientWidth)
      && dots[..] == DotsAfter(old(dots[..]), 0, dots.Length, LogoZone(c.scrollLeft, container.scrollWidth))
  {
    if container == null {
      return;
    }
    var scrollLeft := container.scrollLeft;
    var logoSetWidth := SetWidth(container.scrollWidth);
    if scrollLeft > logoSetWidth {
      container.scrollLeft := scrollLeft - logoSetWidth;
    }
    if scrollLeft < LogoRewindZone && LessThan(scrollLeft, container.previousScrollLeft) {
      container.scrollLeft := logoSetWidth + scrollLeft;
    }
    container.previousScrollLeft := Defined(container.scrollLeft);
    UpdateActiveDot(container, dots);
  }

  /** The logo strip's scroll listener (App.jsx:399-405): a dot update, then the wrap handler. */
  method OnLogoScroll(container: Strip, dots: array<bool>)
    modifies container, dots
    ensures var c := LogoWrap(old(container.scrollLeft), old(container.previousScrollLeft), container.scrollWidth);
      && container.scrollLeft == c.scrollLeft
      && container.previousScrollLeft == Defined(c.previousScrollLeft)
      && container.scrollWidth == old(container.scrollWidth)
      && container.clientWidth == old(container.clientWidth)
      && dots[..] == DotsAfter(old(dots[..]), 0, dots.Length, LogoZone(c.scrollLeft, container.scrollWidth))
  {
    UpdateActiveDot(container, dots);
    HandleInfiniteScroll(container, dots);
  }

  /**
   * One call of `handleTestimonialInfiniteScroll`; `cardWidth` is the measured width of a
   * card, and the selected dots are the three testimonial dots of the page.
   */
  method HandleTestimonialInfiniteScroll(container: Strip?, cardWidth: nat, dots: array<bool>)
    requires dots.Length == PageDotCount
    modifies container, dots
    ensures container == null ==> dots[..] == old(dots[..])
    ensures container != null ==>
      var c := TestimonialWrap(old(container.scrollLeft), old(container.previousScrollLeft), container.scrollWidth, container.clientWidth);
      && container.scrollLeft == c.scrollLeft
      && container.previousScrollLeft == Defined(c.previousScrollLeft)
      && container.scrollWidth == old(container.scrollWidth)
      && container.clientWidth == old(container.clientWidth)
      && dots[..] == DotsAfter(old(dots[..]), TestimonialDotsFrom, DotsPerCarousel,
                               TestimonialZone(old(container.scrollLeft), container.scrollWidth, cardWidth))
  {
    if container == null {
      return;
    }
    var scrollLeft := container.scrollLeft;
    var testimonialSetWidth := SetWidth(container.scrollWidth);
    if scrollLeft >= testimonialSetWidth - EarlyWrapMargin {
      container.scrollLeft := 0.0;
    }
    if scrollLeft <= 0.0 && GreaterThan(container.previousScrollLeft, scrollLeft) {
      container.scrollLeft := testimonialSetWidth - container.clientWidth as real;
    }
    container.previousScrollLeft := Defined(scrollLeft);
    var zone := TestimonialZone(scrollLeft, container.scrollWidth, cardWidth);
    UpdateActiveDots(dots, TestimonialDotsFrom, DotsPerCarousel, zone);
  }

  /** The 500 ms settle callback of a testimonial auto-advance (App.jsx:621-632, 655-666). */
  method SettleTestimonial(container: Strip, cardWidth: nat, dots: array<bool>)
    requires dots.Length == PageDotCount
    modifies container, dots
    ensures var c := TestimonialSettle(old(container.scrollLeft), old(container.previousScrollLeft), container.scrollWidth, container.clientWidth);
      && container.scrollLeft == c.scrollLeft
      && container.previousScrollLeft == Defined(c.previousScrollLeft)
      && container.scrollWidth == old(container.scrollWidth)
      && container.clientWidth == old(container.clientWidth)
    ensures var reset := if old(container.scrollLeft) >= SetWidth(container.scrollWidth) - EarlyWrapMargin then 0.0 else old(container.scrollLeft);
      dots[..] == DotsAfter(old(dots[..]), TestimonialDotsFrom, DotsPerCarousel, TestimonialZone(reset, container.scrollWidth, cardWidth))
  {
    var scrollLeft := container.scrollLeft;
    var testimonialSetWidth := SetWidth(container.scrollWidth);
    if scrollLeft >= testimonialSetWidth - EarlyWrapMargin {
      container.scrollLeft := 0.0;
    }
    HandleTestimonialInfiniteScroll(container, cardWidth, dots);
  }

  /**
   * One tick of the logo auto-advance interval (App.jsx:379-396, 412-428): the offset the
   * smooth `scrollBy` aims at, and a dot update at once, from the offset before the scroll
   * moves. Its 500 ms settle callback is `HandleInfiniteScroll`.
   */
  method LogoAdvanceTick(container: Strip, viewportWidth: int, dots: array<bool>) returns (target: real)
    modifies dots
    ensures target == ScrollByTarget(container.scrollLeft, LogoItemWidth(viewportWidth), true)
    ensures dots[..] == DotsAfter(old(dots[..]), 0, dots.Length, LogoZone(container.scrollLeft, container.scrollWidth))
  {
    var logoWidth := LogoItemWidth(viewportWidth);
    target := ScrollByTarget(container.scrollLeft, logoWidth, true);
    UpdateActiveDot(container, dots);
  }
}
