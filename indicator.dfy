/**
 * The position indicators of both carousels: the zone a scroll offset falls in,
 * and the loop that marks one indicator dot active and clears the others.
 */
module Indicator {
  import opened Js
  import opened Layout

  /** What `Math.min(Math.floor(n / w), 2)` yields: a zone number, or NaN when the set width is 0. */
  datatype Zone = Zone(index: int) | NotANumber

  /** Highest zone number the clamp allows. */
  const LastZone := 2

  /** The page's indicator dots in document order: three under the logo strip, then three under the testimonials. */
  const PageDotCount := 6
  const TestimonialDotsFrom := 3
  const DotsPerCarousel := 3

  /** Width of one duplicated set: half the strip's scroll width. */
  function SetWidth(scrollWidth: nat): (h: real)
    ensures h * 2.0 == scrollWidth as real
  {
    scrollWidth as real / 2.0
  }

  /** `Math.min(Math.floor(n / width), 2)`: zone k covers [k * width, (k + 1) * width), the last one everything beyond. */
  function ClampedZone(n: real, width: real): (z: Zone)
    requires 0.0 < width
    ensures z.Zone? && z.index <= LastZone
    ensures 0.0 <= n ==> 0 <= z.index
    ensures z.index == 0 <==> 0.0 <= n < width
    ensures z.index == 1 <==> width <= n < 2.0 * width
    ensures z.index == 2 <==> 2.0 * width <= n
  {
    var q := n / width;
    ScaleCompare(n, width, 0.0);
    ScaleCompare(n, width, 1.0);
    ScaleCompare(n, width, 2.0);
    Zone(Min(q.Floor, LastZone))
  }

  lemma ScaleCompare(n: real, width: real, a: real)
    requires 0.0 < width
    ensures a <= n / width <==> a * width <= n
    ensures n / width < a <==> n < a * width
  {
    var q := n / width;
    assert q * width == n;
    if a <= q { assert a * width <= q * width; }
    if a * width <= n { assert (q - a) * width == n - a * width; SignOfProduct(q - a, width); }
  }

  lemma SignOfProduct(d: real, width: real)
    requires 0.0 < width && 0.0 <= d * width
    ensures 0.0 <= d
  {}

  /**
   * Zone of the logo strip for a sampled offset: the offset is reduced modulo one set
   * and the set is split into three equal thirds (App.jsx:120-133).
   */
  function LogoZone(scrollLeft: real, scrollWidth: nat): (z: Zone)
    ensures z == NotANumber <==> scrollWidth == 0
    ensures z.Zone? ==> z.index <= LastZone
    ensures 0 < scrollWidth && 0.0 <= scrollLeft ==> z.Zone? && 0 <= z.index <= LastZone
    ensures 0 < scrollWidth ==> var third := SetWidth(scrollWidth) / 3.0; var n := Rem(scrollLeft, SetWidth(scrollWidth));
      && (z == Zone(0) <==> 0.0 <= n < third)
      && (z == Zone(1) <==> third <= n < 2.0 * third)
      && (z == Zone(2) <==> 2.0 * third <= n)
  {
    var h := SetWidth(scrollWidth);
    if h == 0.0 then NotANumber
    else ClampedZone(Rem(scrollLeft, h), h / 3.0)
  }

  /**
   * Zone of the testimonial strip for a sampled offset: the offset is reduced modulo one
   * set and divided by the card width plus 30 (App.jsx:187-189).
   */
  function TestimonialZone(scrollLeft: real, scrollWidth: nat, cardWidth: nat): (z: Zone)
    ensures z == NotANumber <==> scrollWidth == 0
    ensures z.Zone? ==> z.index <= LastZone
    ensures 0 < scrollWidth && 0.0 <= scrollLeft ==> z.Zone? && 0 <= z.index <= LastZone
    ensures 0 < scrollWidth ==> var w := TestimonialDotStride(cardWidth) as real; var n := Rem(scrollLeft, SetWidth(scrollWidth));
      && (z == Zone(0) <==> 0.0 <= n < w)
      && (z == Zone(1) <==> w <= n < 2.0 * w)
      && (z == Zone(2) <==> 2.0 * w <= n)
  {
    var h := SetWidth(scrollWidth);
    if h == 0.0 then NotANumber
    else ClampedZone(Rem(scrollLeft, h), TestimonialDotStride(cardWidth) as real)
  }

  /** Number of active dots. */
  function CountActive(dots: seq<bool>): (c: nat)
    ensures c <= |dots|
  {
    if dots == [] then 0 else (if dots[0] then 1 else 0) + CountActive(dots[1..])
  }

  /** A selection in which dot k is active exactly when it is zone `base + k` has one active dot if the zone is in it, else none. */
  lemma {:induction false} CountActiveOfZone(sel: seq<bool>, z: Zone, base: int)
    requires forall k :: 0 <= k < |sel| ==> (sel[k] <==> z == Zone(base + k))
    ensures CountActive(sel) == if z.Zone? && base <= z.index < base + |sel| then 1 else 0
  {
    if sel != [] {
      CountActiveOfZone(sel[1..], z, base + 1);
    }
  }

  /**
   * The dots after one `forEach` over the `count` dots a query selected, starting at
   * document position `from`: the dot at selection index `zone` becomes active, every
   * other selected dot inactive, and unselected dots keep their state.
   */
  function DotsAfter(dots: seq<bool>, from: nat, count: nat, z: Zone): (r: seq<bool>)
    requires from + count <= |dots|
    ensures |r| == |dots|
    ensures r[..from] == dots[..from] && r[from + count..] == dots[from + count..]
    ensures forall k :: from <= k < from + count ==> (r[k] <==> z == Zone(k - from))
    ensures CountActive(r[from..from + count]) == if z.Zone? && 0 <= z.index < count then 1 else 0
  {
    var r := seq(|dots|, k requires 0 <= k < |dots| =>
      if from <= k < from + count then z == Zone(k - from) else dots[k]);
    CountActiveOfZone(r[from..from + count], z, 0);
    r
  }

  /** `dots.forEach((dot, index) => index === activeIndex ? add('active') : remove('active'))` over a selection. */
  method UpdateActiveDots(dots: array<bool>, from: nat, count: nat, z: Zone)
    requires from + count <= dots.Length
    modifies dots
    ensures dots[..] == DotsAfter(old(dots[..]), from, count, z)
  {
    var i := 0;
    while i < count
      invariant 0 <= i <= count
      invariant forall k :: 0 <= k < dots.Length && !(from <= k < from + i) ==> dots[k] == old(dots[k])
      invariant forall k :: from <= k < from + i ==> (dots[k] <==> z == Zone(k - from))
    {
      dots[from + i] := z == Zone(i);
      i := i + 1;
    }
    assert dots[..] == DotsAfter(old(dots[..]), from, count, z);
  }

  /**
   * The logo rule selects every `.carousel-dot` of the document, the testimonial dots
   * included: a logo update leaves all three testimonial dots inactive.
   */
  lemma LogoQueryClearsTestimonialDots(dots: seq<bool>, scrollLeft: real, scrollWidth: nat)
    requires |dots| == PageDotCount
    ensures var r := DotsAfter(dots, 0, |dots|, LogoZone(scrollLeft, scrollWidth));
      forall k :: TestimonialDotsFrom <= k < PageDotCount ==> !r[k]
  {}

  /** A logo update scoped to the strip's own three dots leaves the testimonial dots as they were. */
  lemma ScopedLogoQueryKeepsTestimonialDots(dots: seq<bool>, scrollLeft: real, scrollWidth: nat)
    requires |dots| == PageDotCount && 0 < scrollWidth && 0.0 <= scrollLeft
    ensures var r := DotsAfter(dots, 0, DotsPerCarousel, LogoZone(scrollLeft, scrollWidth));
      r[TestimonialDotsFrom..] == dots[TestimonialDotsFrom..] && CountActive(r[..DotsPerCarousel]) == 1
  {
    var r := DotsAfter(dots, 0, DotsPerCarousel, LogoZone(scrollLeft, scrollWidth));
    assert r[0..DotsPerCarousel] == r[..DotsPerCarousel];
  }

  /**
   * With one set of five logos of width w (set width 5w), the dots' targets 0, 2w and 4w
   * land in zones 0, 1 and 2: each logo dot highlights itself.
   */
  lemma LogoDotSelectsItsZone(k: nat, viewportWidth: int, scrollWidth: nat)
    requires k < DotsPerCarousel
    requires scrollWidth == 2 * LogosPerSet * LogoItemWidth(viewportWidth)
    ensures LogoZone(LogoDotTarget(k, viewportWidth), scrollWidth) == Zone(k)
  {
    var w := LogoItemWidth(viewportWidth) as real;
    var h := SetWidth(scrollWidth);
    assert h == 5.0 * w;
    var t := LogoDotTarget(k, viewportWidth);
    assert t == 2.0 * k as real * w;
    assert Rem(t, h) == t;
  }

  /**
   * The testimonial dots scroll by whole advance steps (card + 20) but the zone rule
   * divides by card + 30: the second and third dots highlight the dot before them.
   */
  lemma TestimonialDotHighlightsPrevious(k: nat, cardWidth: nat, scrollWidth: nat)
    requires 1 <= k < DotsPerCarousel
    requires scrollWidth == 2 * TestimonialsPerSet * TestimonialStep(cardWidth)
    ensures TestimonialZone(TestimonialDotTarget(k, cardWidth), scrollWidth, cardWidth) == Zone(k - 1)
  {
    var step := TestimonialStep(cardWidth) as real;
    var h := SetWidth(scrollWidth);
    assert h == 3.0 * step;
    var t := TestimonialDotTarget(k, cardWidth);
    assert Rem(t, h) == t;
  }

  /** The testimonial zone rule with the advance step as stride. */
  function CorrectedTestimonialZone(scrollLeft: real, scrollWidth: nat, cardWidth: nat): (z: Zone)
    ensures z == NotANumber <==> scrollWidth == 0
    ensures 0 < scrollWidth && 0.0 <= scrollLeft ==> z.Zone? && 0 <= z.index <= LastZone
  {
    var h := SetWidth(scrollWidth);
    if h == 0.0 then NotANumber
    else ClampedZone(Rem(scrollLeft, h), TestimonialStep(cardWidth) as real)
  }

  /** With the advance step as stride, each testimonial dot highlights itself. */
  lemma CorrectedTestimonialDotSelectsItsZone(k: nat, cardWidth: nat, scrollWidth: nat)
    requires k < DotsPerCarousel
    requires scrollWidth == 2 * TestimonialsPerSet * TestimonialStep(cardWidth)
    ensures CorrectedTestimonialZone(TestimonialDotTarget(k, cardWidth), scrollWidth, cardWidth) == Zone(k)
  {
    var step := TestimonialStep(cardWidth) as real;
    var h := SetWidth(scrollWidth);
    assert h == 3.0 * step;
    var t := TestimonialDotTarget(k, cardWidth);
    assert Rem(t, h) == t;
  }
}
