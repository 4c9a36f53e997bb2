/** The few JavaScript value semantics the page's carousel code depends on. */
module Js {

  /** A property that may not have been assigned yet: reading it gives `undefined`. */
  datatype Maybe<T> = Undefined | Defined(value: T)

  /** `x < p` where `p` may be `undefined`: every comparison with `undefined` is false. */
  function LessThan(x: real, p: Maybe<real>): (b: bool)
    ensures p == Undefined ==> !b
    ensures p.Defined? ==> (b <==> x < p.value)
  {
    p.Defined? && x < p.value
  }

  /** `p > x` where `p` may be `undefined`. */
  function GreaterThan(p: Maybe<real>, x: real): (b: bool)
    ensures p == Undefined ==> !b
    ensures p.Defined? ==> (b <==> p.value > x)
    ensures b == LessThan(x, p)
  {
    p.Defined? && p.value > x
  }

  /** Truncation toward zero, the quotient JavaScript's `%` operator is built on. */
  function Trunc(x: real): (t: int)
    ensures 0.0 <= x ==> t as real <= x < t as real + 1.0
    ensures x < 0.0 ==> t as real - 1.0 < x <= t as real
  {
    if x >= 0.0 then x.Floor else -((-x).Floor)
  }

  /** JavaScript's `x % m` for a finite `x` and a non-zero `m`: the remainder takes the sign of `x`. */
  function Rem(x: real, m: real): (r: real)
    requires m != 0.0
    ensures 0.0 <= x && 0.0 < m ==> 0.0 <= r < m
    ensures x <= 0.0 && 0.0 < m ==> -m < r <= 0.0
    ensures 0.0 <= x < m ==> r == x
  {
    if 0.0 <= x < m then
      assert 0.0 <= x / m < 1.0 by { QuotientBelowOne(x, m); }
      x - m * Trunc(x / m) as real
    else if 0.0 < m then RemBounds(x, m); x - m * Trunc(x / m) as real
    else x - m * Trunc(x / m) as real
  }

  lemma RemBounds(x: real, m: real)
    requires 0.0 < m
    ensures 0.0 <= x ==> 0.0 <= x - m * Trunc(x / m) as real < m
    ensures x <= 0.0 ==> -m < x - m * Trunc(x / m) as real <= 0.0
  {
    var q := x / m;
    var t := Trunc(q);
    Distribute(x, m, t);
    if 0.0 <= x {
      NonNegQuotient(x, m);
      ScaleFraction(x - m * t as real, m, q - t as real);
    } else {
      NonNegQuotient(-x, m);
      ScaleFraction(m * t as real - x, m, t as real - q);
    }
  }

  /** A remainder that is `m` times a fraction in [0, 1) lies in [0, m). */
  lemma ScaleFraction(r: real, m: real, f: real)
    requires 0.0 < m && 0.0 <= f < 1.0 && r == m * f
    ensures 0.0 <= r < m
  {}

  /** Adding one whole period does not change a non-negative remainder. */
  lemma {:induction false} RemPeriodic(x: real, m: real)
    requires 0.0 <= x && 0.0 < m
    ensures Rem(x + m, m) == Rem(x, m)
  {
    SplitQuotient(x, m);
    NonNegQuotient(x, m);
    assert Trunc((x + m) / m) == Trunc(x / m) + 1;
  }

  lemma SplitQuotient(x: real, m: real)
    requires 0.0 < m
    ensures (x + m) / m == x / m + 1.0
  {
    var q := x / m;
    var p := (x + m) / m;
    assert q * m == x;
    assert p * m == x + m;
    assert (p - q - 1.0) * m == p * m - q * m - m == 0.0;
    ZeroProduct(p - q - 1.0, m);
  }

  lemma ZeroProduct(a: real, m: real)
    requires m != 0.0 && a * m == 0.0
    ensures a == 0.0
  {}

  lemma QuotientBelowOne(x: real, m: real)
    requires 0.0 <= x < m
    ensures 0.0 <= x / m < 1.0
  {}

  lemma Distribute(x: real, m: real, t: int)
    requires m != 0.0
    ensures x - m * t as real == m * (x / m - t as real)
  {}

  lemma NonNegQuotient(x: real, m: real)
    requires 0.0 <= x && 0.0 < m
    ensures 0.0 <= x / m && (-x) / m == -(x / m)
  {}

  /** JavaScript's `Math.min(a, b)` on integers. */
  function Min(a: int, b: int): (r: int)
    ensures r <= a && r <= b && (r == a || r == b)
  {
    if a <= b then a else b
  }
}
