/** JavaScript number helpers used by both canvas scripts, over Dafny's exact
    `real`. Double-precision rounding, NaN and the infinities that ordinary
    arithmetic can produce are not modelled; the one place the source relies
    on `Infinity` (the min/max scan of the glass band) uses `Extended`. */
module Numeric {

  function Min(a: real, b: real): (r: real)
    ensures r <= a && r <= b
    ensures r == a || r == b
  {
    if a <= b then a else b
  }

  function Max(a: real, b: real): (r: real)
    ensures r >= a && r >= b
    ensures r == a || r == b
  {
    if a >= b then a else b
  }

  function Abs(x: real): (r: real)
    ensures r >= 0.0
    ensures r == x || r == -x
  {
    if x < 0.0 then -x else x
  }

  /** The product `d * t`, named so that the bounds below are stated on one term. */
  function Weighted(d: real, t: real): real { d * t }

  /** A weight in [0, 1] scales a gap of either sign toward zero. */
  lemma ScaleBounds(d: real, t: real)
    ensures 0.0 <= t <= 1.0 ==> Min(0.0, d) <= Weighted(d, t) <= Max(0.0, d)
  {
    if 0.0 <= t <= 1.0 {
      if d >= 0.0 { ScaleUp(d, t); } else { ScaleDown(d, t); }
    }
  }

  lemma ScaleUp(d: real, t: real)
    requires 0.0 <= d && 0.0 <= t <= 1.0
    ensures 0.0 <= Weighted(d, t) <= d
  {
    assert d * t <= d * 1.0;
  }

  lemma ScaleDown(d: real, t: real)
    requires d <= 0.0 && 0.0 <= t <= 1.0
    ensures d <= Weighted(d, t) <= 0.0
  {
    ScaleUp(-d, t);
    assert Weighted(-d, t) == -Weighted(d, t);
  }

  /** `Math.sin(u) * a` is at most `|a|` away from zero. */
  lemma SineTerm(s: real, a: real)
    requires -1.0 <= s <= 1.0
    ensures -Abs(a) <= s * a <= Abs(a)
  {
    if s >= 0.0 {
      ScaleBounds(a, s);
      assert s * a == Weighted(a, s);
    } else {
      ScaleBounds(a, -s);
      assert s * a == -Weighted(a, -s);
    }
  }

  /** Two factors of the same strict sign have a positive product. */
  lemma ProductPositive(a: real, b: real)
    requires (a > 0.0 && b > 0.0) || (a < 0.0 && b < 0.0)
    ensures Weighted(a, b) > 0.0
  {
    if a < 0.0 {
      assert a * b == (-a) * (-b);
    }
  }

  /** The sign of a product of a non-negative factor with another. */
  lemma ProductSign(a: real, b: real)
    ensures a >= 0.0 && b >= 0.0 ==> a * b >= 0.0
    ensures a > 0.0 && b > 0.0 ==> a * b > 0.0
  {
    if a > 0.0 && b > 0.0 {
      ProductPositive(a, b);
    }
  }

  /** `x * x`, named so that its sign is stated on one term. */
  function Sq(x: real): real { Weighted(x, x) }

  lemma SquareSign(x: real)
    ensures Sq(x) >= 0.0
    ensures x != 0.0 ==> Sq(x) > 0.0
  {
    if x != 0.0 {
      ProductPositive(x, x);
    }
  }

  /** `Math.max(lo, Math.min(hi, v))`. */
  function Clamp(v: real, lo: real, hi: real): (r: real)
    ensures lo <= hi ==> lo <= r <= hi
    ensures lo <= v <= hi ==> r == v
    ensures v < lo ==> r == lo
    ensures lo <= hi < v ==> r == hi
  {
    Max(lo, Min(hi, v))
  }

  /** `Math.round(x)`: halves go up, also for negative numbers. */
  function Round(x: real): (r: int)
    ensures x - 0.5 < r as real <= x + 0.5
  {
    (x + 0.5).Floor
  }

  /** `Math.trunc(x)`: rounding toward zero. */
  function Trunc(x: real): (r: int)
    ensures 0.0 <= x ==> 0 <= r && r as real <= x < r as real + 1.0
    ensures x < 0.0 ==> r <= 0 && r as real - 1.0 < x <= r as real
  {
    if x >= 0.0 then x.Floor else -((-x).Floor)
  }

  /** `x % 1` on JavaScript numbers: the remainder takes the sign of `x`. */
  function FracPart(x: real): (r: real)
    ensures 0.0 <= x ==> 0.0 <= r < 1.0
    ensures x < 0.0 ==> -1.0 < r <= 0.0
    ensures (x - r).Floor as real == x - r
  {
    x - Trunc(x) as real
  }

  /** `v || d` on a number: zero is falsy and falls back to the default. */
  function Or(v: real, d: real): (r: real)
    ensures r == v || r == d
    ensures v != 0.0 ==> r == v
    ensures r != 0.0 <==> v != 0.0 || d != 0.0
  {
    if v == 0.0 then d else v
  }

  /** A number that may also be one of JavaScript's infinities. */
  datatype Extended = NegInf | Finite(value: real) | PosInf

  /** The order of the extended reals: `-Infinity` below every number, `Infinity` above. */
  predicate ExtLe(a: Extended, b: Extended)
  {
    a.NegInf? || b.PosInf? || (a.Finite? && b.Finite? && a.value <= b.value)
  }

  /** `Math.min(a, b)` with a possibly infinite `a`: the smaller of the two in the
      extended order, and one of them. */
  function ExtMin(a: Extended, b: real): (r: Extended)
    ensures ExtLe(r, a) && ExtLe(r, Finite(b))
    ensures r == a || r == Finite(b)
  {
    match a
    case PosInf => Finite(b)
    case Finite(v) => Finite(Min(v, b))
    case NegInf => NegInf
  }

  /** `Math.max(a, b)` with a possibly infinite `a`: the larger of the two in the
      extended order, and one of them. */
  function ExtMax(a: Extended, b: real): (r: Extended)
    ensures ExtLe(a, r) && ExtLe(Finite(b), r)
    ensures r == a || r == Finite(b)
  {
    match a
    case NegInf => Finite(b)
    case Finite(v) => Finite(Max(v, b))
    case PosInf => PosInf
  }

  /** The transcendental functions the scripts take from the browser. Nothing is
      known about them beyond the ranges `HostLaws` states. */
  datatype MathHost = MathHost(sin: real -> real, exp: real -> real, sqrt: real -> real, hypot: (real, real) -> real)

  /** `Math.sin` lies in [-1, 1], `Math.exp` of a non-positive number in (0, 1],
      `Math.sqrt` of a non-negative number is non-negative, and `Math.hypot(a, b)`
      is at least `|a|` and at least `|b|`. */
  ghost predicate HostLaws(h: MathHost)
  {
    (forall x :: -1.0 <= h.sin(x) <= 1.0) &&
    (forall x :: x <= 0.0 ==> 0.0 < h.exp(x) <= 1.0) &&
    (forall x :: x >= 0.0 ==> h.sqrt(x) >= 0.0) &&
    (forall a, b :: h.hypot(a, b) >= Abs(a) && h.hypot(a, b) >= Abs(b))
  }
}
