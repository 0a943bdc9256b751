/** Colour arithmetic shared by both wave scripts: linear interpolation of
    RGB channels with `Math.round`, mixing toward white, darkening with a
    clamp, and the cyclic palette lookup. script.js and bg.js each carry an
    identical copy of `lerp`, `lerpColor` and the palette lookup; they are
    defined once here and applied to each script's own palette. */
module Colour {
  import opened Numeric

  /** A colour as the scripts build it: `{ r, g, b }` with whole-number channels. */
  datatype RGB = RGB(r: int, g: int, b: int)

  const White := RGB(255, 255, 255)

  predicate IsByte(v: int) { 0 <= v <= 255 }

  predicate InGamut(c: RGB) { IsByte(c.r) && IsByte(c.g) && IsByte(c.b) }

  /** Integer channel `v` lies between `a` and `b`, in either order. */
  predicate Between(v: int, a: int, b: int)
  {
    (a <= v <= b) || (b <= v <= a)
  }

  /** Every channel of `c` lies between the same channels of `c1` and `c2`. */
  predicate ColourBetween(c: RGB, c1: RGB, c2: RGB)
  {
    Between(c.r, c1.r, c2.r) && Between(c.g, c1.g, c2.g) && Between(c.b, c1.b, c2.b)
  }

  /** `lerp(a, b, t)`. */
  function Lerp(a: real, b: real, t: real): (r: real)
    ensures 0.0 <= t <= 1.0 ==> Min(a, b) <= r <= Max(a, b)
    ensures t == 0.0 ==> r == a
    ensures t == 1.0 ==> r == b
  {
    ScaleBounds(b - a, t);
    a + (b - a) * t
  }

  /** Rounding a value that lies between two whole numbers stays between them. */
  lemma RoundBetween(v: real, a: int, b: int)
    requires (a as real <= v <= b as real) || (b as real <= v <= a as real)
    ensures Between(Round(v), a, b)
  {
  }

  /** One channel of `lerpColor`. */
  function LerpChannel(a: int, b: int, t: real): (r: int)
    ensures 0.0 <= t <= 1.0 ==> Between(r, a, b)
    ensures t == 0.0 ==> r == a
    ensures t == 1.0 ==> r == b
  {
    var v := Lerp(a as real, b as real, t);
    assert 0.0 <= t <= 1.0 ==> Between(Round(v), a, b) by {
      if 0.0 <= t <= 1.0 { RoundBetween(v, a, b); }
    }
    Round(v)
  }

  /** `lerpColor(c1, c2, t)`: each channel interpolated and rounded on its own. */
  function LerpColor(c1: RGB, c2: RGB, t: real): (c: RGB)
    ensures 0.0 <= t <= 1.0 ==> ColourBetween(c, c1, c2)
    ensures 0.0 <= t <= 1.0 && InGamut(c1) && InGamut(c2) ==> InGamut(c)
    ensures t == 0.0 ==> c == c1
    ensures t == 1.0 ==> c == c2
  {
    RGB(LerpChannel(c1.r, c2.r, t), LerpChannel(c1.g, c2.g, t), LerpChannel(c1.b, c2.b, t))
  }

  /** One channel of `mixWithWhite`: `round(c + (255 - c) * amount)`. */
  function MixChannel(c: int, amount: real): (r: int)
    ensures IsByte(c) && 0.0 <= amount <= 1.0 ==> c <= r <= 255
    ensures amount == 0.0 ==> r == c
    ensures amount == 1.0 ==> r == 255
  {
    ScaleBounds(255.0 - c as real, amount);
    Round(c as real + (255.0 - c as real) * amount)
  }

  /** `mixWithWhite(c, amount)`: moves every channel toward 255 by `amount`. */
  function MixWithWhite(c: RGB, amount: real): (w: RGB)
    ensures InGamut(c) && 0.0 <= amount <= 1.0 ==>
      InGamut(w) && c.r <= w.r && c.g <= w.g && c.b <= w.b
    ensures amount == 0.0 ==> w == c
    ensures amount == 1.0 ==> w == White
  {
    RGB(MixChannel(c.r, amount), MixChannel(c.g, amount), MixChannel(c.b, amount))
  }

  /** One channel of `darken`: `round(clamp(c * factor, 0, 255))`. */
  function DarkenChannel(c: int, factor: real): (r: int)
    ensures IsByte(r)
    ensures IsByte(c) && 0.0 <= factor <= 1.0 ==> r <= c
    ensures IsByte(c) && factor == 1.0 ==> r == c
  {
    ScaleBounds(c as real, factor);
    Round(Clamp(c as real * factor, 0.0, 255.0))
  }

  /** `darken(c, factor)`: scales every channel, clamped into [0, 255]. */
  function Darken(c: RGB, factor: real): (d: RGB)
    ensures InGamut(d)
    ensures InGamut(c) && 0.0 <= factor <= 1.0 ==> d.r <= c.r && d.g <= c.g && d.b <= c.b
    ensures InGamut(c) && factor == 1.0 ==> d == c
  {
    RGB(DarkenChannel(c.r, factor), DarkenChannel(c.g, factor), DarkenChannel(c.b, factor))
  }

  /** The lower stop index `floor(t * (n - 1))` and the weight toward the next stop. */
  function Scale(n: nat, t: real): (r: (int, real))
    requires n > 0 && 0.0 <= t
    ensures r.0 >= 0 && 0.0 <= r.1 < 1.0
    ensures r.0 as real + r.1 == t * (n - 1) as real
    ensures t < 1.0 && n >= 2 ==> r.0 < n - 1
  {
    var scaled := t * (n - 1) as real;
    assert scaled >= 0.0;
    assert t < 1.0 && n >= 2 ==> scaled < (n - 1) as real;
    (scaled.Floor, scaled - scaled.Floor as real)
  }

  /** The two palette stops `i % n` and `(i + 1) % n` that phase `t` falls between. */
  function StopIndices(n: nat, t: real): (r: (nat, nat))
    requires n > 0 && 0.0 <= t
    ensures r.0 < n && r.1 < n
    ensures t < 1.0 && n >= 2 ==> r.0 == Scale(n, t).0 && r.1 == r.0 + 1
  {
    var i := Scale(n, t).0;
    (i % n, (i + 1) % n)
  }

  /** `paletteAt(t)` / `paletteGradientAt(t)` over an explicit palette: the palette
      is read as a cycle and the colour between the two stops is interpolated. */
  function PaletteLookup(palette: seq<RGB>, t: real): (c: RGB)
    requires |palette| > 0 && 0.0 <= t
    ensures ColourBetween(c, palette[StopIndices(|palette|, t).0], palette[StopIndices(|palette|, t).1])
    ensures (forall k | 0 <= k < |palette| :: InGamut(palette[k])) ==> InGamut(c)
  {
    var n := |palette|;
    var (i, f) := Scale(n, t);
    var c1 := palette[i % n];
    var c2 := palette[(i + 1) % n];
    LerpColor(c1, c2, f)
  }

  /** Scaling the phase `k / (n - 1)` lands exactly on stop `k` with weight zero. */
  lemma ScaleAtStop(n: nat, k: nat)
    requires n >= 2 && k < n
    ensures Scale(n, k as real / (n - 1) as real) == (k, 0.0)
  {
    var t := k as real / (n - 1) as real;
    assert t * (n - 1) as real == k as real;
    assert (k as real).Floor == k;
  }

  /** At phase `k / (n - 1)` the weight is zero and the lookup returns stop `k` itself. */
  lemma PaletteLookupAtStop(palette: seq<RGB>, k: nat)
    requires |palette| >= 2 && k < |palette|
    ensures PaletteLookup(palette, k as real / (|palette| - 1) as real) == palette[k]
  {
    var n := |palette|;
    var t := k as real / (n - 1) as real;
    ScaleAtStop(n, k);
    assert k % n == k;
    assert PaletteLookup(palette, t) == LerpColor(palette[k], palette[(k + 1) % n], 0.0);
  }

  /** For a phase in [0, 1) the cyclic wrap is never taken: the lookup interpolates
      between stop `floor(t * (n - 1))` and the one after it. */
  lemma PaletteLookupNoWrap(palette: seq<RGB>, t: real)
    requires |palette| >= 2 && 0.0 <= t < 1.0
    ensures var i := Scale(|palette|, t).0;
      0 <= i < |palette| - 1 &&
      PaletteLookup(palette, t) == LerpColor(palette[i], palette[i + 1], Scale(|palette|, t).1)
  {
  }
}
