/** Backing-bitmap sizing shared by script.js `resizeCanvas` and bg.js
    `resize`: the device-pixel ratio is clamped into [1, 1.5], the CSS size is
    the floored window size, and the bitmap is the floored product. */
module Viewport {
  import opened Numeric
  import opened Wrappers

  const MinDpi: real := 1.0
  const MaxDpi: real := 1.5

  /** `Math.max(1, Math.min(1.5, window.devicePixelRatio || 1))`; `None` is an
      undefined ratio, and a ratio of 0 is falsy and also becomes 1. */
  function ClampDpi(ratio: Option<real>): (dpi: real)
    ensures MinDpi <= dpi <= MaxDpi
    ensures ratio.Some? && MinDpi <= ratio.value <= MaxDpi ==> dpi == ratio.value
    ensures ratio.Some? && ratio.value > MaxDpi ==> dpi == MaxDpi
    ensures ratio.None? || ratio.value < MinDpi ==> dpi == MinDpi
  {
    var r := match ratio case None => 1.0 case Some(v) => Or(v, 1.0);
    Max(MinDpi, Min(MaxDpi, r))
  }

  /** `Math.floor(size * dpi)`: the bitmap size for a CSS size, the largest whole
      number not above the product. */
  function BackingSize(size: nat, dpi: real): (n: int)
    ensures n as real <= size as real * dpi < n as real + 1.0
    ensures MinDpi <= dpi <= MaxDpi ==> size <= n && n as real <= MaxDpi * size as real
    ensures dpi == 1.0 ==> n == size
  {
    BackingBounds(size, dpi);
    (size as real * dpi).Floor
  }

  lemma BackingBounds(size: nat, dpi: real)
    ensures MinDpi <= dpi <= MaxDpi ==>
      size <= (size as real * dpi).Floor && (size as real * dpi).Floor as real <= MaxDpi * size as real
  {
    if MinDpi <= dpi <= MaxDpi {
      var v := size as real * dpi;
      ScaleUp(size as real, (dpi - 1.0) / 0.5);
      assert v == size as real + Weighted(size as real, (dpi - 1.0) / 0.5) * 0.5;
      assert size as real <= v <= MaxDpi * size as real;
      assert (size as real).Floor == size;
    }
  }

  /** What one resize computes from the window: the clamped ratio, the CSS size
      and the bitmap size. */
  datatype Sizing = Sizing(dpi: real, width: nat, height: nat, backingWidth: int, backingHeight: int)

  /** The sizing that `resize` derives from the ratio and `innerWidth`/`innerHeight`. */
  function Measure(ratio: Option<real>, innerWidth: real, innerHeight: real): (s: Sizing)
    requires innerWidth >= 0.0 && innerHeight >= 0.0
    ensures s.dpi == ClampDpi(ratio) && MinDpi <= s.dpi <= MaxDpi
    ensures s.width as real <= innerWidth < s.width as real + 1.0
    ensures s.height as real <= innerHeight < s.height as real + 1.0
    ensures s.width <= s.backingWidth && s.backingWidth as real <= MaxDpi * s.width as real
    ensures s.height <= s.backingHeight && s.backingHeight as real <= MaxDpi * s.height as real
    ensures s.backingWidth == BackingSize(s.width, s.dpi) && s.backingHeight == BackingSize(s.height, s.dpi)
  {
    var dpi := ClampDpi(ratio);
    var w := innerWidth.Floor;
    var h := innerHeight.Floor;
    Sizing(dpi, w, h, BackingSize(w, dpi), BackingSize(h, dpi))
  }

  /** A 1920 x 1080 window at ratio 2 is drawn at ratio 1.5 into a 2880 x 1620 bitmap. */
  lemma FullHdAtRatioTwo()
    ensures Measure(Some(2.0), 1920.0, 1080.0) == Sizing(1.5, 1920, 1080, 2880, 1620)
  {
    assert (1920.0).Floor == 1920 && (1080.0).Floor == 1080;
    assert (1920.0 * 1.5).Floor == 2880 && (1080.0 * 1.5).Floor == 1620;
  }
}
