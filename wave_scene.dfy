/** The layered wave scene of script.js: its palette, the crest function over
    the host's `Math.sin`, the glass band's clamped ribbon points and their
    vertical extent, the specular-highlight gate, the per-thread jitter and
    the per-frame clock. The canvas calls that consume these values are not
    modelled; each operation returns what it would hand to the canvas. */
module WaveScene {
  import opened Numeric
  import opened Wrappers
  import opened Colour
  import opened Viewport

  /** `palette` of script.js. */
  const Palette: seq<RGB> := [RGB(180, 18, 28), RGB(210, 22, 36), RGB(150, 10, 24), RGB(180, 18, 28)]

  /** Every stop of `Palette` is a valid colour. */
  predicate PaletteInGamut() { forall k | 0 <= k < |Palette| :: InGamut(Palette[k]) }

  /** `paletteGradientAt(t)`. */
  function PaletteGradientAt(t: real): (c: RGB)
    requires 0.0 <= t
    ensures InGamut(c)
    ensures 150 <= c.r <= 210 && 10 <= c.g <= 22 && 24 <= c.b <= 36
  {
    assert PaletteInGamut();
    PaletteLookup(Palette, t)
  }

  /** At `t = k / 3` the gradient is exactly stop `k`. */
  lemma PaletteGradientAtStops(k: nat)
    requires k < |Palette|
    ensures PaletteGradientAt(k as real / 3.0) == Palette[k]
  {
    assert (|Palette| - 1) as real == 3.0;
    var t := k as real / 3.0;
    assert t == k as real / (|Palette| - 1) as real;
    PaletteLookupAtStop(Palette, k);
  }


  /** The phases of the three harmonics of `getWaveY` at `x`: the `wave`
      configuration has length 0.009 and speed 0.48. */
  function Phases(x: real, time: real, lenMul: real, speedMul: real): (real, real, real)
  {
    var k := 0.009 * lenMul;
    var t := time * 0.48 * speedMul;
    (x * k + t, x * k * 0.45 + t * 1.7, x * k * 0.18 + t * 0.65)
  }

  /** The three harmonics, of relative weights 1, 0.38 and 0.18, over amplitude `amp`. */
  function Harmonics(s1: real, s2: real, s3: real, amp: real): real
  {
    s1 * amp + s2 * (amp * 0.38) + s3 * (amp * 0.18)
  }

  /** With sines in [-1, 1] the harmonics stay within `1.56 * |amp|`. */
  lemma HarmonicsBounded(s1: real, s2: real, s3: real, amp: real)
    requires -1.0 <= s1 <= 1.0 && -1.0 <= s2 <= 1.0 && -1.0 <= s3 <= 1.0
    ensures -1.56 * Abs(amp) <= Harmonics(s1, s2, s3, amp) <= 1.56 * Abs(amp)
  {
    var b, c := amp * 0.38, amp * 0.18;
    SineTerm(s1, amp);
    SineTerm(s2, b);
    SineTerm(s3, c);
    assert Abs(b) == 0.38 * Abs(amp) && Abs(c) == 0.18 * Abs(amp);
    var t1, t2, t3 := s1 * amp, s2 * b, s3 * c;
    assert -Abs(amp) <= t1 <= Abs(amp);
    assert -0.38 * Abs(amp) <= t2 <= 0.38 * Abs(amp);
    assert -0.18 * Abs(amp) <= t3 <= 0.18 * Abs(amp);
  }

  /** `getWaveY(x, timeSeconds, ampMul, lenMul, speedMul)`: the harmonics of
      amplitude `60 * ampMul` around the baseline `height * 0.58`. */
  function WaveY(host: MathHost, height: nat, x: real, time: real, ampMul: real, lenMul: real, speedMul: real): real
  {
    var p := Phases(x, time, lenMul, speedMul);
    height as real * 0.58 + Harmonics(host.sin(p.0), host.sin(p.1), host.sin(p.2), 60.0 * ampMul)
  }

  /** The crest never leaves the band of half-width `1.56 * |60 * ampMul|` around
      the baseline. */
  lemma WaveYBounded(host: MathHost, height: nat, x: real, time: real, ampMul: real, lenMul: real, speedMul: real)
    requires HostLaws(host)
    ensures var y := WaveY(host, height, x, time, ampMul, lenMul, speedMul);
      var a := Abs(60.0 * ampMul);
      height as real * 0.58 - 1.56 * a <= y <= height as real * 0.58 + 1.56 * a
  {
    var p := Phases(x, time, lenMul, speedMul);
    HarmonicsBounded(host.sin(p.0), host.sin(p.1), host.sin(p.2), 60.0 * ampMul);
  }

  // ---------------------------------------------------------------------------
  // Glass band (script.js `drawGlassBand`). `renderFrame` never calls it.

  const GlassEnabled: bool := true
  const GlassStep: nat := 7
  /** How far outside the viewport a ribbon point may lie. */
  const GlassMargin: real := 50.0

  datatype Point = Point(x: real, y: real)

  /** The box `[-50, width + 50] x [-50, height + 50]` every ribbon point is clamped into. */
  predicate InGlassBox(p: Point, width: nat, height: nat)
  {
    -GlassMargin <= p.x <= width as real + GlassMargin &&
    -GlassMargin <= p.y <= height as real + GlassMargin
  }

  function GlassCrest(host: MathHost, height: nat, x: real, time: real): real
  {
    WaveY(host, height, x, time, 0.9, 1.0, 1.0)
  }

  /** `clamp` of both coordinates into the glass box. */
  function ClampToGlassBox(p: Point, width: nat, height: nat): (q: Point)
    ensures InGlassBox(q, width, height)
    ensures InGlassBox(p, width, height) ==> q == p
  {
    Point(Clamp(p.x, -GlassMargin, width as real + GlassMargin), Clamp(p.y, -GlassMargin, height as real + GlassMargin))
  }

  /** The top and bottom ribbon points at sample `x`: the crest offset by half the
      modulated thickness along the finite-difference normal, then clamped. Points
      the clamp leaves alone stay mirror images about the crest point. */
  function GlassSample(host: MathHost, width: nat, height: nat, time: real, x: int): (p: (Point, Point))
    requires HostLaws(host)
    ensures InGlassBox(p.0, width, height) && InGlassBox(p.1, width, height)
    ensures var raw := GlassRaw(host, width, height, time, x);
      p == (ClampToGlassBox(raw.0, width, height), ClampToGlassBox(raw.1, width, height)) &&
      (InGlassBox(raw.0, width, height) ==> p.0 == raw.0) &&
      (InGlassBox(raw.1, width, height) ==> p.1 == raw.1)
    ensures var raw := GlassRaw(host, width, height, time, x);
      InGlassBox(raw.0, width, height) && InGlassBox(raw.1, width, height) ==>
        p.0.x + p.1.x == 2.0 * x as real &&
        p.0.y + p.1.y == 2.0 * GlassCrest(host, height, x as real, time)
  {
    var raw := GlassRaw(host, width, height, time, x);
    (ClampToGlassBox(raw.0, width, height), ClampToGlassBox(raw.1, width, height))
  }

  /** The unclamped ribbon points at sample `x`: mirror images of each other
      about the crest point `(x, crest(x))`. */
  function GlassRaw(host: MathHost, width: nat, height: nat, time: real, x: int): (p: (Point, Point))
    requires HostLaws(host)
    ensures p.0.x + p.1.x == 2.0 * x as real
    ensures p.0.y + p.1.y == 2.0 * GlassCrest(host, height, x as real, time)
  {
    var y := GlassCrest(host, height, x as real, time);
    var dx := GlassStep as real;
    var yPrev := GlassCrest(host, height, Max(0.0, x as real - dx), time);
    var yNext := GlassCrest(host, height, Min(width as real, x as real + dx), time);
    var dy := (yNext - yPrev) / (2.0 * dx);
    var invLen := 1.0 / host.hypot(1.0, dy);
    var nx := -dy * invLen;
    var ny := 1.0 * invLen;
    var thickness := 34.0 + host.sin(x as real * 0.01 + time * 0.4) * 8.0;
    var half := thickness * 0.5;
    (Point(x as real - nx * half, y - ny * half), Point(x as real + nx * half, y + ny * half))
  }

  /** Samples `x = 0, 7, 14, ...` while `x <= width + 7`. */
  function GlassSampleCount(width: nat): (n: nat)
    ensures n >= 2
    ensures (n - 1) * GlassStep <= width + GlassStep < n * GlassStep
  {
    (width + GlassStep) / GlassStep + 1
  }

  /** The sampling loop of `drawGlassBand`: fills `pointsTop` and `pointsBottom`. */
  method GlassBandPoints(host: MathHost, width: nat, height: nat, time: real)
    returns (top: seq<Point>, bottom: seq<Point>)
    requires HostLaws(host)
    ensures |top| == |bottom| == GlassSampleCount(width)
    ensures forall i | 0 <= i < |top| :: (top[i], bottom[i]) == GlassSample(host, width, height, time, i * GlassStep)
    ensures forall i | 0 <= i < |top| :: InGlassBox(top[i], width, height) && InGlassBox(bottom[i], width, height)
  {
    top, bottom := [], [];
    var x := 0;
    while x <= width + GlassStep
      invariant x == |top| * GlassStep && |bottom| == |top|
      invariant x <= width + 2 * GlassStep
      invariant forall i | 0 <= i < |top| :: (top[i], bottom[i]) == GlassSample(host, width, height, time, i * GlassStep)
      decreases width + GlassStep - x
    {
      var p := GlassSample(host, width, height, time, x);
      top := top + [p.0];
      bottom := bottom + [p.1];
      x := x + GlassStep;
    }
    assert |top| == GlassSampleCount(width);
  }

  /** `y` is one of the vertical coordinates of `top` or `bottom`. */
  predicate IsSampleY(y: real, top: seq<Point>, bottom: seq<Point>)
  {
    (exists i | 0 <= i < |top| :: top[i].y == y) || (exists i | 0 <= i < |bottom| :: bottom[i].y == y)
  }

  /** `lo` and `hi` bound every vertical coordinate of `top` and `bottom`. */
  predicate BoundsAllY(lo: real, hi: real, top: seq<Point>, bottom: seq<Point>)
  {
    (forall i | 0 <= i < |top| :: lo <= top[i].y <= hi) &&
    (forall i | 0 <= i < |bottom| :: lo <= bottom[i].y <= hi)
  }

  /** The two min/max loops of `drawGlassBand`, starting from `Infinity` and
      `-Infinity`: both stay infinite exactly when there are no points, and
      otherwise they are the least and greatest vertical coordinate. */
  method ScanY(top: seq<Point>, bottom: seq<Point>) returns (minY: Extended, maxY: Extended)
    ensures |top| + |bottom| == 0 <==> minY == PosInf
    ensures |top| + |bottom| == 0 <==> maxY == NegInf
    ensures |top| + |bottom| > 0 ==> minY.Finite? && maxY.Finite?
    ensures minY.Finite? ==>
      BoundsAllY(minY.value, maxY.value, top, bottom) &&
      IsSampleY(minY.value, top, bottom) && IsSampleY(maxY.value, top, bottom)
  {
    minY, maxY := PosInf, NegInf;
    for i := 0 to |top|
      invariant i == 0 <==> minY == PosInf
      invariant i == 0 <==> maxY == NegInf
      invariant i > 0 ==> minY.Finite? && maxY.Finite?
      invariant i > 0 ==> forall j | 0 <= j < i :: minY.value <= top[j].y <= maxY.value
      invariant i > 0 ==> (exists j | 0 <= j < i :: top[j].y == minY.value)
      invariant i > 0 ==> (exists j | 0 <= j < i :: top[j].y == maxY.value)
    {
      minY := ExtMin(minY, top[i].y);
      maxY := ExtMax(maxY, top[i].y);
    }
    for i := 0 to |bottom|
      invariant |top| + i == 0 <==> minY == PosInf
      invariant |top| + i == 0 <==> maxY == NegInf
      invariant |top| + i > 0 ==> minY.Finite? && maxY.Finite?
      invariant |top| + i > 0 ==> forall j | 0 <= j < |top| :: minY.value <= top[j].y <= maxY.value
      invariant |top| + i > 0 ==> forall j | 0 <= j < i :: minY.value <= bottom[j].y <= maxY.value
      invariant |top| + i > 0 ==> IsSampleY(minY.value, top, bottom[..i])
      invariant |top| + i > 0 ==> IsSampleY(maxY.value, top, bottom[..i])
    {
      minY := ExtMin(minY, bottom[i].y);
      maxY := ExtMax(maxY, bottom[i].y);
      assert bottom[..i + 1][i] == bottom[i];
      SampleYGrows(minY.value, top, bottom[..i], bottom[i]);
      SampleYGrows(maxY.value, top, bottom[..i], bottom[i]);
      assert bottom[..i] + [bottom[i]] == bottom[..i + 1];
    }
    assert bottom[..|bottom|] == bottom;
  }

  /** Appending a point keeps old witnesses and adds the new point's own. */
  lemma SampleYGrows(y: real, top: seq<Point>, pre: seq<Point>, p: Point)
    requires IsSampleY(y, top, pre) || p.y == y
    ensures IsSampleY(y, top, pre + [p])
  {
    var post := pre + [p];
    if p.y == y {
      assert post[|pre|].y == y;
    } else if exists i | 0 <= i < |top| :: top[i].y == y {
    } else {
      var i :| 0 <= i < |pre| && pre[i].y == y;
      assert post[i] == pre[i];
    }
  }

  /** One colour stop of a linear gradient. */
  datatype Stop = Stop(offset: real, colour: RGB)

  /** The five stops of the glass gradient: dark, mid, near-white glow, mid, dark. */
  function GlassStops(base: RGB): (s: seq<Stop>)
    ensures |s| == 5
    ensures forall i | 0 <= i < 4 :: s[i].offset < s[i + 1].offset
    ensures s[0].offset == 0.0 && s[4].offset == 1.0
    ensures forall i | 0 <= i < 5 :: i != 2 ==> InGamut(s[i].colour)
    ensures InGamut(base) ==> forall i | 0 <= i < 5 :: InGamut(s[i].colour)
    ensures InGamut(base) ==> s[2].colour.r >= base.r && s[2].colour.g >= base.g && s[2].colour.b >= base.b
    ensures InGamut(base) ==> forall i | 0 <= i < 5 :: i != 2 ==>
      s[i].colour.r <= base.r && s[i].colour.g <= base.g && s[i].colour.b <= base.b
  {
    [Stop(0.00, Darken(base, 0.25)), Stop(0.30, Darken(base, 0.55)), Stop(0.52, MixWithWhite(base, 0.70)),
     Stop(0.70, Darken(base, 0.5)), Stop(1.00, Darken(base, 0.22))]
  }

  /** What `drawGlassBand` hands to the canvas once it gets past its guards. */
  datatype GlassBand = GlassBand(
    top: seq<Point>, bottom: seq<Point>,
    gradientFrom: real, gradientTo: real, stops: seq<Stop>,
    topEdge: RGB, bottomEdge: RGB)

  /** `drawGlassBand(timeSeconds, baseColor)`. With the band enabled there are always
      at least two samples, so the `isFinite` guard never fires and a band is drawn
      whose gradient reaches 20 pixels beyond every ribbon point. */
  method DrawGlassBand(host: MathHost, width: nat, height: nat, time: real, base: RGB) returns (band: Option<GlassBand>)
    requires HostLaws(host)
    ensures band.Some? <==> GlassEnabled
    ensures band.Some? ==>
      var b := band.value;
      |b.top| == |b.bottom| == GlassSampleCount(width) &&
      (forall i | 0 <= i < |b.top| :: (b.top[i], b.bottom[i]) == GlassSample(host, width, height, time, i * GlassStep)) &&
      BoundsAllY(b.gradientFrom + 20.0, b.gradientTo - 20.0, b.top, b.bottom) &&
      IsSampleY(b.gradientFrom + 20.0, b.top, b.bottom) && IsSampleY(b.gradientTo - 20.0, b.top, b.bottom) &&
      b.stops == GlassStops(base) &&
      b.topEdge == MixWithWhite(base, 0.82) && b.bottomEdge == Darken(base, 0.28)
  {
    if !GlassEnabled {
      return None;
    }
    var top, bottom := GlassBandPoints(host, width, height, time);
    var minY, maxY := ScanY(top, bottom);
    if !minY.Finite? || !maxY.Finite? {
      return None;
    }
    band := Some(GlassBand(top, bottom, minY.value - 20.0, maxY.value + 20.0, GlassStops(base),
                           MixWithWhite(base, 0.82), Darken(base, 0.28)));
  }

  // ---------------------------------------------------------------------------
  // Specular highlight (script.js `drawSpecularHighlight`). `renderFrame` never calls it.

  const SpecularThreshold: real := 0.02

  /** `getWaveDY`: the symmetric difference of the crest over +-1.5 pixels. */
  function WaveDY(host: MathHost, height: nat, x: real, time: real, ampMul: real, lenMul: real, speedMul: real): real
  {
    var h := 1.5;
    var y1 := WaveY(host, height, x - h, time, ampMul, lenMul, speedMul);
    var y2 := WaveY(host, height, x + h, time, ampMul, lenMul, speedMul);
    (y2 - y1) / (2.0 * h)
  }

  /** `Math.max(0, 1 - Math.min(1, slope * 0.9))`: full on a flat crest, none
      from slope 1/0.9 on, and never brighter for a steeper slope. */
  function SpecularIntensity(slope: real): (r: real)
    requires slope >= 0.0
    ensures 0.0 <= r <= 1.0
    ensures r == 1.0 <==> slope == 0.0
    ensures r == 0.0 <==> slope * 0.9 >= 1.0
    ensures slope * 0.9 <= 1.0 ==> r + slope * 0.9 == 1.0
  {
    Max(0.0, 1.0 - Min(1.0, slope * 0.9))
  }

  lemma SpecularIntensityAntitone(s1: real, s2: real)
    requires 0.0 <= s1 <= s2
    ensures SpecularIntensity(s2) <= SpecularIntensity(s1)
  {
  }

  /** One highlight segment: a horizontal stroke 6 pixels long centred on the crest. */
  datatype Segment = Segment(x0: real, x1: real, y: real, intensity: real, lineWidth: real, colour: RGB, alpha: real)

  /** The segment drawn at sample `x`: there is one exactly when the intensity of
      the crest's slope there exceeds 0.02, and it sits on the crest. */
  function SpecularAt(host: MathHost, height: nat, time: real, base: RGB, x: int): (s: Option<Segment>)
    ensures var i := SpecularIntensity(Abs(WaveDY(host, height, x as real, time, 0.95, 1.0, 1.0)));
      (s.Some? <==> i > SpecularThreshold) &&
      (s.Some? ==> s.value.intensity == i && s.value.y == WaveY(host, height, x as real, time, 0.95, 1.0, 1.0))
    ensures s.Some? ==> Gated(s.value, base) && s.value.x0 == x as real - 3.0
  {
    var y := WaveY(host, height, x as real, time, 0.95, 1.0, 1.0);
    var dy := WaveDY(host, height, x as real, time, 0.95, 1.0, 1.0);
    var intensity := SpecularIntensity(Abs(dy));
    if intensity <= SpecularThreshold then None
    else
      Some(Segment(x as real - 3.0, x as real + 3.0, y, intensity,
                   1.0 + intensity * 1.8, MixWithWhite(base, 0.85), 0.09 + intensity * 0.18))
  }

  /** The gate of a drawn segment: its intensity is above 0.02, its width is
      `1 + 1.8 * intensity` and its colour is the base mixed 85% with white. */
  predicate Gated(s: Segment, base: RGB)
  {
    SpecularThreshold < s.intensity <= 1.0 &&
    s.lineWidth == 1.0 + 1.8 * s.intensity && 1.0 < s.lineWidth <= 2.8 &&
    s.alpha == 0.09 + s.intensity * 0.18 &&
    s.colour == MixWithWhite(base, 0.85) &&
    s.x1 - s.x0 == 6.0
  }

  /** The samples `x = 0, 6, ..., 6 * (n - 1)`, each with the segment it draws, if any. */
  function SpecularSamples(host: MathHost, height: nat, time: real, base: RGB, n: nat): (r: seq<Option<Segment>>)
    ensures |r| == n
    ensures forall i | 0 <= i < n :: r[i] == SpecularAt(host, height, time, base, i * 6)
  {
    if n == 0 then []
    else SpecularSamples(host, height, time, base, n - 1) + [SpecularAt(host, height, time, base, (n - 1) * 6)]
  }

  /** The segments among `samples`, in order; a sample the gate dropped is skipped. */
  function Kept(samples: seq<Option<Segment>>): seq<Segment>
  {
    if |samples| == 0 then []
    else
      var rest := Kept(samples[..|samples| - 1]);
      match samples[|samples| - 1]
      case None => rest
      case Some(s) => rest + [s]
  }

  /** Exactly the present samples are kept: nothing is invented and nothing that
      passed the gate is lost, and there are never more segments than samples. */
  lemma {:induction false} KeptExactly(samples: seq<Option<Segment>>)
    ensures |Kept(samples)| <= |samples|
    ensures forall s :: s in Kept(samples) <==> Some(s) in samples
  {
    if |samples| > 0 {
      var pre := samples[..|samples| - 1];
      KeptExactly(pre);
      assert samples == pre + [samples[|samples| - 1]];
    }
  }

  /** A property every present sample has, every kept segment has. */
  lemma KeptGated(samples: seq<Option<Segment>>, base: RGB)
    requires forall i | 0 <= i < |samples| :: samples[i].Some? ==> Gated(samples[i].value, base)
    ensures forall j | 0 <= j < |Kept(samples)| :: Gated(Kept(samples)[j], base)
  {
    KeptExactly(samples);
    forall j | 0 <= j < |Kept(samples)|
      ensures Gated(Kept(samples)[j], base)
    {
      var s := Kept(samples)[j];
      assert s in Kept(samples);
      var i :| 0 <= i < |samples| && samples[i] == Some(s);
    }
  }

  /** Every segment the highlight draws passed the gate. */
  lemma SpecularDrawnGated(host: MathHost, height: nat, time: real, base: RGB, n: nat)
    ensures var segs := Kept(SpecularSamples(host, height, time, base, n));
      forall i | 0 <= i < |segs| :: Gated(segs[i], base)
  {
    KeptGated(SpecularSamples(host, height, time, base, n), base);
  }

  /** The highlight draws a segment at sample `x = 6 * i` exactly when the crest's
      intensity there exceeds 0.02. */
  lemma SpecularDrawnIffAboveGate(host: MathHost, height: nat, time: real, base: RGB, n: nat, i: nat)
    requires i < n
    ensures var segs := Kept(SpecularSamples(host, height, time, base, n));
      var x := (i * 6) as real;
      (exists seg | seg in segs :: seg.x0 == x - 3.0) <==>
        SpecularIntensity(Abs(WaveDY(host, height, x, time, 0.95, 1.0, 1.0))) > SpecularThreshold
  {
    var samples := SpecularSamples(host, height, time, base, n);
    var segs := Kept(samples);
    var x := (i * 6) as real;
    KeptExactly(samples);
    if exists seg | seg in segs :: seg.x0 == x - 3.0 {
      var seg :| seg in segs && seg.x0 == x - 3.0;
      var j :| 0 <= j < |samples| && samples[j] == Some(seg);
      assert samples[j] == SpecularAt(host, height, time, base, j * 6);
      assert j == i;
    }
    if SpecularIntensity(Abs(WaveDY(host, height, x, time, 0.95, 1.0, 1.0))) > SpecularThreshold {
      var s := SpecularAt(host, height, time, base, i * 6);
      assert samples[i] == s;
      assert s.value in segs;
    }
  }

  /** `drawSpecularHighlight(timeSeconds, baseColor)`: samples `x = 0, 6, ...` while
      `x <= width` and strokes the segments that pass the gate, left to right. */
  method DrawSpecularHighlight(host: MathHost, width: nat, height: nat, time: real, base: RGB) returns (segs: seq<Segment>)
    ensures segs == Kept(SpecularSamples(host, height, time, base, width / 6 + 1))
    ensures forall i | 0 <= i < |segs| :: Gated(segs[i], base)
  {
    segs := [];
    ghost var samples: seq<Option<Segment>> := [];
    var x, n := 0, 0;
    while x <= width
      invariant x == n * 6 && x <= width + 6
      invariant samples == SpecularSamples(host, height, time, base, n)
      invariant segs == Kept(samples)
      decreases width - x
    {
      var s := SpecularAt(host, height, time, base, x);
      assert (samples + [s])[..|samples|] == samples;
      samples := samples + [s];
      if s.Some? {
        segs := segs + [s.value];
      }
      x, n := x + 6, n + 1;
    }
    assert n == width / 6 + 1;
    SpecularDrawnGated(host, height, time, base, n);
  }

  // ---------------------------------------------------------------------------
  // Threads and the frame loop (script.js `renderFrame`).

  const ThreadCount: nat := 22
  const AmpJitter: real := 0.35
  const LenJitter: real := 0.3
  const SpeedJitter: real := 0.35

  /** The position `i / count` of thread `i` lies in [0, 1). */
  lemma ThreadPosition(i: nat, count: nat)
    requires i < count
    ensures 0.0 <= i as real / count as real < 1.0
  {
    var u := i as real / count as real;
    assert u * count as real == i as real;
  }

  /** `1.0 + (i / count - 0.5) * jitter`: thread `i` of `count` is spread over
      `[1 - jitter / 2, 1 + jitter / 2)`, the first thread at the lower end. */
  function ThreadMultiplier(i: nat, count: nat, jitter: real): (m: real)
    requires i < count
    ensures jitter >= 0.0 ==> 1.0 - jitter * 0.5 <= m <= 1.0 + jitter * 0.5
    ensures jitter > 0.0 ==> m < 1.0 + jitter * 0.5
    ensures jitter == 0.0 ==> m == 1.0
    ensures i == 0 ==> m == 1.0 - jitter * 0.5
  {
    var u := i as real / count as real;
    ThreadPosition(i, count);
    ScaleBounds(jitter, u);
    ScaleBelow(jitter, u);
    assert (u - 0.5) * jitter == Weighted(jitter, u) - jitter * 0.5;
    1.0 + (u - 0.5) * jitter
  }

  /** A weight below 1 keeps a positive amount strictly below itself. */
  lemma ScaleBelow(d: real, t: real)
    ensures 0.0 < d && 0.0 <= t < 1.0 ==> Weighted(d, t) < d
  {
    if 0.0 < d && 0.0 <= t < 1.0 {
      assert d * t < d * 1.0;
    }
  }

  /** Later threads get strictly larger multipliers for a positive jitter. */
  lemma ThreadMultiplierIncreasing(i: nat, j: nat, count: nat, jitter: real)
    requires i < j < count && jitter > 0.0
    ensures ThreadMultiplier(i, count, jitter) < ThreadMultiplier(j, count, jitter)
  {
    var u := i as real / count as real;
    var v := j as real / count as real;
    var gap := (j - i) as real / count as real;
    assert gap > 0.0;
    assert gap * count as real == (j - i) as real;
    assert u * count as real == i as real;
    assert v * count as real == j as real;
    assert v - u == gap;
    assert gap * jitter > 0.0;
    assert (v - 0.5) * jitter - (u - 0.5) * jitter == gap * jitter;
  }

  datatype ThreadMuls = ThreadMuls(ampMul: real, lenMul: real, speedMul: real)

  /** The multipliers of thread `i`. */
  function ThreadAt(i: nat): (t: ThreadMuls)
    requires i < ThreadCount
    ensures 0.825 <= t.ampMul < 1.175 && 0.85 <= t.lenMul < 1.15 && 0.825 <= t.speedMul < 1.175
  {
    ThreadMuls(ThreadMultiplier(i, ThreadCount, AmpJitter), ThreadMultiplier(i, ThreadCount, LenJitter),
               ThreadMultiplier(i, ThreadCount, SpeedJitter))
  }

  /** The thread loop of `renderFrame`: one crest per thread, in index order. */
  method Threads() returns (threads: seq<ThreadMuls>)
    ensures |threads| == ThreadCount
    ensures forall i | 0 <= i < ThreadCount :: threads[i] == ThreadAt(i)
  {
    threads := [];
    for i := 0 to ThreadCount
      invariant |threads| == i
      invariant forall j | 0 <= j < i :: threads[j] == ThreadAt(j)
    {
      threads := threads + [ThreadAt(i)];
    }
  }

  /** What one `renderFrame` call computes before drawing. */
  datatype Frame = Frame(elapsed: real, colour: RGB, farBand: RGB, nearBand: RGB, threads: seq<ThreadMuls>)

  /** The module state of script.js: the clamped ratio, the CSS size, both canvases'
      bitmap sizes and the animation start timestamp. */
  class WaveCanvas {
    var dpi: real
    var width: nat
    var height: nat
    var canvasWidth: int
    var canvasHeight: int
    var textWidth: int
    var textHeight: int
    var startTs: real

    /** Both canvases are sized from the same clamped ratio and floored CSS size. */
    ghost predicate Valid()
      reads this
    {
      MinDpi <= dpi <= MaxDpi &&
      canvasWidth == BackingSize(width, dpi) && canvasHeight == BackingSize(height, dpi) &&
      textWidth == canvasWidth && textHeight == canvasHeight
    }

    /** The script's start-up: the initial ratio (not yet capped at 1.5), zero
        sizes, then the first `resizeCanvas()`. */
    constructor (ratio: Option<real>, innerWidth: real, innerHeight: real)
      requires innerWidth >= 0.0 && innerHeight >= 0.0
      ensures Valid()
      ensures var s := Measure(ratio, innerWidth, innerHeight);
        dpi == s.dpi && width == s.width && height == s.height &&
        canvasWidth == s.backingWidth && canvasHeight == s.backingHeight
      ensures startTs == 0.0
    {
      dpi := Max(1.0, match ratio case None => 1.0 case Some(v) => Or(v, 1.0));
      width, height := 0, 0;
      canvasWidth, canvasHeight, textWidth, textHeight := 0, 0, 0, 0;
      startTs := 0.0;
      new;
      ResizeCanvas(ratio, innerWidth, innerHeight);
    }

    /** `resizeCanvas()`. */
    method ResizeCanvas(ratio: Option<real>, innerWidth: real, innerHeight: real)
      requires innerWidth >= 0.0 && innerHeight >= 0.0
      modifies this`dpi, this`width, this`height, this`canvasWidth, this`canvasHeight, this`textWidth, this`textHeight
      ensures Valid()
      ensures var s := Measure(ratio, innerWidth, innerHeight);
        dpi == s.dpi && width == s.width && height == s.height &&
        canvasWidth == s.backingWidth && canvasHeight == s.backingHeight
    {
      var s := Measure(ratio, innerWidth, innerHeight);
      dpi := s.dpi;
      width := s.width;
      height := s.height;
      canvasWidth := s.backingWidth;
      canvasHeight := s.backingHeight;
      textWidth := s.backingWidth;
      textHeight := s.backingHeight;
    }

    /** The computing part of `renderFrame(ts)`: the start timestamp is taken from the
        first frame whose `startTs` is still 0, the colour phase is `elapsed * 0.05 % 1`,
        the two background bands are darkened copies of the colour and the threads get
        their jittered multipliers. */
    method RenderFrame(ts: real) returns (f: Frame)
      requires Valid()
      requires startTs != 0.0 ==> ts >= startTs
      modifies this`startTs
      ensures Valid()
      ensures startTs == if old(startTs) == 0.0 then ts else old(startTs)
      ensures f.elapsed == (ts - startTs) / 1000.0 && f.elapsed >= 0.0
      ensures f.colour == PaletteGradientAt(FracPart(f.elapsed * 0.05))
      ensures InGamut(f.colour) && InGamut(f.farBand) && InGamut(f.nearBand)
      ensures f.farBand == Darken(f.colour, 0.35) && f.nearBand == Darken(f.colour, 0.22)
      ensures |f.threads| == ThreadCount && forall i | 0 <= i < ThreadCount :: f.threads[i] == ThreadAt(i)
    {
      if startTs == 0.0 {
        startTs := ts;
      }
      var elapsed := (ts - startTs) / 1000.0;
      var colorPhase := FracPart(elapsed * 0.05);
      var col := PaletteGradientAt(colorPhase);
      var threads := Threads();
      f := Frame(elapsed, col, Darken(col, 0.35), Darken(col, 0.22), threads);
    }
  }
}
