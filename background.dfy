/** The background wave field of bg.js: its configuration, the pointer record
    that the event handlers and the per-frame smoothing update, and the per-column
    computation of `draw` with its interaction and twist gating and the boosts
    that widen and brighten a stroke. Canvas calls are not modelled; a frame
    returns the fill colour and the strokes it would hand to the canvas. */
module Background {
  import opened Numeric
  import opened Wrappers
  import opened Colour
  import opened Viewport

  // ---------------------------------------------------------------------------
  // Configuration (`config` of bg.js).

  datatype Layer = Layer(ampMul: real, speedMul: real, alpha: real)

  datatype Interaction = Interaction(
    enabled: bool, radius: real, yRadius: real, strength: real,
    alphaBoost: real, widthBoost: real, follow: real)

  datatype Twist = Twist(
    enabled: bool, x: real, y: real, radius: real, strength: real, dir: real,
    alphaBoost: real, widthBoost: real)

  /** `config`; an absent `interaction` or `twist` block is `None`. */
  datatype Config = Config(
    columns: nat, amplitude: real, wavelength: real, speed: real,
    layers: seq<Layer>, vignette: real, palette: seq<RGB>,
    interaction: Option<Interaction>, twist: Option<Twist>)

  /** The configuration bg.js ships with. */
  const Settings: Config := Config(
    22, 26.0, 0.010, 0.22,
    [Layer(1.0, 1.0, 0.30), Layer(0.6, 0.6, 0.20), Layer(1.4, 1.4, 0.12)],
    0.25,
    [RGB(70, 8, 14), RGB(110, 12, 20), RGB(150, 16, 26), RGB(70, 8, 14)],
    Some(Interaction(true, 160.0, 160.0, 0.08, 0.12, 0.8, 0.15)),
    Some(Twist(true, 0.5, 0.42, 220.0, 0.35, 1.0, 0.08, 0.4)))

  /** What `draw` relies on: a positive column count (it divides by it), a
      non-empty palette and a non-zero interaction radius (it divides by its
      square). */
  predicate ValidConfig(cfg: Config)
  {
    cfg.columns > 0 && |cfg.palette| > 0 &&
    (cfg.interaction.Some? ==> cfg.interaction.value.radius != 0.0)
  }

  /** The shipped configuration is valid, with every palette stop a colour and
      non-negative boosts. */
  lemma SettingsValid()
    ensures ValidConfig(Settings)
    ensures forall k | 0 <= k < |Settings.palette| :: InGamut(Settings.palette[k])
    ensures BoostsNonNegative(Settings)
  {
  }

  /** The boost settings are non-negative, so boosts only ever widen and brighten. */
  predicate BoostsNonNegative(cfg: Config)
  {
    (cfg.interaction.Some? ==>
      cfg.interaction.value.alphaBoost >= 0.0 && cfg.interaction.value.widthBoost >= 0.0 &&
      0.0 <= cfg.interaction.value.strength <= 1.0) &&
    (cfg.twist.Some? ==> cfg.twist.value.alphaBoost >= 0.0 && cfg.twist.value.widthBoost >= 0.0)
  }

  /** `paletteAt(t)` on the shipped palette stays in the palette's channel hull. */
  lemma SettingsPaletteHull(t: real)
    requires 0.0 <= t
    ensures var c := PaletteLookup(Settings.palette, t);
      InGamut(c) && 70 <= c.r <= 150 && 8 <= c.g <= 16 && 14 <= c.b <= 26
  {
    SettingsValid();
  }

  /** `paletteAt(k / 3)` is exactly stop `k` of the shipped palette. */
  lemma SettingsPaletteAtStops(k: nat)
    requires k < |Settings.palette|
    ensures PaletteLookup(Settings.palette, k as real / 3.0) == Settings.palette[k]
  {
    var p := Settings.palette;
    assert (|p| - 1) as real == 3.0;
    var t := k as real / 3.0;
    assert t == k as real / (|p| - 1) as real;
    PaletteLookupAtStop(p, k);
  }

  // ---------------------------------------------------------------------------
  // The pointer record (`mouse`) and its smoothing.

  /** `mouse`: the smoothed position `x, y`, the raw target `tx, ty` and whether
      the pointer is inside the window. */
  class Pointer {
    var x: real
    var y: real
    var tx: real
    var ty: real
    var inside: bool

    constructor ()
      ensures x == 0.0 && y == 0.0 && tx == 0.0 && ty == 0.0 && !inside
    {
      x, y, tx, ty, inside := 0.0, 0.0, 0.0, 0.0, false;
    }

    /** `onMove(e)`: records the target and marks the pointer inside; the smoothed
        position is left to the next frame. */
    method OnMove(clientX: real, clientY: real)
      modifies this`tx, this`ty, this`inside
      ensures tx == clientX && ty == clientY && inside
    {
      tx := clientX;
      ty := clientY;
      inside := true;
    }

    /** `onLeave()`. */
    method OnLeave()
      modifies this`inside
      ensures !inside
    {
      inside := false;
    }

    /** The `pointerenter` handler. */
    method OnEnter()
      modifies this`inside
      ensures inside
    {
      inside := true;
    }

    /** One smoothing step of `draw`: both coordinates move the fraction `k` of the
        way toward the target. */
    method Follow(k: real)
      modifies this`x, this`y
      ensures x == Lerp(old(x), tx, k) && y == Lerp(old(y), ty, k)
    {
      x := x + (tx - x) * k;
      y := y + (ty - y) * k;
    }
  }

  /** After one smoothing step the remaining gap is the fraction `1 - k` of the old
      one; for `k` in [0, 1] the new position lies between the old one and the target. */
  lemma SmoothingGap(x: real, target: real, k: real)
    ensures target - Lerp(x, target, k) == (1.0 - k) * (target - x)
    ensures 0.0 <= k <= 1.0 ==> Abs(target - Lerp(x, target, k)) == (1.0 - k) * Abs(target - x)
    ensures 0.0 <= k <= 1.0 ==> Min(x, target) <= Lerp(x, target, k) <= Max(x, target)
  {
    var d := target - x;
    assert target - Lerp(x, target, k) == (1.0 - k) * d;
    if 0.0 <= k <= 1.0 {
      if d >= 0.0 {
        ScaleUp(d, 1.0 - k);
        assert Weighted(d, 1.0 - k) == (1.0 - k) * d;
      } else {
        ScaleDown(d, 1.0 - k);
        assert Weighted(d, 1.0 - k) == (1.0 - k) * d;
        assert Abs(d) == -d;
        assert (1.0 - k) * Abs(d) == -((1.0 - k) * d);
      }
    }
  }

  /** `b` raised to the `n`. */
  function Power(b: real, n: nat): real
  {
    if n == 0 then 1.0 else b * Power(b, n - 1)
  }

  /** The position after `n` smoothing steps toward a fixed target, each the
      update `x += (tx - x) * follow` of `Follow`. */
  function Smoothed(x: real, target: real, k: real, n: nat): real
  {
    if n == 0 then x
    else
      var prev := Smoothed(x, target, k, n - 1);
      prev + (target - prev) * k
  }

  /** Each frame of `Smoothed` is one `Lerp` toward the target, the update
      `Pointer.Follow` makes. */
  lemma SmoothedIsLerp(x: real, target: real, k: real, n: nat)
    ensures Smoothed(x, target, k, n + 1) == Lerp(Smoothed(x, target, k, n), target, k)
  {
  }

  /** One smoothing step from a gap of `p * g` leaves the gap `((1 - k) * p) * g`. */
  lemma GapStep(prev: real, target: real, k: real, p: real, g: real)
    requires target - prev == p * g
    ensures target - (prev + (target - prev) * k) == ((1.0 - k) * p) * g
  {
    var d := target - prev;
    assert target - (prev + d * k) == (1.0 - k) * d;
    assert (1.0 - k) * d == (1.0 - k) * (p * g);
  }

  /** While the target stays put, `n` frames leave the gap `(1 - k)^n` of the
      initial one: the smoothed pointer converges geometrically. */
  lemma {:induction false} SmoothingConverges(x: real, target: real, k: real, n: nat)
    ensures target - Smoothed(x, target, k, n) == Power(1.0 - k, n) * (target - x)
  {
    if n > 0 {
      var prev := Smoothed(x, target, k, n - 1);
      SmoothingConverges(x, target, k, n - 1);
      GapStep(prev, target, k, Power(1.0 - k, n - 1), target - x);
    }
  }

  /** For `k` in [0, 1] the factor `(1 - k)^n` is in [0, 1]: smoothing never overshoots. */
  lemma {:induction false} PowerInUnit(b: real, n: nat)
    requires 0.0 <= b <= 1.0
    ensures 0.0 <= Power(b, n) <= 1.0
  {
    if n > 0 {
      PowerInUnit(b, n - 1);
      ScaleUp(Power(b, n - 1), b);
      assert Power(b, n) == Weighted(Power(b, n - 1), b);
    }
  }

  // ---------------------------------------------------------------------------
  // Gaussian falloffs.

  /** `-num / den` is never positive for a non-negative numerator and a positive
      denominator, so the host's `Math.exp` of it lies in (0, 1]. */
  lemma NonPositiveRatio(num: real, den: real)
    requires num >= 0.0 && den > 0.0
    ensures -num / den <= 0.0
  {
  }

  /** `Math.exp(-(d * d) / (2 * r * r))`: a Gaussian falloff in (0, 1]. */
  function Falloff(host: MathHost, d: real, r: real): (g: real)
    requires r != 0.0
    ensures HostLaws(host) ==> 0.0 < g <= 1.0
  {
    SquareSign(d);
    SquareSign(r);
    NonPositiveRatio(Sq(d), 2.0 * Sq(r));
    host.exp(-Sq(d) / (2.0 * Sq(r)))
  }

  // ---------------------------------------------------------------------------
  // The pointer stage of one column (bg.js lines 113-124).

  /** The pointer's effect on a column: the pulled centre, the offset `dx` from the
      column to the pointer, the horizontal falloff `gX`, the vertical radius `rY`
      and the pointer's boosts. */
  datatype Pull = Pull(xCenter: real, dx: real, gX: real, rY: real, alphaAdj: real, widthAdj: real)

  /** The pointer stage: with the interaction off or the pointer outside, nothing
      changes (`dx = 0, gX = 0, rY = 1`, no boosts). Otherwise the centre is pulled
      toward the pointer by `strength * gX`, never past it, and the boosts are the
      configured ones scaled by `gX`, which lies in (0, 1]. */
  function PointerPull(host: MathHost, cfg: Config, active: bool, mouseX: real, xCenter: real): (p: Pull)
    requires active ==> cfg.interaction.Some? && cfg.interaction.value.radius != 0.0
    ensures !active ==> p == Pull(xCenter, 0.0, 0.0, 1.0, 0.0, 0.0)
    ensures active ==> p.dx == mouseX - xCenter && p.rY != 0.0
    ensures active && HostLaws(host) ==> 0.0 < p.gX <= 1.0
    ensures active && HostLaws(host) && BoostsNonNegative(cfg) ==>
      Min(xCenter, mouseX) <= p.xCenter <= Max(xCenter, mouseX) &&
      0.0 <= p.alphaAdj <= cfg.interaction.value.alphaBoost &&
      0.0 <= p.widthAdj <= cfg.interaction.value.widthBoost
    ensures active && cfg.interaction.value.strength == 0.0 ==> p.xCenter == xCenter
    ensures active ==>
      var inter := cfg.interaction.value;
      p.gX == Falloff(host, mouseX - xCenter, inter.radius) &&
      p.xCenter == xCenter + p.dx * inter.strength * p.gX &&
      p.alphaAdj == p.gX * inter.alphaBoost && p.widthAdj == p.gX * inter.widthBoost &&
      p.rY == Or(inter.yRadius, inter.radius)
  {
    if !active then Pull(xCenter, 0.0, 0.0, 1.0, 0.0, 0.0)
    else
      var inter := cfg.interaction.value;
      var dx := mouseX - xCenter;
      var rX := inter.radius;
      var gX := Falloff(host, dx, rX);
      PullBounds(dx, inter.strength, gX);
      ScaleBounds(inter.alphaBoost, gX);
      assert gX * inter.alphaBoost == Weighted(inter.alphaBoost, gX);
      ScaleBounds(inter.widthBoost, gX);
      assert gX * inter.widthBoost == Weighted(inter.widthBoost, gX);
      Pull(xCenter + dx * inter.strength * gX, dx, gX, Or(inter.yRadius, rX),
           gX * inter.alphaBoost, gX * inter.widthBoost)
  }

  /** The arithmetic behind the pulled centre: a falloff and a strength in [0, 1]
      scale the offset toward zero. */
  lemma PullBounds(dx: real, strength: real, g: real)
    ensures 0.0 <= g <= 1.0 && 0.0 <= strength <= 1.0 ==>
      Min(0.0, dx) <= dx * strength * g <= Max(0.0, dx)
  {
    if 0.0 <= g <= 1.0 && 0.0 <= strength <= 1.0 {
      var w := Weighted(strength, g);
      ScaleBounds(strength, g);
      ScaleBounds(dx, w);
      assert dx * strength * g == Weighted(dx, w);
    }
  }

  /** The pointer term of one row (bg.js lines 141-146): skipped unless the column
      has a positive falloff and the pointer is active. */
  function PointerRow(host: MathHost, cfg: Config, p: Pull, active: bool, mouseY: real, x: real, y: real): (r: real)
    requires active ==> cfg.interaction.Some? && p.rY != 0.0
    ensures !(p.gX > 0.0 && active) ==> r == x
    ensures active && HostLaws(host) && BoostsNonNegative(cfg) && 0.0 <= p.gX <= 1.0 ==>
      Min(x, x + p.dx) <= r <= Max(x, x + p.dx)
    ensures active && cfg.interaction.value.strength == 0.0 ==> r == x
    ensures p.gX > 0.0 && active ==>
      r == x + p.dx * cfg.interaction.value.strength * (p.gX * Falloff(host, mouseY - y, p.rY))
  {
    if p.gX > 0.0 && active then
      var dy := mouseY - y;
      var gY := Falloff(host, dy, p.rY);
      RowPullBounds(p.dx, cfg.interaction.value.strength, p.gX, gY);
      assert cfg.interaction.value.strength == 0.0 ==> p.dx * cfg.interaction.value.strength * (p.gX * gY) == 0.0;
      x + p.dx * cfg.interaction.value.strength * (p.gX * gY)
    else x
  }

  /** The row pull `dx * strength * (gX * gY)` with both falloffs in [0, 1] moves
      a row by at most the column's offset to the pointer. */
  lemma RowPullBounds(dx: real, strength: real, gX: real, gY: real)
    ensures 0.0 <= gX <= 1.0 && 0.0 <= gY <= 1.0 && 0.0 <= strength <= 1.0 ==>
      Min(0.0, dx) <= dx * strength * (gX * gY) <= Max(0.0, dx)
  {
    if 0.0 <= gX <= 1.0 && 0.0 <= gY <= 1.0 && 0.0 <= strength <= 1.0 {
      var g := Weighted(gX, gY);
      ScaleBounds(gX, gY);
      var w := Weighted(strength, g);
      ScaleBounds(strength, g);
      ScaleBounds(dx, w);
      assert dx * strength * (gX * gY) == Weighted(dx, w);
    }
  }

  // ---------------------------------------------------------------------------
  // The twist stage (bg.js lines 130-135 and 147-158).

  /** `tw = config.twist || {}` resolved against the viewport: whether it is on,
      its centre, radius, spread, direction, strength and boosts. */
  datatype TwistParams = TwistParams(
    on: bool, cx: real, cy: real, tr: real, sigma2: real, dir: real,
    strength: real, alphaBoost: real, widthBoost: real)

  /** The twist settings of one column, with the source's `||` defaults. An absent
      block is off, has radius 0 and no strength or boosts. The spread `sigma2` is
      always positive and the direction never 0. */
  function ResolveTwist(tw: Option<Twist>, width: nat, height: nat): (p: TwistParams)
    ensures p.sigma2 > 0.0 && p.dir != 0.0
    ensures p.on <==> tw.Some? && tw.value.enabled
    ensures tw.Some? ==> (p.tr == tw.value.radius && p.strength == tw.value.strength &&
                          p.alphaBoost == tw.value.alphaBoost && p.widthBoost == tw.value.widthBoost)
    ensures tw.None? ==> p.tr == 0.0 && p.strength == 0.0 && p.alphaBoost == 0.0 && p.widthBoost == 0.0
    ensures tw.None? || tw.value.x == 0.0 ==> p.cx == width as real * 0.5
    ensures tw.None? || tw.value.y == 0.0 ==> p.cy == height as real * 0.42
    ensures tw.Some? && tw.value.x != 0.0 ==> p.cx == width as real * tw.value.x
    ensures tw.Some? && tw.value.y != 0.0 ==> p.cy == height as real * tw.value.y
    ensures tw.Some? && tw.value.dir != 0.0 ==> p.dir == tw.value.dir
    ensures tw.None? || tw.value.dir == 0.0 ==> p.dir == 1.0
    ensures p.sigma2 == Spread(p.tr)
  {
    match tw
    case None => TwistParams(false, width as real * 0.5, height as real * 0.42, 0.0, 1.0, 1.0, 0.0, 0.0, 0.0)
    case Some(t) =>
      TwistParams(t.enabled, width as real * Or(t.x, 0.5), height as real * Or(t.y, 0.42), t.radius,
                  Spread(t.radius), Or(t.dir, 1.0), t.strength, t.alphaBoost, t.widthBoost)
  }

  /** `tr > 0 ? (tr * 0.66) * (tr * 0.66) : 1`: always positive, so the twist's
      falloff never divides by zero. */
  function Spread(tr: real): (s: real)
    ensures s > 0.0
    ensures tr <= 0.0 ==> s == 1.0
    ensures tr > 0.0 ==> s == (tr * 0.66) * (tr * 0.66)
  {
    if tr > 0.0 then SquareSign(tr * 0.66); Sq(tr * 0.66) else 1.0
  }

  /** The twist stage of one row: the new `x` and the falloff `g` it contributes to
      `twistInfMax`, or 0 when it contributes nothing. A row is twisted only when
      the twist is on, its radius is positive and `g > 1e-3`; an untwisted row
      keeps its `x`. */
  function TwistRow(host: MathHost, tp: TwistParams, x: real, y: real): (r: (real, real))
    requires HostLaws(host) && tp.sigma2 > 0.0
    ensures !(tp.on && tp.tr > 0.0) ==> r == (x, 0.0)
    ensures r.1 == 0.0 || 0.001 < r.1 <= 1.0
    ensures r.1 == 0.0 ==> r.0 == x
    ensures tp.strength == 0.0 ==> r.0 == x
    ensures tp.on && tp.tr > 0.0 ==>
      var g := host.exp(-(Sq(x - tp.cx) + Sq(y - tp.cy)) / (2.0 * tp.sigma2));
      (g > 0.001 ==> r.1 == g) && (g <= 0.001 ==> r == (x, 0.0))
    ensures tp.on && tp.tr > 0.0 && tp.strength > 0.0 && tp.dir > 0.0 && r.1 > 0.0 ==>
      (y < tp.cy ==> r.0 > x) && (y > tp.cy ==> r.0 < x) && (y == tp.cy ==> r.0 == x)
  {
    if tp.on && tp.tr > 0.0 then
      var dxC := x - tp.cx;
      var dyC := y - tp.cy;
      var r2 := Sq(dxC) + Sq(dyC);
      SquareSign(dxC);
      SquareSign(dyC);
      NonPositiveRatio(r2, 2.0 * tp.sigma2);
      var g := host.exp(-r2 / (2.0 * tp.sigma2));
      if g > 0.001 then
        var r := host.sqrt(r2) + 0.0001;
        var tanX := (-dyC / r) * tp.dir;
        SwirlSign(dyC, r, tp.dir, tp.strength, g);
        (x + tp.strength * tanX * g, g)
      else (x, 0.0)
    else (x, 0.0)
  }

  /** The sign of the tangential bend `strength * ((-dyC / r) * dir) * g`: with a
      positive radius, direction, strength and falloff it bends opposite to `dyC`. */
  lemma SwirlSign(dyC: real, r: real, dir: real, strength: real, g: real)
    requires r > 0.0
    ensures dir > 0.0 && strength > 0.0 && g > 0.0 ==>
      (dyC < 0.0 ==> strength * ((-dyC / r) * dir) * g > 0.0) &&
      (dyC > 0.0 ==> strength * ((-dyC / r) * dir) * g < 0.0) &&
      (dyC == 0.0 ==> strength * ((-dyC / r) * dir) * g == 0.0)
  {
    if dir > 0.0 && strength > 0.0 && g > 0.0 && dyC != 0.0 {
      var u := -dyC / r;
      assert dyC < 0.0 ==> u > 0.0;
      assert dyC > 0.0 ==> u < 0.0;
      ProductPositive(strength, g);
      var sg := Weighted(strength, g);
      if dyC < 0.0 {
        ProductPositive(u, dir);
        ProductPositive(Weighted(u, dir), sg);
      } else {
        ProductPositive(-u, dir);
        ProductPositive(Weighted(-u, dir), sg);
      }
      assert strength * (u * dir) * g == Weighted(u * dir, sg);
    }
  }

  // ---------------------------------------------------------------------------
  // One column of one layer (bg.js lines 109-168).

  /** What a frame shares with all its columns: the elapsed seconds `t`, the CSS size,
      the column width `colW`, the base colour phase, whether the pointer acts
      (`interEnabled && mouse.inside`) and the smoothed pointer position. */
  datatype FrameState = FrameState(
    t: real, width: nat, height: nat, colW: real, basePhase: real,
    active: bool, mouseX: real, mouseY: real)

  /** `config.interaction && config.interaction.enabled && !isTouch`. */
  predicate InterEnabled(cfg: Config, isTouch: bool)
  {
    cfg.interaction.Some? && cfg.interaction.value.enabled && !isTouch
  }

  /** `(t * 0.03) % 1`: the frame's colour phase, in [0, 1) once time has started. */
  function BasePhase(t: real): (p: real)
    ensures t >= 0.0 ==> 0.0 <= p < 1.0
    ensures 0.0 <= t < 1.0 / 0.03 ==> p == t * 0.03
  {
    FracPart(t * 0.03)
  }

  /** `(basePhase + (i / columns) * (0.5 + 0.3 * l)) % 1`: the colour phase of column
      `i` of layer `l`, in [0, 1) whenever the base phase is. */
  function HueShift(basePhase: real, i: nat, columns: nat, l: nat): (h: real)
    requires columns > 0
    ensures basePhase >= 0.0 ==> 0.0 <= h < 1.0
    ensures i == 0 && 0.0 <= basePhase < 1.0 ==> h == basePhase
  {
    var share := i as real / columns as real;
    var spread := 0.5 + 0.3 * l as real;
    ProductSign(share, spread);
    FracPart(basePhase + share * spread)
  }

  /** The frame state `draw` derives from the elapsed time, the size and the pointer. */
  function FrameOf(cfg: Config, t: real, width: nat, height: nat, active: bool, mouseX: real, mouseY: real): (f: FrameState)
    requires cfg.columns > 0
    ensures t >= 0.0 ==> 0.0 <= f.basePhase < 1.0
  {
    FrameState(t, width, height, width as real / cfg.columns as real, BasePhase(t), active, mouseX, mouseY)
  }

  /** The resting centre of column `i` of layer `l`: the middle of its slot, swayed
      by the host sine by at most `6 * (l + 1)`. */
  function RestingCentre(host: MathHost, t: real, colW: real, i: nat, l: nat): (x: real)
    ensures HostLaws(host) ==>
      Abs(x - (i as real * colW + colW * 0.5)) <= 6.0 * (l + 1) as real
  {
    var s := host.sin((t + i as real) * 0.2 + l as real);
    var a := 6.0 * (l + 1) as real;
    assert HostLaws(host) ==> -Abs(a) <= s * a <= Abs(a) by {
      if HostLaws(host) { SineTerm(s, a); }
    }
    i as real * colW + colW * 0.5 + s * a
  }

  /** The row phase `t * speed * speedMul + i * 0.7 + l * 0.6`. */
  function RowPhase(cfg: Config, L: Layer, t: real, i: nat, l: nat): real
  {
    t * cfg.speed * L.speedMul + i as real * 0.7 + l as real * 0.6
  }

  /** What every row of a column shares: the pointer stage, the row phase, the
      stroke colour and the resolved twist. */
  datatype Column = Column(pull: Pull, phase: real, colour: RGB, twist: TwistParams)

  /** The set-up of column `i` of layer `l` before its rows. The twist's spread is
      positive, the pointer's vertical radius is non-zero when the pointer acts, and
      when it does not act the column sits at its resting centre with no boosts. */
  function ColumnAt(host: MathHost, cfg: Config, f: FrameState, l: nat, i: nat): (c: Column)
    requires ValidConfig(cfg) && l < |cfg.layers| && f.basePhase >= 0.0
    requires f.active ==> cfg.interaction.Some?
    ensures c.twist.sigma2 > 0.0
    ensures f.active ==> c.pull.rY != 0.0
    ensures !f.active ==> c.pull == Pull(RestingCentre(host, f.t, f.colW, i, l), 0.0, 0.0, 1.0, 0.0, 0.0)
    ensures (forall k | 0 <= k < |cfg.palette| :: InGamut(cfg.palette[k])) ==> InGamut(c.colour)
  {
    var L := cfg.layers[l];
    var pull := PointerPull(host, cfg, f.active, f.mouseX, RestingCentre(host, f.t, f.colW, i, l));
    var colour := PaletteLookup(cfg.palette, HueShift(f.basePhase, i, cfg.columns, l));
    Column(pull, RowPhase(cfg, L, f.t, i, l), colour, ResolveTwist(cfg.twist, f.width, f.height))
  }

  /** The swayed `x` of a row before the pointer and the twist act on it. */
  function SwayX(host: MathHost, cfg: Config, L: Layer, xCenter: real, phase: real, y: real): real
  {
    xCenter
      + host.sin(y * cfg.wavelength + phase) * (cfg.amplitude * L.ampMul)
      + host.sin(y * cfg.wavelength * 0.45 + phase * 1.6) * (cfg.amplitude * 0.35 * L.ampMul)
  }

  /** One point of a stroke and the twist falloff it contributes (0 for none). */
  datatype RowSample = RowSample(x: real, y: real, g: real)

  /** Row `j` of a column, at `y = -20 + 8 * j`: sway, then the pointer term, then the
      twist. A row without a twist contribution keeps the pointer-stage `x`. */
  function RowAt(host: MathHost, cfg: Config, L: Layer, c: Column, f: FrameState, j: nat): (r: RowSample)
    requires HostLaws(host) && c.twist.sigma2 > 0.0
    requires f.active ==> cfg.interaction.Some? && c.pull.rY != 0.0
    ensures r.y == (-20 + 8 * j) as real
    ensures r.g == 0.0 || 0.001 < r.g <= 1.0
    ensures !(c.twist.on && c.twist.tr > 0.0) ==> r.g == 0.0
    ensures r.g == 0.0 ==>
      r.x == PointerRow(host, cfg, c.pull, f.active, f.mouseY, SwayX(host, cfg, L, c.pull.xCenter, c.phase, r.y), r.y)
  {
    var y := (-20 + 8 * j) as real;
    var x := SwayX(host, cfg, L, c.pull.xCenter, c.phase, y);
    var x1 := PointerRow(host, cfg, c.pull, f.active, f.mouseY, x, y);
    var tw := TwistRow(host, c.twist, x1, y);
    RowSample(tw.0, y, tw.1)
  }

  /** `y` runs from -20 in steps of 8 while `y <= height + 20`. */
  function RowCount(height: nat): (n: nat)
    ensures -20 + 8 * (n - 1) <= height + 20 < -20 + 8 * n
  {
    (height + 40) / 8 + 1
  }

  /** The first `n` rows of a column. */
  function ColumnRows(host: MathHost, cfg: Config, L: Layer, c: Column, f: FrameState, n: nat): (rows: seq<RowSample>)
    requires HostLaws(host) && c.twist.sigma2 > 0.0
    requires f.active ==> cfg.interaction.Some? && c.pull.rY != 0.0
    ensures |rows| == n
    ensures forall j | 0 <= j < n :: rows[j] == RowAt(host, cfg, L, c, f, j)
  {
    if n == 0 then [] else ColumnRows(host, cfg, L, c, f, n - 1) + [RowAt(host, cfg, L, c, f, n - 1)]
  }

  /** `twistInfMax` after the rows: it starts at 0 and is raised to every larger
      contribution. */
  function TwistMax(rows: seq<RowSample>): real
  {
    if |rows| == 0 then 0.0
    else
      var m := TwistMax(rows[..|rows| - 1]);
      if rows[|rows| - 1].g > m then rows[|rows| - 1].g else m
  }

  /** `twistInfMax` is the maximum of 0 and every row's contribution: it is at least
      each of them, never negative, and either 0 or one of them. */
  lemma {:induction false} TwistMaxIsMaximum(rows: seq<RowSample>)
    ensures TwistMax(rows) >= 0.0
    ensures forall j | 0 <= j < |rows| :: rows[j].g <= TwistMax(rows)
    ensures TwistMax(rows) == 0.0 || exists j | 0 <= j < |rows| :: rows[j].g == TwistMax(rows)
  {
    if |rows| > 0 {
      var init := rows[..|rows| - 1];
      TwistMaxIsMaximum(init);
      assert forall j | 0 <= j < |init| :: rows[j] == init[j];
      if TwistMax(init) != 0.0 && TwistMax(rows) == TwistMax(init) {
        var j :| 0 <= j < |init| && init[j].g == TwistMax(init);
        assert rows[j].g == TwistMax(rows);
      }
    }
  }

  /** The twist boosts a stroke exactly when some row of it was twisted. */
  lemma TwistBoostIffTwisted(rows: seq<RowSample>)
    requires forall j | 0 <= j < |rows| :: rows[j].g == 0.0 || rows[j].g > 0.001
    ensures TwistMax(rows) > 0.0 <==> exists j | 0 <= j < |rows| :: rows[j].g > 0.001
  {
    TwistMaxIsMaximum(rows);
  }

  /** What the canvas is given for one column: the path, the colour, the alpha
      `L.alpha + alphaAdj` and the line width `max(1, colW * 0.05) + widthAdj`. */
  datatype Stroke = Stroke(path: seq<RowSample>, colour: RGB, alpha: real, lineWidth: real)

  /** The stroke of a column after its rows. The twist boosts, scaled by
      `twistInfMax`, are added onto the pointer's only when `twistInfMax > 0`; with
      non-negative boosts the line is at least 1 wide and no fainter than the layer. */
  function StrokeFor(L: Layer, c: Column, colW: real, rows: seq<RowSample>, twistInfMax: real): (s: Stroke)
    ensures s.path == rows && s.colour == c.colour
    ensures twistInfMax <= 0.0 ==>
      s.alpha == L.alpha + c.pull.alphaAdj && s.lineWidth == Max(1.0, colW * 0.05) + c.pull.widthAdj
    ensures twistInfMax > 0.0 ==>
      s.alpha == L.alpha + c.pull.alphaAdj + twistInfMax * c.twist.alphaBoost &&
      s.lineWidth == Max(1.0, colW * 0.05) + c.pull.widthAdj + twistInfMax * c.twist.widthBoost
    ensures twistInfMax > 0.0 && c.twist.alphaBoost > 0.0 ==> s.alpha > L.alpha + c.pull.alphaAdj
    ensures twistInfMax > 0.0 && c.twist.widthBoost > 0.0 ==> s.lineWidth > Max(1.0, colW * 0.05) + c.pull.widthAdj
    ensures twistInfMax >= 0.0 && c.pull.widthAdj >= 0.0 && c.twist.widthBoost >= 0.0 ==>
      s.lineWidth >= Max(1.0, colW * 0.05) >= 1.0
    ensures twistInfMax >= 0.0 && c.pull.alphaAdj >= 0.0 && c.twist.alphaBoost >= 0.0 ==>
      s.alpha >= L.alpha
  {
    ProductSign(twistInfMax, c.twist.alphaBoost);
    ProductSign(twistInfMax, c.twist.widthBoost);
    var alphaAdj := if twistInfMax > 0.0 then c.pull.alphaAdj + twistInfMax * c.twist.alphaBoost else c.pull.alphaAdj;
    var widthAdj := if twistInfMax > 0.0 then c.pull.widthAdj + twistInfMax * c.twist.widthBoost else c.pull.widthAdj;
    Stroke(rows, c.colour, L.alpha + alphaAdj, Max(1.0, colW * 0.05) + widthAdj)
  }

  /** The stroke `draw` hands to the canvas for column `i` of layer `l`. */
  function ColumnStroke(host: MathHost, cfg: Config, f: FrameState, l: nat, i: nat): (s: Stroke)
    requires HostLaws(host) && ValidConfig(cfg) && l < |cfg.layers| && f.basePhase >= 0.0
    requires f.active ==> cfg.interaction.Some?
    ensures |s.path| == RowCount(f.height)
  {
    var L := cfg.layers[l];
    var c := ColumnAt(host, cfg, f, l, i);
    var rows := ColumnRows(host, cfg, L, c, f, RowCount(f.height));
    StrokeFor(L, c, f.colW, rows, TwistMax(rows))
  }

  /** The rows loop of a column (bg.js lines 136-161): `y` steps by 8 from -20 while
      `y <= height + 20`, each row is swayed, pulled and twisted, and
      `twistInfMax` keeps the largest twist falloff (an untwisted row contributes 0,
      which never raises it). */
  method TraceColumn(host: MathHost, cfg: Config, L: Layer, c: Column, f: FrameState)
    returns (rows: seq<RowSample>, twistInfMax: real)
    requires HostLaws(host) && c.twist.sigma2 > 0.0
    requires f.active ==> cfg.interaction.Some? && c.pull.rY != 0.0
    ensures rows == ColumnRows(host, cfg, L, c, f, RowCount(f.height))
    ensures twistInfMax == TwistMax(rows)
  {
    rows := [];
    twistInfMax := 0.0;
    var y := -20;
    while y <= f.height + 20
      invariant y == -20 + 8 * |rows|
      invariant |rows| <= RowCount(f.height)
      invariant rows == ColumnRows(host, cfg, L, c, f, |rows|)
      invariant twistInfMax == TwistMax(rows)
      decreases f.height + 20 - y
    {
      var r := TraceRow(host, cfg, L, c, f, |rows|);
      if r.g > twistInfMax {
        twistInfMax := r.g;
      }
      assert ColumnRows(host, cfg, L, c, f, |rows| + 1) == rows + [r];
      rows := rows + [r];
      y := y + 8;
    }
  }

  /** The body of the rows loop for row `j` (bg.js lines 138-158): `x` is swayed,
      then pulled toward the pointer, then twisted; the falloff it contributes to
      `twistInfMax` is returned with it. */
  method TraceRow(host: MathHost, cfg: Config, L: Layer, c: Column, f: FrameState, j: nat) returns (r: RowSample)
    requires HostLaws(host) && c.twist.sigma2 > 0.0
    requires f.active ==> cfg.interaction.Some? && c.pull.rY != 0.0
    ensures r == RowAt(host, cfg, L, c, f, j)
  {
    var y := (-20 + 8 * j) as real;
    var x := SwayX(host, cfg, L, c.pull.xCenter, c.phase, y);
    x := PointerRow(host, cfg, c.pull, f.active, f.mouseY, x, y);
    var twisted := TwistRow(host, c.twist, x, y);
    x := twisted.0;
    var g := twisted.1;
    r := RowSample(x, y, g);
  }

  /** One column of one layer (bg.js lines 112-168): the pointer stage, the rows, and
      then the twist boosts added onto the pointer's when `twistInfMax > 0`. */
  method DrawColumn(host: MathHost, cfg: Config, f: FrameState, l: nat, i: nat) returns (s: Stroke)
    requires HostLaws(host) && ValidConfig(cfg) && l < |cfg.layers| && f.basePhase >= 0.0
    requires f.active ==> cfg.interaction.Some?
    ensures s == ColumnStroke(host, cfg, f, l, i)
  {
    var L := cfg.layers[l];
    var c := ColumnAt(host, cfg, f, l, i);
    var rows, twistInfMax := TraceColumn(host, cfg, L, c, f);
    s := FinishStroke(L, c, f.colW, rows, twistInfMax);
  }

  /** The end of a column (bg.js lines 162-167): the twist boosts scaled by
      `twistInfMax` are added onto the pointer's when it is positive. */
  method FinishStroke(L: Layer, c: Column, colW: real, rows: seq<RowSample>, twistInfMax: real) returns (s: Stroke)
    ensures s == StrokeFor(L, c, colW, rows, twistInfMax)
  {
    var alphaAdj, widthAdj := c.pull.alphaAdj, c.pull.widthAdj;
    if twistInfMax > 0.0 {
      alphaAdj := alphaAdj + twistInfMax * c.twist.alphaBoost;
      widthAdj := widthAdj + twistInfMax * c.twist.widthBoost;
    }
    s := Stroke(rows, c.colour, L.alpha + alphaAdj, Max(1.0, colW * 0.05) + widthAdj);
  }

  /** The first `n` strokes of layer `l`, stroke `i` being column `i`'s. */
  function LayerStrokes(host: MathHost, cfg: Config, f: FrameState, l: nat, n: nat): (r: seq<Stroke>)
    requires HostLaws(host) && ValidConfig(cfg) && l < |cfg.layers| && f.basePhase >= 0.0
    requires f.active ==> cfg.interaction.Some?
    ensures |r| == n
  {
    if n == 0 then [] else LayerStrokes(host, cfg, f, l, n - 1) + [ColumnStroke(host, cfg, f, l, n - 1)]
  }

  /** The strokes of the first `n` layers in drawing order, each with all its columns. */
  function FrameStrokes(host: MathHost, cfg: Config, f: FrameState, n: nat): (r: seq<seq<Stroke>>)
    requires HostLaws(host) && ValidConfig(cfg) && n <= |cfg.layers| && f.basePhase >= 0.0
    requires f.active ==> cfg.interaction.Some?
    ensures |r| == n
  {
    if n == 0 then [] else FrameStrokes(host, cfg, f, n - 1) + [LayerStrokes(host, cfg, f, n - 1, cfg.columns)]
  }

  /** The inner loop of `draw` for layer `l`: its columns, left to right. */
  method DrawLayer(host: MathHost, cfg: Config, f: FrameState, l: nat) returns (layer: seq<Stroke>)
    requires HostLaws(host) && ValidConfig(cfg) && l < |cfg.layers| && f.basePhase >= 0.0
    requires f.active ==> cfg.interaction.Some?
    ensures layer == LayerStrokes(host, cfg, f, l, cfg.columns)
  {
    layer := [];
    var i := 0;
    while i < cfg.columns
      invariant 0 <= i <= cfg.columns
      invariant layer == LayerStrokes(host, cfg, f, l, i)
    {
      var s := DrawColumn(host, cfg, f, l, i);
      layer := layer + [s];
      i := i + 1;
    }
  }

  /** The two nested loops of `draw` (bg.js lines 109-170): every column of every
      layer, in order. */
  method DrawLayers(host: MathHost, cfg: Config, f: FrameState) returns (strokes: seq<seq<Stroke>>)
    requires HostLaws(host) && ValidConfig(cfg) && f.basePhase >= 0.0
    requires f.active ==> cfg.interaction.Some?
    ensures strokes == FrameStrokes(host, cfg, f, |cfg.layers|)
  {
    strokes := [];
    var l := 0;
    while l < |cfg.layers|
      invariant 0 <= l <= |cfg.layers|
      invariant strokes == FrameStrokes(host, cfg, f, l)
    {
      var layer := DrawLayer(host, cfg, f, l);
      strokes := strokes + [layer];
      l := l + 1;
    }
  }

  // ---------------------------------------------------------------------------
  // What a column's stroke promises.

  /** With non-negative boosts every stroke is at least `max(1, colW * 0.05)` wide,
      hence at least 1, and no fainter than its layer. */
  lemma ColumnStrokeBounds(host: MathHost, cfg: Config, f: FrameState, l: nat, i: nat)
    requires HostLaws(host) && ValidConfig(cfg) && l < |cfg.layers| && f.basePhase >= 0.0
    requires f.active ==> cfg.interaction.Some?
    requires BoostsNonNegative(cfg)
    ensures ColumnStroke(host, cfg, f, l, i).lineWidth >= Max(1.0, f.colW * 0.05) >= 1.0
    ensures ColumnStroke(host, cfg, f, l, i).alpha >= cfg.layers[l].alpha
  {
    var c := ColumnAt(host, cfg, f, l, i);
    var rows := ColumnRows(host, cfg, cfg.layers[l], c, f, RowCount(f.height));
    TwistMaxIsMaximum(rows);
    assert c.pull.alphaAdj >= 0.0 && c.pull.widthAdj >= 0.0;
  }

  /** Rows do not depend on the pointer position while the pointer does not act. */
  lemma {:induction false} RowsIgnorePointer(host: MathHost, cfg: Config, L: Layer, c: Column, f: FrameState, mouseX: real, mouseY: real, n: nat)
    requires HostLaws(host) && c.twist.sigma2 > 0.0 && !f.active
    ensures ColumnRows(host, cfg, L, c, f, n) == ColumnRows(host, cfg, L, c, f.(mouseX := mouseX, mouseY := mouseY), n)
  {
    if n > 0 {
      RowsIgnorePointer(host, cfg, L, c, f, mouseX, mouseY, n - 1);
    }
  }

  /** With the interaction off (a coarse pointer, or no `interaction` block) or the
      pointer outside the window, no column depends on where the pointer is: the
      centre is not pulled, there are no pointer boosts and the row term is skipped. */
  lemma InactivePointerIgnored(host: MathHost, cfg: Config, f: FrameState, l: nat, i: nat, mouseX: real, mouseY: real)
    requires HostLaws(host) && ValidConfig(cfg) && l < |cfg.layers| && f.basePhase >= 0.0
    requires !f.active
    ensures var c := ColumnAt(host, cfg, f, l, i);
      c.pull.xCenter == RestingCentre(host, f.t, f.colW, i, l) &&
      c.pull.gX == 0.0 && c.pull.alphaAdj == 0.0 && c.pull.widthAdj == 0.0
    ensures ColumnStroke(host, cfg, f, l, i) == ColumnStroke(host, cfg, f.(mouseX := mouseX, mouseY := mouseY), l, i)
  {
    var g := f.(mouseX := mouseX, mouseY := mouseY);
    var c := ColumnAt(host, cfg, f, l, i);
    assert ColumnAt(host, cfg, g, l, i) == c;
    RowsIgnorePointer(host, cfg, cfg.layers[l], c, f, mouseX, mouseY, RowCount(f.height));
  }

  /** Without an enabled twist of positive radius no row is twisted and the stroke
      carries only the pointer's boosts. */
  lemma TwistOffLeavesPointerStroke(host: MathHost, cfg: Config, f: FrameState, l: nat, i: nat)
    requires HostLaws(host) && ValidConfig(cfg) && l < |cfg.layers| && f.basePhase >= 0.0
    requires f.active ==> cfg.interaction.Some?
    requires cfg.twist.None? || !cfg.twist.value.enabled || cfg.twist.value.radius <= 0.0
    ensures var c := ColumnAt(host, cfg, f, l, i);
      var s := ColumnStroke(host, cfg, f, l, i);
      (forall j | 0 <= j < |s.path| :: s.path[j].g == 0.0) &&
      s.alpha == cfg.layers[l].alpha + c.pull.alphaAdj &&
      s.lineWidth == Max(1.0, f.colW * 0.05) + c.pull.widthAdj
  {
    var c := ColumnAt(host, cfg, f, l, i);
    var rows := ColumnRows(host, cfg, cfg.layers[l], c, f, RowCount(f.height));
    assert c.twist == ResolveTwist(cfg.twist, f.width, f.height);
    assert !(c.twist.on && c.twist.tr > 0.0);
    assert ColumnStroke(host, cfg, f, l, i) == StrokeFor(cfg.layers[l], c, f.colW, rows, TwistMax(rows));
    assert forall j | 0 <= j < |rows| :: rows[j].g == 0.0 by {
      forall j | 0 <= j < |rows|
        ensures rows[j].g == 0.0
      {
        assert rows[j] == RowAt(host, cfg, cfg.layers[l], c, f, j);
      }
    }
    TwistMaxIsMaximum(rows);
    assert TwistMax(rows) == 0.0;
  }

  /** A column's stroke takes the twist boosts exactly when one of its rows was
      twisted, that is, contributed a falloff above 0.001. */
  lemma TwistBoostIffColumnTwisted(host: MathHost, cfg: Config, f: FrameState, l: nat, i: nat)
    requires HostLaws(host) && ValidConfig(cfg) && l < |cfg.layers| && f.basePhase >= 0.0
    requires f.active ==> cfg.interaction.Some?
    ensures var s := ColumnStroke(host, cfg, f, l, i);
      var rows := s.path;
      (TwistMax(rows) > 0.0 <==> exists j | 0 <= j < |rows| :: rows[j].g > 0.001)
  {
    var c := ColumnAt(host, cfg, f, l, i);
    var rows := ColumnRows(host, cfg, cfg.layers[l], c, f, RowCount(f.height));
    assert ColumnStroke(host, cfg, f, l, i).path == rows;
    assert forall j | 0 <= j < |rows| :: rows[j].g == 0.0 || rows[j].g > 0.001 by {
      forall j | 0 <= j < |rows|
        ensures rows[j].g == 0.0 || rows[j].g > 0.001
      {
        assert rows[j] == RowAt(host, cfg, cfg.layers[l], c, f, j);
      }
    }
    TwistBoostIffTwisted(rows);
  }

  // ---------------------------------------------------------------------------
  // The canvas and its frame.

  /** The script's state: the configuration, the pointer record, the clamped ratio,
      the CSS size, the bitmap size and the first frame's timestamp `start`. */
  class BackgroundCanvas {
    const cfg: Config
    const mouse: Pointer
    var dpi: real
    var width: nat
    var height: nat
    var canvasWidth: int
    var canvasHeight: int
    var start: real

    ghost predicate Valid()
      reads this
    {
      ValidConfig(cfg) && MinDpi <= dpi <= MaxDpi &&
      canvasWidth == BackingSize(width, dpi) && canvasHeight == BackingSize(height, dpi)
    }

    /** Start-up: the initial ratio, zero sizes, the pointer at the origin and
        outside, then the first `resize()`. */
    constructor (cfg: Config, ratio: Option<real>, innerWidth: real, innerHeight: real)
      requires ValidConfig(cfg) && innerWidth >= 0.0 && innerHeight >= 0.0
      ensures Valid() && this.cfg == cfg && fresh(mouse)
      ensures var s := Measure(ratio, innerWidth, innerHeight);
        dpi == s.dpi && width == s.width && height == s.height &&
        canvasWidth == s.backingWidth && canvasHeight == s.backingHeight
      ensures start == 0.0
      ensures mouse.x == 0.0 && mouse.y == 0.0 && mouse.tx == 0.0 && mouse.ty == 0.0 && !mouse.inside
    {
      this.cfg := cfg;
      mouse := new Pointer();
      dpi := ClampDpi(ratio);
      width, height, canvasWidth, canvasHeight := 0, 0, 0, 0;
      start := 0.0;
      new;
      Resize(ratio, innerWidth, innerHeight);
    }

    /** `resize()`. */
    method Resize(ratio: Option<real>, innerWidth: real, innerHeight: real)
      requires ValidConfig(cfg) && innerWidth >= 0.0 && innerHeight >= 0.0
      modifies this`dpi, this`width, this`height, this`canvasWidth, this`canvasHeight
      ensures Valid()
      ensures var s := Measure(ratio, innerWidth, innerHeight);
        dpi == s.dpi && width == s.width && height == s.height &&
        canvasWidth == s.backingWidth && canvasHeight == s.backingHeight
    {
      var s := Measure(ratio, innerWidth, innerHeight);
      dpi := s.dpi;
      width := s.width;
      height := s.height;
      canvasWidth := s.backingWidth;
      canvasHeight := s.backingHeight;
    }

    /** The start of `draw(ts)`: `start` is taken from the first frame that finds it
        0, the pointer is smoothed when the interaction is on, and the frame state is
        derived from the elapsed time, the size and the smoothed pointer. */
    method BeginFrame(ts: real, isTouch: bool) returns (f: FrameState)
      requires Valid()
      requires start != 0.0 ==> ts >= start
      modifies this`start, mouse`x, mouse`y
      ensures Valid()
      ensures start == if old(start) == 0.0 then ts else old(start)
      ensures InterEnabled(cfg, isTouch) ==>
        mouse.x == Lerp(old(mouse.x), mouse.tx, cfg.interaction.value.follow) &&
        mouse.y == Lerp(old(mouse.y), mouse.ty, cfg.interaction.value.follow)
      ensures !InterEnabled(cfg, isTouch) ==> mouse.x == old(mouse.x) && mouse.y == old(mouse.y)
      ensures f == FrameOf(cfg, (ts - start) / 1000.0, width, height,
                           InterEnabled(cfg, isTouch) && mouse.inside, mouse.x, mouse.y)
      ensures f.t >= 0.0 && 0.0 <= f.basePhase < 1.0
      ensures f.active ==> cfg.interaction.Some?
    {
      if start == 0.0 {
        start := ts;
      }
      var t := (ts - start) / 1000.0;
      var interEnabled := InterEnabled(cfg, isTouch);
      if interEnabled {
        mouse.Follow(cfg.interaction.value.follow);
      }
      f := FrameOf(cfg, t, width, height, interEnabled && mouse.inside, mouse.x, mouse.y);
    }

    /** The computing part of `draw(ts)`: after `BeginFrame` the fill colour is
        `paletteAt(basePhase)` and every column of every layer gets the stroke
        `ColumnStroke` describes, in drawing order. */
    method Draw(host: MathHost, ts: real, isTouch: bool) returns (f: FrameState, fill: RGB, strokes: seq<seq<Stroke>>)
      requires Valid() && HostLaws(host)
      requires start != 0.0 ==> ts >= start
      modifies this`start, mouse`x, mouse`y
      ensures Valid()
      ensures start == if old(start) == 0.0 then ts else old(start)
      ensures InterEnabled(cfg, isTouch) ==>
        mouse.x == Lerp(old(mouse.x), mouse.tx, cfg.interaction.value.follow) &&
        mouse.y == Lerp(old(mouse.y), mouse.ty, cfg.interaction.value.follow)
      ensures !InterEnabled(cfg, isTouch) ==> mouse.x == old(mouse.x) && mouse.y == old(mouse.y)
      ensures f.t == (ts - start) / 1000.0 && f.width == width && f.height == height
      ensures f.active == (InterEnabled(cfg, isTouch) && mouse.inside) && f.mouseX == mouse.x && f.mouseY == mouse.y
      ensures f.colW == f.width as real / cfg.columns as real && f.basePhase == BasePhase(f.t)
      ensures fill == PaletteLookup(cfg.palette, f.basePhase)
      ensures strokes == FrameStrokes(host, cfg, f, |cfg.layers|)
    {
      f := BeginFrame(ts, isTouch);
      fill := PaletteLookup(cfg.palette, f.basePhase);
      assert f.t == (ts - start) / 1000.0 && f.width == width && f.height == height;
      assert f.colW == f.width as real / cfg.columns as real && f.basePhase == BasePhase(f.t);
      strokes := DrawLayers(host, cfg, f);
    }
  }
}
