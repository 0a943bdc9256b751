# Saint landing page: wave background, column background and link transitions

This project models the computing core of three browser scripts of the Saint
landing page and proves properties of the model in Dafny.

- **script.js** draws a layered sinusoidal wave. The model covers its colour
  helpers (`lerp`, `lerpColor`, `paletteGradientAt`, `mixWithWhite`, `darken`,
  `clamp`), canvas sizing (`resizeCanvas`), the crest function `getWaveY`, the
  glass band of `drawGlassBand` (clamped ribbon points, and the min/max scan
  that starts from `Infinity`), the specular gate of `drawSpecularHighlight`,
  the jittered thread multipliers, and the clock and colour phase of
  `renderFrame`.
- **bg.js** draws 22 columns in each of 3 layers. The model covers:
  - the configuration and `paletteAt`;
  - `resize`;
  - the `mouse` record with its `pointermove`, `pointerenter` and
    `pointerleave` handlers, and the per-frame smoothing;
  - the whole column computation of `draw`: the swayed centre, the Gaussian
    pull toward the pointer, the row loop with the pointer term and the
    rotational twist, and the boosts (`twistInfMax`) added to a stroke's alpha
    and width.
- **ui.js** contributes `isInternalLink` and the capturing click handler. The
  handler decides whether navigation is replaced by the overlay and a 260 ms
  delayed `location.assign`.

## Modules

- `Numeric` (numeric.dfy) holds JavaScript number helpers over exact reals:
  - `Math.round`, `Math.trunc`, `x % 1`, `v || d`, `Math.min`/`Math.max` and `clamp`;
  - numbers that may be infinite;
  - `MathHost`: the browser's `Math.sin`, `Math.exp`, `Math.sqrt` and
    `Math.hypot` as function parameters, about which `HostLaws` states only
    their ranges.
- `Colour` (colour.dfy) holds the colour arithmetic and the cyclic palette
  lookup. It is written once, because script.js and bg.js carry identical
  copies of `lerp`, `lerpColor` and the lookup.
- `Viewport` (viewport.dfy) holds the device-pixel-ratio clamp and the bitmap
  sizing shared by both `resize` functions.
- `WaveScene` (wave_scene.dfy) holds the script.js model. Its state is the
  class `WaveCanvas`.
- `Background` (background.dfy) holds the bg.js model:
  - the class `Pointer` for `mouse`;
  - the class `BackgroundCanvas` for the module state;
  - the column computation as specification functions, `ColumnAt`, `RowAt`
    and `StrokeFor`, together with the imperative loops of `draw`:
    `TraceColumn`, `DrawColumn`, `DrawLayer` and `DrawLayers`, each proved
    equal to those functions.
- `Links` (links.dfy) holds the ui.js model.
- `Wrappers` (wrappers.dfy) holds `Option`.

## Notes on the source

- `renderFrame` in script.js never calls `drawGlassBand`,
  `drawSpecularHighlight`, `drawFoam` or `drawWavePath`; they are defined
  but unused. The glass band and the specular highlight are still modelled,
  as the operations they are.
- One might expect that with the pointer outside the window nothing bends.
  The code disagrees, and the model follows the code: in bg.js the
  twist field (lines 147-158) depends only on the viewport. It bends and
  boosts the columns near its centre whether or not the pointer is inside.
  Only the pointer pull and the pointer boosts (lines 116-124, 141-146) are
  gated by `interEnabled && mouse.inside`. `InactivePointerIgnored` proves
  that the pointer position then has no effect at all.
- `if (!start) start = ts` (bg.js:91, script.js:333) re-arms on any frame
  that finds the start at 0. A first timestamp of exactly 0 therefore leaves
  the start unset until a later frame. The models keep this.
- With the glass band enabled there are always at least two samples. The
  `isFinite(minY)` guard of `drawGlassBand` (script.js:208) can therefore
  never fire; `DrawGlassBand` proves that a band is produced exactly when the
  band is enabled.
- `tw.strength || 0`, `tw.alphaBoost || 0` and `tw.widthBoost || 0` equal the
  value itself for every number, 0 included, so `ResolveTwist` uses the value
  directly.
- In bg.js every `resize` event requests another `draw`, and each `draw` then
  re-requests itself (lines 180, 184-188). `cancelAnimationFrame(raf)` only
  cancels the request made by the previous resize, so frame loops accumulate
  over resizes. Scheduling is not modelled (see below), so this stays a remark.

## Model

| member | source | states |
|---|---|---|
| Numeric.Min | script.js:102 | `Math.min` is a lower bound of both arguments and equals one of them |
| Numeric.Max | script.js:102 | `Math.max` is an upper bound of both arguments and equals one of them |
| Numeric.Abs | script.js:298 | `Math.abs` is non-negative and is `x` or `-x` |
| Numeric.Clamp | script.js:102 | `clamp(v, lo, hi)` lies in `[lo, hi]`, is `v` inside the interval, `lo` below it and `hi` above it |
| Numeric.Round | script.js:87-89 | `Math.round(x)` is within half a unit of `x`, with halves rounded up |
| Numeric.Trunc | bg.js:96 | truncation toward zero: the integer part of `x`, for either sign |
| Numeric.FracPart | bg.js:96 | `x % 1` lies in `[0, 1)` for `x >= 0` and in `(-1, 0]` for `x < 0`, and differs from `x` by a whole number |
| Numeric.Or | bg.js:119 | `v || d` is one of `v` and `d`, is `v` whenever `v` is non-zero, and is zero only when both are |
| Numeric.ExtMin | script.js:201 | `Math.min` with a possibly infinite running minimum: the result is one of the two arguments and lies below both in the order `-Infinity < reals < Infinity` |
| Numeric.ExtMax | script.js:202 | `Math.max` with a possibly infinite running maximum: one of the two arguments, above both in the extended order |
| Colour.Lerp | script.js:84 | for `t` in `[0, 1]` the result lies between `a` and `b`; `t = 0` gives `a` and `t = 1` gives `b` |
| Colour.LerpChannel | script.js:87-89 | a rounded channel lies between the two channels and hits each end exactly |
| Colour.LerpColor | script.js:85-91 | every channel lies between the two colours' channels; two valid colours give a valid colour; `t = 0`/`1` gives the end colours |
| Colour.MixChannel | script.js:105-107 | a channel moves up toward 255 and no further; amount 0 keeps it and amount 1 makes it 255 |
| Colour.MixWithWhite | script.js:103-109 | `mixWithWhite` keeps a valid colour valid and never darkens a channel; amount 0 is the identity and amount 1 gives white |
| Colour.DarkenChannel | script.js:112-114 | a darkened channel is always a byte, never brighter for a factor in `[0, 1]`, and unchanged for factor 1 |
| Colour.Darken | script.js:110-116 | `darken` always gives a valid colour, never brightens for a factor in `[0, 1]`, and factor 1 is the identity on valid colours |
| Colour.Scale | script.js:94-96 | `i = floor(t * (n - 1))` and `f = scaled - i` recompose `t * (n - 1)`, with `f` in `[0, 1)`; for `t < 1` the index stays below the last stop |
| Colour.StopIndices | script.js:97-98 | both stop indices are in range, and for `t < 1` they are `i` and `i + 1` with no wrap |
| Colour.PaletteLookup | script.js:93-100 | the looked-up colour lies channel-wise between its two stops, and a palette of valid colours gives a valid colour |
| Colour.ScaleAtStop | script.js:94-96 | at phase `k / (n - 1)` the stop index is exactly `k` and the weight 0 |
| Colour.PaletteLookupAtStop | script.js:93-100 | at phase `k / (n - 1)` the lookup returns stop `k` itself |
| Colour.PaletteLookupNoWrap | script.js:93-100 | for phases in `[0, 1)` the lookup interpolates between stop `i` and stop `i + 1` with no modular wrap |
| Viewport.ClampDpi | script.js:13 | the ratio is clamped into `[1, 1.5]`, kept inside it, and an undefined or zero ratio becomes 1 |
| Viewport.BackingSize | script.js:16-19 | `Math.floor(size * dpi)`: the whole number `n` with `n <= size * dpi < n + 1`; it lies between the CSS side and 1.5 times it, and equals it at ratio 1 |
| Viewport.Measure | script.js:12-19 | the ratio is the clamped `devicePixelRatio` (`ClampDpi`), in `[1, 1.5]`; the CSS size is the floor of the window size; the bitmap is the floored product of CSS size and ratio |
| Viewport.FullHdAtRatioTwo | script.js:12-19 | a 1920 x 1080 window at ratio 2 gets ratio 1.5 and a 2880 x 1620 bitmap |
| WaveScene.PaletteGradientAt | script.js:93-100 | `paletteGradientAt` returns a valid colour inside the channel hull of the script's palette |
| WaveScene.PaletteGradientAtStops | script.js:27-32 | at `t = k / 3` the gradient is exactly palette stop `k` |
| WaveScene.WaveY | script.js:153-163 | definition of `getWaveY`; its bound is stated by `WaveYBounded` |
| WaveScene.HarmonicsBounded | script.js:159-162 | the three harmonics with weights 1, 0.38 and 0.18 stay within `1.56 * |amp|` |
| WaveScene.WaveYBounded | script.js:153-163 | `getWaveY` never leaves the band of half-width `1.56 * |60 * ampMul|` around `height * 0.58` |
| WaveScene.GlassCrest | script.js:173 | definition: the crest `getWaveY(x, t, 0.9, 1, 1)` the glass band follows |
| WaveScene.GlassRaw | script.js:173-183 | the unclamped top and bottom ribbon points are mirror images about the crest point `(x, crest(x))` |
| WaveScene.ClampToGlassBox | script.js:184-187 | a clamped ribbon point lies in the box 50 pixels around the viewport, and a point already inside is unchanged |
| WaveScene.GlassSample | script.js:173-187 | a sample is the two `GlassRaw` points clamped into the glass box; both lie in the box, a raw point already inside is kept, and when both are kept they stay mirror images about the crest point |
| WaveScene.GlassSampleCount | script.js:172 | the loop `x = 0, 7, ...` while `x <= width + 7` runs at least twice and exactly `floor((width + 7) / 7) + 1` times |
| WaveScene.GlassBandPoints | script.js:168-191 | the sampling loop yields as many top as bottom points, one per sample, each the sample at `x = 7 * i`, all in the glass box |
| WaveScene.ScanY | script.js:199-207 | the two min/max loops stay infinite exactly when there are no points; otherwise they give a lower and an upper bound of every point's `y`, each attained by some point |
| WaveScene.SampleYGrows | script.js:204-207 | appending a point keeps existing witnesses of a scanned `y` and adds the new point's own |
| WaveScene.GlassStops | script.js:211-221 | five stops at strictly increasing offsets from 0 to 1; for a valid base the four dark stops are no brighter than the base and the glow stop no darker |
| WaveScene.DrawGlassBand | script.js:165-241 | a band is drawn exactly when the band is enabled (the `isFinite` guard never fires); its gradient reaches 20 pixels beyond the extreme ribbon points; the stops and the edge colours are the source's |
| WaveScene.WaveDY | script.js:264-269 | definition of `getWaveDY`, the symmetric difference over 1.5 pixels; the gate on it is stated by `SpecularAt` |
| WaveScene.SpecularIntensity | script.js:298-299 | the intensity lies in `[0, 1]`, is 1 exactly on a flat crest and 0 exactly from slope `1/0.9` on, and adds up with `0.9 * slope` to 1 below that |
| WaveScene.SpecularIntensityAntitone | script.js:298-299 | a steeper crest is never brighter |
| WaveScene.SpecularAt | script.js:296-307 | a segment exists exactly when the intensity of `|getWaveDY(x, t, 0.95, 1, 1)|` exceeds 0.02; it then carries that intensity, sits on the crest `getWaveY(x, t, 0.95, 1, 1)`, starts at `x - 3`, and has width `1 + 1.8 * intensity`, alpha `0.09 + 0.18 * intensity` and colour `mixWithWhite(base, 0.85)` |
| WaveScene.SpecularSamples | script.js:295 | sample `i` is the one at `x = 6 * i` |
| WaveScene.Kept | script.js:300 | definition: the present samples in order; stated by `KeptExactly` |
| WaveScene.KeptExactly | script.js:300 | `continue` drops exactly the absent samples: a segment is kept iff it was present, and never more segments than samples |
| WaveScene.KeptGated | script.js:300-307 | every kept segment has a property that every present sample has |
| WaveScene.SpecularDrawnGated | script.js:295-309 | every segment the highlight draws passed the gate |
| WaveScene.SpecularDrawnIffAboveGate | script.js:295-309 | a segment starting at `6 i - 3` is drawn exactly when the slope intensity at `x = 6 i` exceeds 0.02 |
| WaveScene.DrawSpecularHighlight | script.js:290-311 | the loop strokes exactly the gated segments of the samples `x = 0, 6, ...` while `x <= width`, left to right |
| WaveScene.ThreadPosition | script.js:345 | the position `i / count` of a thread lies in `[0, 1)` |
| WaveScene.ThreadMultiplier | script.js:345-347 | the multiplier lies in `[1 - jitter / 2, 1 + jitter / 2)`, is 1 without jitter and starts at the lower end for thread 0 |
| WaveScene.ThreadMultiplierIncreasing | script.js:345-347 | later threads get strictly larger multipliers for a positive jitter |
| WaveScene.ThreadAt | script.js:67-75 | with the configured jitters of 0.35, 0.3 and 0.35, the amplitude and speed multipliers lie in `[0.825, 1.175)` and the length multiplier in `[0.85, 1.15)` |
| WaveScene.Threads | script.js:344-353 | the thread loop produces 22 threads, thread `i` with the multipliers of index `i` |
| WaveScene.WaveCanvas.constructor | script.js:8-26 | after start-up both canvases are sized as one `resizeCanvas` from the window sizes them, and the start timestamp is 0 |
| WaveScene.WaveCanvas.ResizeCanvas | script.js:12-26 | ratio, CSS size and both bitmaps as `Measure` gives them; both canvases share one size |
| WaveScene.WaveCanvas.RenderFrame | script.js:332-355 | the start is taken from the first frame that finds it 0; elapsed seconds are non-negative; the colour is `paletteGradientAt((elapsed * 0.05) % 1)` and valid; the bands are its darkened copies; the threads are the 22 jittered ones; the two canvases stay the same size |
| Background.SettingsValid | bg.js:22-58 | the shipped configuration has a positive column count, valid palette colours, a non-zero radius and non-negative boosts |
| Background.SettingsPaletteHull | bg.js:68-75 | `paletteAt` on the shipped palette stays within its channel hull |
| Background.SettingsPaletteAtStops | bg.js:68-75 | `paletteAt(k / 3)` is palette stop `k` |
| Background.Pointer.constructor | bg.js:78 | the pointer record starts at the origin, outside the window |
| Background.Pointer.OnMove | bg.js:80-84 | `pointermove` records the target and marks the pointer inside; the smoothed position is untouched |
| Background.Pointer.OnLeave | bg.js:85 | `pointerleave` marks the pointer outside |
| Background.Pointer.OnEnter | bg.js:87 | `pointerenter` marks the pointer inside |
| Background.Pointer.Follow | bg.js:104-107 | one smoothing step moves both coordinates the fraction `follow` toward the target |
| Background.SmoothingGap | bg.js:106-107 | after one step the remaining gap is `1 - k` times the old one, and for `k` in `[0, 1]` the position lies between the old one and the target |
| Background.SmoothedIsLerp | bg.js:104-107 | each frame of `Smoothed` is the `Lerp` toward the target that `Pointer.Follow` performs |
| Background.SmoothingConverges | bg.js:104-108 | after `n` frames with a fixed target, the gap is `(1 - k)^n` times the initial one |
| Background.PowerInUnit | bg.js:105-107 | for a follow factor in `[0, 1]` the factor `(1 - k)^n` is in `[0, 1]`: smoothing never overshoots |
| Background.Falloff | bg.js:120 | a Gaussian falloff `exp(-d^2 / (2 r^2))` lies in `(0, 1]` |
| Background.PointerPull | bg.js:113-124 | without an active pointer nothing changes; with one, `gX` is the Gaussian falloff of the offset with radius `radius`, the centre moves by `dx * strength * gX`, the boosts are `gX` times the configured ones and `rY` is `yRadius || radius`; hence `gX` is in `(0, 1]`, the centre never passes the pointer, the boosts lie between 0 and the configured ones, and strength 0 leaves the centre alone |
| Background.PointerRow | bg.js:141-146 | the row pull is skipped unless `gX > 0` and the pointer acts; otherwise `x` moves by `dx * strength * (gX * gY)` with `gY` the vertical falloff, toward `x + dx` but never past it, and not at all at strength 0 |
| Background.ResolveTwist | bg.js:130-135 | `config.twist || {}` resolved: on exactly when present and enabled; the centre is `width * x` and `height * y` for a non-zero field and `0.5 * width`, `0.42 * height` otherwise; the direction is `dir`, or 1 when it is 0 or missing; `sigma2` is `Spread(radius)` and positive |
| Background.Spread | bg.js:135 | the spread `sigma2` is `(0.66 tr)^2` for a positive radius and 1 otherwise, so always positive |
| Background.TwistRow | bg.js:147-158 | with the twist off or of non-positive radius a row is untouched and contributes 0; otherwise the falloff `g = exp(-d^2 / (2 sigma2))` is the contribution when above 0.001 and the row is untouched when not, so a contribution is 0 or in `(0.001, 1]`; strength 0 keeps `x`; for a positive strength and direction a twisted row above the centre bends right, one below it bends left, and one level with it stays |
| Background.InterEnabled | bg.js:103 | definition of `interEnabled`; how it gates smoothing is stated by `BackgroundCanvas.BeginFrame` |
| Background.BasePhase | bg.js:96 | the base colour phase lies in `[0, 1)` once time runs, and equals `0.03 * t` in the first cycle |
| Background.HueShift | bg.js:126 | a column's colour phase lies in `[0, 1)`, and column 0 has the base phase |
| Background.FrameOf | bg.js:92-96 | the frame's base phase lies in `[0, 1)` for non-negative time |
| Background.RestingCentre | bg.js:112 | a column's resting centre stays within `6 (l + 1)` of the middle of its slot |
| Background.RowPhase | bg.js:125 | definition of the column's row phase |
| Background.ColumnAt | bg.js:112-135 | a column has a positive twist spread and a non-zero vertical radius when the pointer acts; without the pointer it sits at its resting centre with no boosts; its colour is valid for a valid palette |
| Background.SwayX | bg.js:138-140 | definition of the two-sine sway; the row built on it is stated by `RowAt` |
| Background.RowAt | bg.js:137-158 | row `j` lies at `-20 + 8 j`; its twist contribution is 0 or in `(0.001, 1]`, 0 with the twist off, and then `x` is the swayed and pulled one |
| Background.RowCount | bg.js:137 | the rows `y = -20, -12, ...` are exactly those with `y <= height + 20` |
| Background.ColumnRows | bg.js:137-161 | a column's first `n` rows are rows `0 .. n - 1`, in order |
| Background.TwistMax | bg.js:136-156 | definition of the running `twistInfMax`; stated by `TwistMaxIsMaximum` |
| Background.TwistMaxIsMaximum | bg.js:136-157 | `twistInfMax` is non-negative, at least every row's contribution, and either 0 or one of them |
| Background.TwistBoostIffTwisted | bg.js:152-162 | when contributions are 0 or above 0.001, `twistInfMax > 0` exactly when some row contributed |
| Background.StrokeFor | bg.js:162-167 | alpha is the layer's plus the pointer's adjustment, and width `max(1, colW * 0.05)` plus the pointer's; for `twistInfMax > 0` exactly `twistInfMax` times the twist boosts is added to each, and nothing otherwise; with non-negative boosts the width is at least `max(1, colW * 0.05)` and the alpha at least the layer's |
| Background.ColumnStroke | bg.js:112-168 | a column stroke has one point per row |
| Background.TraceColumn | bg.js:136-161 | the rows loop produces exactly the column's rows, and `twistInfMax` their running maximum |
| Background.TraceRow | bg.js:138-158 | the loop body computes row `j` as `RowAt` specifies |
| Background.DrawColumn | bg.js:112-168 | the imperative column is the stroke `ColumnStroke` specifies |
| Background.FinishStroke | bg.js:162-167 | the imperative boost update gives the stroke `StrokeFor` specifies |
| Background.LayerStrokes | bg.js:111-169 | a layer has one stroke per column |
| Background.FrameStrokes | bg.js:109-170 | a frame has one stroke list per layer |
| Background.DrawLayer | bg.js:111-169 | the columns loop yields the column strokes left to right |
| Background.DrawLayers | bg.js:109-170 | the layers loop yields every layer's strokes in drawing order |
| Background.ColumnStrokeBounds | bg.js:162-167 | with non-negative boosts every stroke is at least `max(1, colW * 0.05) >= 1` wide and no fainter than its layer |
| Background.RowsIgnorePointer | bg.js:141-146 | while the pointer does not act, rows do not depend on the pointer position |
| Background.InactivePointerIgnored | bg.js:113-124 | with the interaction off or the pointer outside, a column sits at its resting centre with no pointer boosts, and its stroke does not depend on the pointer position |
| Background.TwistOffLeavesPointerStroke | bg.js:147-165 | without an enabled twist of positive radius no row is twisted and a stroke carries only the pointer's boosts |
| Background.TwistBoostIffColumnTwisted | bg.js:147-165 | a column takes the twist boosts exactly when one of its rows was twisted |
| Background.BackgroundCanvas.constructor | bg.js:7-20 | start-up sizes the canvas by one `resize`, with `start = 0` and the pointer at the origin, outside |
| Background.BackgroundCanvas.Resize | bg.js:11-20 | the ratio, the CSS size and the bitmap as `Measure` gives them |
| Background.BackgroundCanvas.BeginFrame | bg.js:90-108 | the start is taken from the first frame that finds it 0; the pointer is smoothed exactly when the interaction is enabled; the frame has non-negative time and a base phase in `[0, 1)` |
| Background.BackgroundCanvas.Draw | bg.js:90-170 | the new start, the smoothed pointer and the frame state; the fill is `paletteAt(basePhase)`; the strokes are every layer's column strokes in drawing order |
| Links.LeavesPageAlone | ui.js:14 | definition of the `#`, `mailto:` and `tel:` prefix rule; its effect is stated by `IsInternalLink` |
| Links.AttrText | ui.js:13 | `getAttribute('href') || ''` is the attribute when present; it is empty exactly when the attribute is missing or empty, and it trips a prefix rule only when the attribute is present and does |
| Links.IsInternalLink | ui.js:10-21 | a missing anchor, an empty href, a `_blank` target, a raw attribute starting with `#`, `mailto:` or `tel:`, or a failed resolution each give false; otherwise the link is internal exactly when its resolved origin is the page's |
| Links.OnClick | ui.js:23-31 | a click is intercepted exactly when it has an enclosing anchor that is internal; it then navigates to the raw attribute after 260 ms |
| Links.InterceptNavigatesToAttribute | ui.js:26-30 | an intercepted click on a consistent anchor always has an attribute to navigate to, and it is not a fragment, mail or phone link |
| Links.FragmentLinkNotIntercepted | ui.js:13-14 | a fragment link on the page's own origin is let through: the prefix rules read the raw attribute, not the resolved href |

## Left out

- Every canvas call (paths, fills, strokes, gradients, composite modes, transforms, text) is left out. Each operation returns what it would hand to the canvas.
- `requestAnimationFrame` scheduling, the resize debounce, and event registration are left out. `draw`, `renderFrame` and the handlers are methods called one at a time.
- `window.devicePixelRatio`, `innerWidth`/`innerHeight`, `matchMedia('(pointer: coarse)')` and the frame timestamp are left out as sources; they enter as parameters.
- `Math.sin`, `Math.exp`, `Math.sqrt` and `Math.hypot` are host functions known only by their ranges (`HostLaws`). Values that depend on their exact results are stated in terms of those parameters.
- Double-precision rounding, NaN and the infinities that ordinary arithmetic can produce are left out; numbers are exact reals. Only the `Infinity` seeds of the glass scan are modelled.
- These script.js passes are left out: `drawFoam` with its hashed noise, `getWaveCurvature`, the aura strokes, `drawWavePath`, `drawWavePathCustom` with the fill of the background bands, `drawCrestPath`, and the text-mask particles, which use `Math.random` and `getImageData`. The two band colours are computed.
- The bg.js vignette gradient (lines 171-178) is left out; it draws a fixed gradient and computes nothing. The configuration still carries its `vignette` strength as data; nothing in the model reads it.
- The ui.js page overlay, the `pageshow` handler, the ripple effect and the IntersectionObserver reveal are left out. price.js is not part of this model.
- `new URL(href, base).origin` is left out as a library; it is the parameter `resolve`, which returns `None` where the constructor throws.
- Background.ValidConfig: requires a non-zero interaction radius, because the source divides by its square. With a zero radius the falloff would be NaN or 0 in doubles, and that is not modelled.
- Background.BackgroundCanvas.Draw: requires a timestamp no earlier than the recorded start, as animation-frame timestamps are. An earlier one would make the phase negative, and `paletteAt` would then index the palette out of range.
- Background.BackgroundCanvas.BeginFrame: the same timestamp requirement as `Draw`.
- WaveScene.WaveCanvas.RenderFrame: the same timestamp requirement, for the same reason.
- Background.FrameStrokes: states only the number of layers. That element `l` holds layer `l`'s column strokes in order follows from its recursive definition and is not restated as a lemma.
- Background.LayerStrokes: states only the number of columns. Element `i` is `ColumnStroke(.., i)` by its definition.
- Background.ColumnStroke: states only the path length. Alpha, width and path are stated by `ColumnStrokeBounds`, `TwistOffLeavesPointerStroke`, `TwistBoostIffColumnTwisted` and `InactivePointerIgnored`.
- Background.FrameOf: states only the base phase range. The column width `width / columns` is stated by `Draw`.
