# Holographic terrain: stripe texture, viewport and frame clock

This project models the part of `src/script.js` that computes something
rather than configuring three.js objects:

- **The stripe texture** (`terrain.texture.update`). It clears a
  `width` x `height` canvas (32 x 128 by default). It then fills one "big"
  band across the top, `round(height * bigLineWidth)` rows tall, in blue at
  alpha 1. Below that it fills `linesCount - 1` "small" bands, each
  `round(height * smallLineWidth)` rows tall, in white at `smallLineAlpha`.
  Small band `i` starts at row `bigPx + step * (i + 1)`, where
  `step = round((height - bigPx) / linesCount)`. The step is rounded once,
  before the multiplication.
- **The viewport**: the `sizes` object, whose pixel ratio is
  `min(devicePixelRatio, 2)`, and the resize handler. The handler updates
  `sizes` and resizes the bokeh pass's depth target to
  `width * ratio` by `height * ratio`.
- **The frame clock**: `tick` computes `deltaTime = elapsed - lastElapsedTime`,
  then records `elapsed` as `lastElapsedTime` and as the `uTime` uniform.

Modules:

- `JsMath` (`js_math.dfy`) holds `Math.round` and `Math.min` over exact reals.
  `Math.round(x)` is `(x + 0.5).Floor`: the nearest integer, with halves
  rounded towards +infinity, as JavaScript does.
- `Canvas` (`canvas.dfy`) is the canvas 2D context as class `Context2D`. Its
  buffer is an `array2` that holds, for every pixel, the paints (colour,
  alpha) laid on it since it was last cleared, oldest first.
  `clearRect`/`fillRect` follow the canvas rules: rectangles with a negative
  width or height are normalised, and pixels outside the buffer are clipped.
  The `globalAlpha` setter ignores values outside [0, 1]. `Replay` and
  `ReplayAll` give the effect of a sequence of drawing calls on one pixel and
  on the whole buffer. The context also keeps, as ghost state, the drawing
  calls made on it and the buffer it started with. Its invariant `Tracks`
  says every pixel holds the replay of those calls.
- `Stripes` (`stripes.dfy`) holds the layout as specification functions:
  - `BigPx`, `SmallPx`, `Step`, `SmallTop` and `SmallCount` give the band
    geometry.
  - `StripeOps` is the list of drawing calls `update` makes, in order.
  - `RowLayers` and `RowRaster` are the reference definition of the finished
    texture: row by row, the big paint if the row is in the big band, then
    one small paint per small band covering it.

  The `StripeTexture` class owns the parameters and the canvas. Its `Update`
  method repeats the source's statements. The "small lines" loop is in its
  own method, `DrawSmallLines`, which `Update` calls at the point where the
  loop stands in the source. `Update` is proved to perform exactly
  `StripeOps` and to leave `RowRaster` in the buffer.
- `Viewport` (`viewport.dfy`) holds `sizes`, the depth target and the resize
  handler.
- `FrameClock` (`frame_clock.dfy`) holds the `tick` state and the uniforms it
  writes.

The small-band alpha is `smallLineAlpha` when it lies in [0, 1]. Otherwise the
context keeps the alpha 1 set for the big band (`Stripes.SmallAlpha`).

Two facts about the code that the model keeps:

- The step is rounded before it is multiplied: small band `i` starts at
  `bigPx + round((height - bigPx) / linesCount) * (i + 1)`.
- Nothing keeps the small bands inside the texture. `SmallBandsCanOverrunTexture`
  shows a small band starting at row 167 of a 128-row texture.

## Model

| member | source | states |
|---|---|---|
| `JsMath.Round` | src/script.js:110-112 | `Math.round`: the result is the integer within one half of `x`, taking the upper one on a tie |
| `JsMath.Min` | src/script.js:26 | `Math.min`: the result is at most each argument and equals one of them |
| `Canvas.Context2D.constructor` | src/script.js:85-94 | a new texture canvas of the given size is fully transparent, with alpha 1 and a black fill style |
| `Canvas.Context2D.SetGlobalAlpha` | src/script.js:129 | the alpha becomes the given value if it lies in [0, 1]; otherwise it is left unchanged |
| `Canvas.Context2D.SetFillStyle` | src/script.js:130 | the fill style becomes the given colour |
| `Canvas.Context2D.ClearRect` | src/script.js:102-107 | every pixel inside the (normalised) rectangle loses all its layers; every other pixel is unchanged; the call is appended to the context's history and the buffer still equals the replay of that history |
| `Canvas.Context2D.FillRect` | src/script.js:131-141 | every pixel inside the rectangle gains one layer with the current fill style and alpha, on top of its old layers; every other pixel is unchanged; the call is appended to the history and the buffer still equals its replay |
| `Canvas.ReplayAfterClear` | src/script.js:102-107 | after a clear covering a pixel, what the pixel holds depends only on the later calls, never on what it held before |
| `Canvas.ReplayAppend` | src/script.js:101-143 | replaying two runs of drawing calls in turn on a pixel is replaying the second run over the result of the first |
| `Canvas.ReplayAllAppend` | src/script.js:101-143 | the same on the whole buffer: the calls of one `update` act on whatever the earlier calls left |
| `Stripes.StripeTexture.constructor` | src/script.js:78-94 | the texture starts with linesCount 5, widths 0.04 and 0.01, alpha 0.5, size 32 x 128, and a fresh transparent canvas of that size |
| `Stripes.StripeTexture.Update` | src/script.js:101-143 | the context's history grows by exactly `StripeOps`; the buffer becomes the replay of `StripeOps` over the old buffer, which equals the reference texture `RowRaster`; the context ends with the alpha and style of the last fill |
| `Stripes.StripeTexture.DrawSmallLines` | src/script.js:122-142 | starting after the clear and the big band, the loop makes the remaining calls of `StripeOps`, one small band per iteration, and leaves the context with the small paint (or the big one when there are no small bands) |
| `Stripes.ReplayPrefixBase` | src/script.js:102-120 | after the clear and the big band, a pixel holds only the big paint, and only when its row is in the big band |
| `Stripes.ReplayPrefixStep` | src/script.js:128-141 | filling small band `k` adds one small paint to the pixels of the rows it covers and leaves the other pixels as they were |
| `Stripes.SmallTopFrom` | src/script.js:132-138 | the top row the loop computes from the rounded big-band height is `SmallTop` |
| `Stripes.SmallOpFrom` | src/script.js:128-141 | the fill the loop makes for band `i` is call `2 + i` of `StripeOps` |
| `Stripes.UpdateReplay` | src/script.js:101-143 | on a texture-sized buffer, the calls of `update` made after any earlier calls leave the reference texture |
| `Stripes.ReplayPrefix` | src/script.js:109-142 | after the clear, the big band and the first `k` small bands, a pixel holds the big paint if it is in the big band, then one small paint per covering band among the first `k`, whatever it held before |
| `Stripes.StripeOpsReplay` | src/script.js:101-143 | the calls of `update` leave every in-texture pixel holding exactly its row's reference layers, so each band spans the full width and earlier contents are gone |
| `Stripes.StripeRaster` | src/script.js:101-107 | replaying the calls of `update` over any buffer of the texture's size gives the reference texture |
| `Stripes.StripeOrder` | src/script.js:113-142 | the calls are: clear of the whole area; blue band at row 0, full width, `BigPx` rows, alpha 1; then exactly `max(linesCount - 1, 0)` white full-width bands of `SmallPx` rows, band `k` at row `BigPx + Step * (k + 1)`, in increasing `k` |
| `Stripes.SmallOpAt` | src/script.js:128-141 | the call at position `2 + i` fills small band `i` with the small paint |
| `Stripes.BandSpacing` | src/script.js:132-138 | consecutive small bands start exactly `Step` rows apart |
| `Stripes.BandsIncreasing` | src/script.js:132-138 | with a positive step, the small bands' top rows strictly increase with `i` |
| `Stripes.BandsBelowBigBand` | src/script.js:132-138 | when the big band fits in the texture, the step is non-negative and every small band starts at least one step below the end of the big band |
| `Stripes.CoveringBandsPositive` | src/script.js:128-141 | the count of small bands covering a row is positive if and only if some small band covers it |
| `Stripes.RowContents` | src/script.js:109-142 | a row holds blue exactly when it is in the big band, and then as its first layer; it holds the small paint exactly when some small band covers it; it holds no other paint |
| `Stripes.NoEarlierBand` | src/script.js:132-141 | when bands are no taller than the step, a row covered by band `j` is covered by no earlier band |
| `Stripes.BandsDisjoint` | src/script.js:123-141 | small bands no taller than the step never overlap: each row is covered by at most one of them |
| `Stripes.OneLayerPerRow` | src/script.js:109-142 | with a big band inside the texture and small bands no taller than the step, no row is painted twice |
| `Stripes.DefaultLayout` | src/script.js:110-138 | with the default parameters: big band 5 rows, small bands 1 row, step 25, four small bands at rows 30, 55, 80 and 105 |
| `Stripes.DefaultRows` | src/script.js:79-142 | the finished default texture: rows 0-4 blue at alpha 1, rows 30, 55, 80 and 105 white at alpha 0.5, all other rows empty |
| `Stripes.SmallBandsCanOverrunTexture` | src/script.js:128-141 | nothing keeps the small bands inside the texture: at 128 rows with 82 lines, the last small band starts at row 167 |
| `Viewport.ClampPixelRatio` | src/script.js:33 | the pixel ratio is at most 2 and at most the device ratio, and equals one of them |
| `Viewport.Sizes.constructor` | src/script.js:23-27 | `sizes` starts with the window size and the clamped device ratio, so the ratio is at most 2 |
| `Viewport.DepthTarget.constructor` | src/script.js:200-207 | the bokeh pass's depth target starts at the window size times the pixel ratio |
| `Viewport.OnResize` | src/script.js:29-50 | after a resize, `sizes` holds the new window size and the clamped ratio, and the depth target measures `width * ratio` by `height * ratio` |
| `Viewport.ResizeToFullHd` | src/script.js:48-49 | resizing to 1920 x 1080 on a ratio-3 screen gives a 3840 x 2160 depth target |
| `FrameClock.TerrainUniforms.constructor` | src/script.js:158-163 | the terrain uniforms start at elevation 2, texture frequency 10 and time 0 |
| `FrameClock.FrameDriver.constructor` | src/script.js:213-214 | the last elapsed time starts at 0, matching the time uniform |
| `FrameClock.FrameDriver.Tick` | src/script.js:216-222 | the delta is the elapsed time minus the previous one; afterwards the last elapsed time and `uTime` both equal the elapsed time, and the other uniforms are unchanged |
| `FrameClock.TickAll` | src/script.js:213-222 | successive ticks reading the elapsed times `times` return exactly `Deltas` of those times from the last recorded time, keep `uTime` equal to the last elapsed time, leave the last of the times recorded, and leave the elevation and texture-frequency uniforms unchanged |
| `FrameClock.Deltas` | src/script.js:216-219 | successive ticks report one delta per frame |
| `FrameClock.DeltaAt` | src/script.js:217-219 | the `k`-th delta is the `k`-th elapsed time minus the one before it, or minus the starting time for the first tick |
| `FrameClock.DeltasTelescope` | src/script.js:216-219 | over any run of frames, the deltas add up to the last elapsed time minus the time before the run |
| `FrameClock.DeltasNonNegative` | src/script.js:217-218 | with an elapsed time that never decreases, no delta is negative |

## Left out

- The three.js scene, camera, renderer, `EffectComposer`, `RenderPass`, `BokehPass` and its blur, and `WebGLMultipleRenderTargets`. These are library objects whose code is not part of this model. The resize handler's calls to `camera.updateProjectionMatrix`, `renderer.setSize`/`setPixelRatio` and `effectComposer.setSize`/`setPixelRatio` are left out for the same reason.
- `Viewport.DepthTarget.constructor`: takes the `width`/`height` options as the depth target's size. Any fallback `BokehPass` applies to a zero size is library code, not modelled.
- The GLSL terrain shaders and the displacement they compute. Their sources are not part of this model.
- The terrain geometry, material flags and mesh (lines 148-169), apart from the numeric uniforms.
- `OrbitControls` and damping, the `requestAnimationFrame` loop, the `render` calls in `tick`, and the wiring of the `resize` event. These are external I/O and scheduling. `FrameClock.TickAll` runs `Tick` over a given sequence of frames in their place.
- `THREE.Clock`. The elapsed time is an input to `Tick`.
- The DOM: canvas creation, styling and insertion into the page. The `CanvasTexture` upload and its wrap and filter settings are also left out.
- The browser's alpha compositing of overlapping fills, which is floating-point colour blending. The model keeps the ordered layers a pixel receives, not the colour they blend to.
- CSS colour parsing. Fill styles are kept as the strings given (`"blue"`, `"#ffffff"`).
- JavaScript numbers are modelled as exact reals and integers. Double rounding, NaN, infinities and a non-integer `linesCount` are not modelled. When `linesCount <= 1` the loop body never runs, so the division by `linesCount` never happens; the model evaluates `Step` only for the bands the loop draws, that is, only when `linesCount >= 2`.
