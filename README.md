# mandelbrot-2d in Dafny

A model of the core of mandelbrot-2d. It draws a time-varying variant of the
Mandelbrot escape-time fractal, one pixel at a time, and advances one
animation frame at a time until the time reaches 2. All arithmetic is over
exact `real`s.

- `Helpers` (map.dfy) models `map` from src/helpers/map.ts. It remaps a value
  from one interval onto another.
- `App` (app.dfy) models the `Mandelbrot` class of src/app.ts.
  - The class has the fields `w`, `h`, `pixelScale`, `maxIterations`, `time`
    and `totalIterations`.
  - The canvas is a ghost log `drawn` of draw calls `(x, y, colour)`.
    `DrawPixel` appends to the log and `Reset` (`ctx.reset`) clears it.
  - `draw(t)` is split along its loops. `Draw` derives the half extents
    `sPixelsW` and `sPixelsH` with `HalfExtent`. `Sweep` is the loop over `x` and
    `DrawColumn` the loop over `y`. `DrawPoint` is the work for one pixel:
    remap, escape loop, step counting, draw call.
  - `Animate` is one frame. `Run` is the chain of frames that
    `requestAnimationFrame` drives. `Start` is `new Mandelbrot(...)`.

The loops and their effects are stated against specification functions:
- `EscapeFrom` and `Escape` for the escape loop, and `PixelEscape` for one
  pixel's remap and escape loop;
- `Cell` and `Span` for the sweep loop variables. `Cell(s, k)` is the value
  `-s + k` a loop variable holds after `k` increments, and `Span(s)` is the
  number of increments after which the guard `<= s` first fails;
- `Column`, `Columns` and `SweepPixels` for the sweep order;
- `PixelCall` (with `DrawX` and `DrawY`), `Calls` and `Iterations` for what
  one frame draws and counts;
- `TimeAfter` and `FramesFrom` for the frame chain.

One escape step is `Continues` (the guard), then `StepYi`, then `StepXr`.
It keeps the source's order: `StepYi` updates the imaginary part first, and
`StepXr` then computes the real part from the *updated* imaginary part.

`draw(t)` reads `this.time` inside the recurrence (src/app.ts:76) and uses its
argument `t` only to scale the draw position (src/app.ts:83-84). The model
keeps the two apart. `Animate` passes the new `time` as `t`, as src/app.ts:96
does.

## Model

| member | source | states |
|---|---|---|
| `Helpers.Map` | src/helpers/map.ts:1-11 | On a non-degenerate source interval, `fromStart` maps to `toStart` and `fromEnd` maps to `toEnd` |
| `Helpers.MapAffine` | src/helpers/map.ts:9 | `map(n1) - map(n2) == (n1 - n2) * (toEnd - toStart) / (fromEnd - fromStart)` |
| `Helpers.MapRoundTrip` | src/helpers/map.ts:9 | If the target interval is also non-degenerate, mapping back with the intervals swapped returns the input |
| `Helpers.MapStrictlyIncreasing` | src/helpers/map.ts:9 | With both intervals increasing, `n1 < n2` implies `map(n1) < map(n2)` |
| `Helpers.MapMidpoint` | src/helpers/map.ts:9 | `map(0, -s, s, a, b) == (a + b) / 2` |
| `App.Continues` | src/app.ts:75 | Definition of the escape loop's guard: `xr² + yi² <= 2²` and `n <= maxIterations`. `EscapeFromExit` states that the loop ends where it fails |
| `App.StepYi` | src/app.ts:76 | Definition of the imaginary update `time · 2 · xr · yi + remapY`. It reads the object's `time`, not the argument `t` |
| `App.StepXr` | src/app.ts:77 | Definition of the real update `xr² - yi² + remapX`, where `yi` is the value `StepYi` has just produced. `EscapeFirstStep` states the effect of this order |
| `App.EscapeFrom` | src/app.ts:75-80 | From any state under the cap, the loop stops with `n` between the start count and `maxIterations + 1` |
| `App.Escape` | src/app.ts:71-80 | From `xr = yi = 0, n = 0`, the loop stops with `1 <= n <= maxIterations + 1` |
| `App.EscapeFromExit` | src/app.ts:75 | From any state under the cap, the loop stops in a state that fails its guard |
| `App.EscapeExit` | src/app.ts:71-80 | On exit from the start state, either `xr² + yi² > 4` or `n == maxIterations + 1` |
| `App.EscapeFirstStep` | src/app.ts:76-77 | The first step leads to `yi == remapY` and `xr == remapX - remapY²`, because the real update uses the new `yi` |
| `App.EscapeAtOriginFrom` | src/app.ts:75-78 | With `remapX == remapY == 0`, a state at the origin stays there until `n == maxIterations + 1` |
| `App.EscapeAtOrigin` | src/app.ts:71-78 | With `remapX == remapY == 0`, the loop ends with `xr == yi == 0` and `n == maxIterations + 1`, for any time |
| `App.HalfExtent` | src/app.ts:63-64 | Definition of the half extent `(d / pixelScale) · 0.5` of one surface side. `HalfExtentPositive` and `ReferenceHalfExtent` state its properties |
| `App.HalfExtentPositive` | src/app.ts:63-64 | A positive side and a positive pixel scale give a positive half extent |
| `App.Cell` | src/app.ts:66-67 | Definition of a sweep loop variable after `k` increments: it starts at `-s` and each `x++` / `y++` adds 1. `CellValue` gives its closed form |
| `App.CellValue` | src/app.ts:66-67 | After `k` increments from `-s`, a sweep variable holds `-s + k` |
| `App.Span` | src/app.ts:66-67 | The guard `<= s` holds after `Span(s) - 1` increments and fails after `Span(s)`, and `Span(s) >= 1` |
| `App.SpanGuard` | src/app.ts:66-67 | The sweep guard holds after `i` increments exactly when `i < Span(s)` |
| `App.SpanWhole` | src/app.ts:66-67 | A whole half extent `n` is swept in `2n + 1` steps |
| `App.SpanFloor` | src/app.ts:66-67 | `Span(s) == floor(2s) + 1` |
| `App.Column` | src/app.ts:67 | Definition of the pixels `(x, Cell(sH, 0))`, ..., `(x, Cell(sH, k - 1))` of the inner loop, in order. `ColumnAt` states its length and entries |
| `App.Columns` | src/app.ts:66 | Definition of the first `k` full columns of the outer loop, for `x = Cell(sW, 0)`, ..., `Cell(sW, k - 1)`, in order. `ColumnsLength` and `ColumnsAt` state its length and entries |
| `App.SweepPixels` | src/app.ts:66-67 | Definition of all pixels of one frame in drawing order: `Span(sW)` full columns. `SweepCoverage` states that it visits every grid cell exactly once |
| `App.ColumnAt` | src/app.ts:67 | The inner sweep visits `(x, -sH + j)` in step `j`, and nothing else |
| `App.ColumnsLength` | src/app.ts:66-67 | `k` full columns make `k * Span(sH)` pixels |
| `App.ColumnsAt` | src/app.ts:66-67 | Grid cell `(i, j)` is visited at position `i * Span(sH) + j`, and the pixel there is `GridPixel(sW, sH, i, j) = (-sW + i, -sH + j)` |
| `App.SweepEntry` | src/app.ts:66-67 | Sweep entry `k` is grid cell `(k / Span(sH), k % Span(sH))` |
| `App.SweepCoverage` | src/app.ts:63-67 | The sweep has `Span(sW) * Span(sH)` entries. It visits every grid cell `(-sW + i, -sH + j)`, and no pixel twice |
| `App.SweepLast` | src/app.ts:66-67 | The last pixel swept is the last grid cell `(-sW + Span(sW) - 1, -sH + Span(sH) - 1)` |
| `App.PixelEscape` | src/app.ts:68-80 | Definition of a pixel's final escape state: its coordinates are remapped onto `[-2, 0.47] × [-1.12, 1.12]` by `map`, and the escape loop runs with the object's `time`. `Escape` and `EscapeExit` bound the result |
| `App.DrawX` | src/app.ts:83 | Definition of the horizontal draw position `yi³ · 700 · t` |
| `App.DrawY` | src/app.ts:84 | Definition of the vertical draw position `-1 · xr³ · 700 · t` |
| `App.PixelCall` | src/app.ts:82-87 | Definition of the draw call of a final escape state: the two positions and the fixed colour `rgba(200,200,200,0.8)`. `FrameCallOfCell` states it per grid cell |
| `App.Calls` | src/app.ts:82-87 | A frame issues exactly one draw call per pixel swept, each in colour `rgba(200,200,200,0.8)` |
| `App.CallsAppend` | src/app.ts:82-87 | One more pixel adds exactly its own draw call at the end |
| `App.CallsConcat` | src/app.ts:66-87 | The draw calls of two consecutive parts of a sweep are those of the first part followed by those of the second |
| `App.FrameCallOfCell` | src/app.ts:66-87 | The draw call of grid cell `(i, j)` is entry `i * Span(sH) + j` of the frame. It is drawn at `(yi³ · 700 · t, -xr³ · 700 · t)` for the final escape state of that cell's remapped coordinates |
| `App.Iterations` | src/app.ts:79 | Definition of the steps added to `totalIterations` over a sequence of pixels: the sum of their final `n`. `IterationsBounds` bounds it |
| `App.IterationsAppend` | src/app.ts:79 | One more pixel adds exactly its own step count |
| `App.IterationsConcat` | src/app.ts:66-79 | The step count of two consecutive parts of a sweep is the sum of their counts |
| `App.IterationsBounds` | src/app.ts:75-79 | Over `P` pixels, the steps counted lie between `P` and `(maxIterations + 1) * P` |
| `App.ColumnStep` | src/app.ts:67-88 | One more step of the inner loop adds the call and the step count of pixel `(x, -sH + j)` |
| `App.ColumnsStep` | src/app.ts:66-89 | One more step of the outer loop adds the calls and the step counts of one full column |
| `App.TimeAfter` | src/app.ts:93 | Definition of the time after `k` frames: `t0 + k · 0.005`. `Animate` advances `time` by one such step |
| `App.FramesFrom` | src/app.ts:102-104 | From time `t0`, the chain renders the least number `k >= 1` of frames with `t0 + k * 0.005 >= 2` |
| `App.FramesFromZero` | src/app.ts:93-104 | From time 0, the chain renders exactly 400 frames |
| `App.ReferenceHalfExtent` | src/app.ts:63-64 | `HalfExtent(600, 1) == 300`: a side of 600 at pixel scale 1, the constructor's values, has half extent 300 |
| `App.ReferenceSweep` | src/app.ts:63-67 | With half extents 300, each loop runs 601 times and a frame sweeps 601 × 601 pixels |
| `App.ReferenceCorners` | src/app.ts:66-67 | With half extents 300, the last grid cell is the corner `(300, 300)` and cell `(300, 300)` is the centre `(0, 0)` |
| `App.ReferenceRemap` | src/app.ts:68-69 | With half extents 300, the corner `(300, 300)` remaps to `(0.47, 1.12)` and the centre `(0, 0)` to `(-0.765, 0)` |
| `App.ReferenceSession` | src/app.ts:26-42 | Starting from the constructor's values, 400 frames at 600 × 600, pixel scale 1 and cap 8 count between `400 · 601²` and `400 · 9 · 601²` steps |
| `App.Mandelbrot.constructor` | src/app.ts:22-41 | Sets `w = h = 600`, `pixelScale = 1`, `maxIterations = 8`, `time = 0` and `totalIterations = 0`. The surface starts blank |
| `App.Mandelbrot.DrawPixel` | src/app.ts:45-55 | Records exactly one draw call `(x, y, c)` |
| `App.Mandelbrot.Reset` | src/app.ts:94 | Clears the surface |
| `App.Mandelbrot.DrawPoint` | src/app.ts:68-87 | Draws one pixel, at the position derived from that pixel's escape state. Adds that state's `n` to `totalIterations` |
| `App.Mandelbrot.DrawColumn` | src/app.ts:67-88 | Appends the draw calls of column `x` in sweep order and adds the column's step count |
| `App.Mandelbrot.Sweep` | src/app.ts:66-89 | Appends the draw calls of the whole grid in sweep order and adds its step count |
| `App.Mandelbrot.Draw` | src/app.ts:62-90 | Appends the frame's draw calls in sweep order. Adds the frame's total step count to `totalIterations`. Changes nothing else |
| `App.Mandelbrot.FrameIterationsBounds` | src/app.ts:66-80 | One frame adds between `P` and `(maxIterations + 1) * P` to `totalIterations`, where `P` is the number of pixels |
| `App.Mandelbrot.Animate` | src/app.ts:92-105 | Raises `time` by exactly 0.005. The surface then holds exactly the new frame, drawn with `t == time`. Asks for another frame iff the new `time < 2`. `w`, `h`, `pixelScale` and `maxIterations` do not change |
| `App.Mandelbrot.Run` | src/app.ts:92-105 | Stops after exactly `FramesFrom(time)` frames, with `time >= 2`. `totalIterations` grows by at least `P` and at most `(maxIterations + 1) * P` per frame. The sizes and the cap do not change |
| `App.Start` | src/app.ts:108 | A new renderer renders exactly 400 frames and ends at time 2. It counts between `400 · 601²` and `400 · 9 · 601²` steps |

## Left out

- The DOM and canvas setup in the constructor is not modelled (src/app.ts:22-43): element lookup, canvas creation, `appendChild`, `innerWidth` and `innerHeight`. This is browser I/O. The fields `containerId`, `container`, `timeInfo`, `canvas`, `ctx`, `wW`, `wH`, `timeEl`, `iterationsEl` and `rafId` are dropped with it.
- Canvas geometry is not modelled. `fillRect` and its square of side `pixelScale` are replaced by the recorded call. `ctx.translate` is left out, since the log already uses centre-relative coordinates.
- `formatNumber` and the `innerText` writes are not modelled (src/app.ts:57-60, 97-100). They are locale formatting and UI text.
- `requestAnimationFrame` is host scheduling. `Animate` returns whether a frame is requested, and `Run` loops while it is. The constructor's call to `animate()` at src/app.ts:42 is made by `Start` after construction.
- IEEE-754 doubles are modelled as exact reals. In doubles, 400 additions of 0.005 need not give exactly 2.0. So the 400-frame count holds for the real-valued model only, and double arithmetic can give a different number of frames.
- The fields are typed `number` in the source. The model uses `real` for `w`, `h`, `pixelScale` and `time`, and `nat` for `maxIterations` and `totalIterations`. `Valid()` requires positive `w`, `h` and `pixelScale`, as the constructor sets them. The sweep's step count `Span` is defined for non-negative half extents only, and the remap needs a non-zero half extent. A zero side would make the source interval of `map` degenerate. A negative side would give an empty sweep, which the model does not cover.
- The unused `typescript` import and the commented-out colour variant are not modelled (src/app.ts:1, 85).
- App.Mandelbrot.Run: bounds the total step count of the session per frame rather than giving the exact sum over all frames. Each frame's exact count is stated by `Animate`.
