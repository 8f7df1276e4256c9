/** The frame renderer of src/app.ts: the pixel sweep, the escape-time
    recurrence, the draw-call derivation and the per-frame state machine,
    over exact reals. The canvas is replaced by a ghost log of draw calls. */
module App {
  import opened Helpers

  /** Viewport of the complex plane onto which the pixel grid is mapped. */
  const XMin: real := -2.0
  const XMax: real := 0.47
  const YMin: real := -1.12
  const YMax: real := 1.12

  /** Animation time advance per frame, and the bound that stops the animation. */
  const TimeStep: real := 0.005
  const TimeBound: real := 2.0

  /** The one colour every pixel is drawn with. */
  const Color: string := "rgba(200,200,200,0.8)"

  /** A call of the draw primitive: position in centre-relative surface
      coordinates and a CSS colour. */
  datatype DrawCall = DrawCall(x: real, y: real, color: string)

  /** Terminal state of the escape loop of one pixel. */
  datatype EscapeState = EscapeState(xr: real, yi: real, n: nat)

  /** Integer pixel coordinates relative to the surface centre, as reals. */
  type Pixel = (real, real)

  // ---------------------------------------------------------------------
  // Escape recurrence
  // ---------------------------------------------------------------------

  /** The loop guard: still inside the radius-2 disc and under the cap. */
  predicate Continues(xr: real, yi: real, n: nat, maxIterations: nat)
  {
    xr * xr + yi * yi <= 2.0 * 2.0 && n <= maxIterations
  }

  /** The imaginary update of one step. */
  function StepYi(time: real, xr: real, yi: real, cy: real): real
  {
    time * 2.0 * xr * yi + cy
  }

  /** The real update of one step; `yi` is the imaginary part as already
      updated by the same step. */
  function StepXr(xr: real, yi: real, cx: real): real
  {
    xr * xr - yi * yi + cx
  }

  /** The escape loop run from an intermediate state (xr, yi, n). Each step
      updates the imaginary part first and feeds the new value into the real
      part. */
  function EscapeFrom(cx: real, cy: real, time: real, maxIterations: nat, xr: real, yi: real, n: nat): (e: EscapeState)
    requires n <= maxIterations + 1
    ensures n <= e.n <= maxIterations + 1
    decreases maxIterations + 1 - n
  {
    if Continues(xr, yi, n, maxIterations) then
      var yi' := StepYi(time, xr, yi, cy);
      EscapeFrom(cx, cy, time, maxIterations, StepXr(xr, yi', cx), yi', n + 1)
    else
      EscapeState(xr, yi, n)
  }

  /** The escape loop of one pixel, started from xr = yi = 0 and n = 0.
      The start state always passes the guard, so at least one step runs. */
  function Escape(cx: real, cy: real, time: real, maxIterations: nat): (e: EscapeState)
    ensures 1 <= e.n <= maxIterations + 1
  {
    EscapeFrom(cx, cy, time, maxIterations, 0.0, 0.0, 0)
  }

  /** The loop stops only in a state that fails its guard. */
  lemma {:induction false} EscapeFromExit(cx: real, cy: real, time: real, maxIterations: nat, xr: real, yi: real, n: nat)
    requires n <= maxIterations + 1
    ensures var e := EscapeFrom(cx, cy, time, maxIterations, xr, yi, n);
            !Continues(e.xr, e.yi, e.n, maxIterations)
    decreases maxIterations + 1 - n
  {
    if Continues(xr, yi, n, maxIterations) {
      var yi' := StepYi(time, xr, yi, cy);
      EscapeFromExit(cx, cy, time, maxIterations, StepXr(xr, yi', cx), yi', n + 1);
    }
  }

  /** The loop exits only when the point has escaped (squared modulus above
      4) or the step cap is reached. */
  lemma EscapeExit(cx: real, cy: real, time: real, maxIterations: nat)
    ensures var e := Escape(cx, cy, time, maxIterations);
            e.xr * e.xr + e.yi * e.yi > 4.0 || e.n == maxIterations + 1
  {
    EscapeFromExit(cx, cy, time, maxIterations, 0.0, 0.0, 0);
  }

  /** The first step gives yi == cy and, because the real update reads the
      already updated yi, xr == cx - cy * cy. */
  lemma EscapeFirstStep(cx: real, cy: real, time: real, maxIterations: nat)
    ensures Escape(cx, cy, time, maxIterations)
            == EscapeFrom(cx, cy, time, maxIterations, cx - cy * cy, cy, 1)
  {
    assert Continues(0.0, 0.0, 0, maxIterations);
    assert StepYi(time, 0.0, 0.0, cy) == cy;
    assert StepXr(0.0, cy, cx) == cx - cy * cy;
  }

  /** From the origin with c == 0 the iterate stays at the origin, so the loop
      runs until the cap. */
  lemma {:induction false} EscapeAtOriginFrom(time: real, maxIterations: nat, n: nat)
    requires n <= maxIterations + 1
    ensures EscapeFrom(0.0, 0.0, time, maxIterations, 0.0, 0.0, n) == EscapeState(0.0, 0.0, maxIterations + 1)
    decreases maxIterations + 1 - n
  {
    if n <= maxIterations {
      assert Continues(0.0, 0.0, n, maxIterations);
      EscapeAtOriginFrom(time, maxIterations, n + 1);
    }
  }

  lemma EscapeAtOrigin(time: real, maxIterations: nat)
    ensures Escape(0.0, 0.0, time, maxIterations) == EscapeState(0.0, 0.0, maxIterations + 1)
  {
    EscapeAtOriginFrom(time, maxIterations, 0);
  }

  // ---------------------------------------------------------------------
  // Pixel sweep
  // ---------------------------------------------------------------------

  /** Half the number of grid cells along a surface dimension `d`. */
  function HalfExtent(d: real, pixelScale: real): real
    requires pixelScale != 0.0
  {
    (d / pixelScale) * 0.5
  }

  lemma HalfExtentPositive(d: real, pixelScale: real)
    requires d > 0.0 && pixelScale > 0.0
    ensures HalfExtent(d, pixelScale) > 0.0
  {
  }

  /** The value a sweep loop variable holds after k steps: it starts at -s
      and each step adds one. */
  function Cell(s: real, k: nat): real
  {
    if k == 0 then -s else Cell(s, k - 1) + 1.0
  }

  lemma {:induction false} CellValue(s: real, k: nat)
    ensures Cell(s, k) == -s + k as real
  {
    if k > 0 {
      CellValue(s, k - 1);
    }
  }

  /** Number of values -s, -s + 1, -s + 2, ... that are at most s: the
      step count at which a sweep loop's guard first fails. */
  ghost function Span(s: real): (k: nat)
    requires s >= 0.0
    ensures 0 < k && Cell(s, k - 1) <= s < Cell(s, k)
  {
    var f := (2.0 * s).Floor + 1;
    CellValue(s, f - 1);
    CellValue(s, f);
    var k: nat :| 0 < k && Cell(s, k - 1) <= s < Cell(s, k); k
  }

  /** The sweep's loop guard holds exactly for the first Span(s) steps. */
  lemma SpanGuard(s: real, i: nat)
    requires s >= 0.0
    ensures Cell(s, i) <= s <==> i < Span(s)
  {
    var k := Span(s);
    CellValue(s, i);
    CellValue(s, k - 1);
    CellValue(s, k);
  }

  /** A whole half extent n gives 2n + 1 values -n, ..., n. */
  lemma SpanWhole(s: real, n: nat)
    requires s == n as real
    ensures Span(s) == 2 * n + 1
  {
    var k := Span(s);
    CellValue(s, k - 1);
    CellValue(s, k);
  }

  /** Span(s) in closed form: floor(2s) + 1. */
  lemma SpanFloor(s: real)
    requires s >= 0.0
    ensures Span(s) == (2.0 * s).Floor + 1
  {
    var k := Span(s);
    CellValue(s, k - 1);
    CellValue(s, k);
  }

  /** The inner sweep over y for one column x: its first k pixels. */
  function Column(x: real, sH: real, k: nat): seq<Pixel>
  {
    if k == 0 then [] else Column(x, sH, k - 1) + [(x, Cell(sH, k - 1))]
  }

  /** The outer sweep over x: its first k full columns. */
  ghost function Columns(sW: real, sH: real, k: nat): seq<Pixel>
    requires sH >= 0.0
  {
    if k == 0 then [] else Columns(sW, sH, k - 1) + Column(Cell(sW, k - 1), sH, Span(sH))
  }

  /** All pixels of one frame, in the order they are drawn. */
  ghost function SweepPixels(sW: real, sH: real): seq<Pixel>
    requires sW >= 0.0 && sH >= 0.0
  {
    Columns(sW, sH, Span(sW))
  }

  lemma {:induction false} ColumnAt(x: real, sH: real, k: nat)
    ensures |Column(x, sH, k)| == k
    ensures forall j :: 0 <= j < k ==> Column(x, sH, k)[j] == (x, -sH + j as real)
  {
    if k > 0 {
      ColumnAt(x, sH, k - 1);
      CellValue(sH, k - 1);
    }
  }

  /** Row-major index arithmetic: cell (i, j) of a grid with `ny` cells per
      column lies before the start of column m whenever i < m. */
  lemma IndexBefore(i: nat, j: nat, m: nat, ny: nat)
    requires i < m && j < ny
    ensures i * ny + j < m * ny
  {
    assert (i + 1) * ny == i * ny + ny;
    assert (i + 1) * ny <= m * ny;
  }

  lemma {:induction false} ColumnsLength(sW: real, sH: real, k: nat)
    requires sH >= 0.0
    ensures |Columns(sW, sH, k)| == k * Span(sH)
  {
    if k > 0 {
      ColumnsLength(sW, sH, k - 1);
      ColumnAt(Cell(sW, k - 1), sH, Span(sH));
      assert (k - 1) * Span(sH) + Span(sH) == k * Span(sH);
    }
  }

  /** Pixel (i, j) of the grid sits at index i * Span(sH) + j of the sweep. */
  lemma {:induction false} ColumnsAt(sW: real, sH: real, k: nat, i: nat, j: nat)
    requires sH >= 0.0
    requires i < k && j < Span(sH)
    ensures |Columns(sW, sH, k)| == k * Span(sH)
    ensures i * Span(sH) + j < |Columns(sW, sH, k)|
    ensures Columns(sW, sH, k)[i * Span(sH) + j] == GridPixel(sW, sH, i, j)
  {
    var ny := Span(sH);
    var prefix := Columns(sW, sH, k - 1);
    var column := Column(Cell(sW, k - 1), sH, ny);
    ColumnsLength(sW, sH, k);
    ColumnsLength(sW, sH, k - 1);
    ColumnAt(Cell(sW, k - 1), sH, ny);
    CellValue(sW, k - 1);
    IndexBefore(i, j, k, ny);
    var idx := i * ny + j;
    if i == k - 1 {
      assert idx == |prefix| + j;
      assert (prefix + column)[idx] == column[j];
    } else {
      IndexBefore(i, j, k - 1, ny);
      ColumnsAt(sW, sH, k - 1, i, j);
      assert (prefix + column)[idx] == prefix[idx];
    }
  }

  /** Row-major position of grid cell (i, j) when a column holds `ny` cells. */
  function GridIndex(i: nat, j: nat, ny: nat): nat
  {
    i * ny + j
  }

  /** Grid cell (i, j) in centre-relative pixel coordinates. */
  function GridPixel(sW: real, sH: real, i: nat, j: nat): Pixel
  {
    (-sW + i as real, -sH + j as real)
  }

  /** The sweep has Span(sW) * Span(sH) entries, grid cell (i, j) is entry
      GridIndex(i, j, Span(sH)), and no pixel is visited twice. */
  lemma SweepCoverage(sW: real, sH: real)
    requires sW >= 0.0 && sH >= 0.0
    ensures |SweepPixels(sW, sH)| == Span(sW) * Span(sH)
    ensures forall i: nat, j: nat :: i < Span(sW) && j < Span(sH) ==>
              GridIndex(i, j, Span(sH)) < |SweepPixels(sW, sH)| &&
              SweepPixels(sW, sH)[GridIndex(i, j, Span(sH))] == GridPixel(sW, sH, i, j)
    ensures forall a, b :: 0 <= a < b < |SweepPixels(sW, sH)| ==> SweepPixels(sW, sH)[a] != SweepPixels(sW, sH)[b]
  {
    var nx, ny := Span(sW), Span(sH);
    var ps := SweepPixels(sW, sH);
    ColumnsLength(sW, sH, nx);
    forall i: nat, j: nat | i < nx && j < ny
      ensures GridIndex(i, j, ny) < |ps| && ps[GridIndex(i, j, ny)] == GridPixel(sW, sH, i, j)
    {
      ColumnsAt(sW, sH, nx, i, j);
    }
    forall a, b | 0 <= a < b < |ps|
      ensures ps[a] != ps[b]
    {
      SweepEntry(sW, sH, a);
      SweepEntry(sW, sH, b);
    }
  }

  lemma MulMonotone(a: nat, b: nat, c: nat)
    requires a <= b
    ensures a * c <= b * c
  {
  }

  /** Entry k of the sweep is the grid cell (k / Span(sH), k % Span(sH)). */
  lemma SweepEntry(sW: real, sH: real, k: nat)
    requires sW >= 0.0 && sH >= 0.0
    requires k < Span(sW) * Span(sH)
    ensures k == GridIndex(k / Span(sH), k % Span(sH), Span(sH))
    ensures |SweepPixels(sW, sH)| == Span(sW) * Span(sH)
    ensures SweepPixels(sW, sH)[k] == GridPixel(sW, sH, k / Span(sH), k % Span(sH))
  {
    var nx, ny := Span(sW), Span(sH);
    var i, j := k / ny, k % ny;
    assert k == i * ny + j;
    assert i < nx by {
      if nx <= i {
        MulMonotone(nx, i, ny);
      }
    }
    ColumnsAt(sW, sH, nx, i, j);
  }

  /** The last entry of the sweep is the last grid cell. */
  lemma SweepLast(sW: real, sH: real)
    requires sW >= 0.0 && sH >= 0.0
    ensures |SweepPixels(sW, sH)| == Span(sW) * Span(sH)
    ensures SweepPixels(sW, sH)[|SweepPixels(sW, sH)| - 1] == GridPixel(sW, sH, Span(sW) - 1, Span(sH) - 1)
  {
    var nx, ny := Span(sW), Span(sH);
    ColumnsAt(sW, sH, nx, nx - 1, ny - 1);
    assert (nx - 1) * ny + (ny - 1) == nx * ny - 1;
  }

  // ---------------------------------------------------------------------
  // Draw calls and iteration counts of one frame
  // ---------------------------------------------------------------------

  /** The escape state of a pixel: its coordinates are remapped onto the
      viewport and the recurrence is run with the object's time. */
  function PixelEscape(p: Pixel, sW: real, sH: real, time: real, maxIterations: nat): EscapeState
    requires sW != 0.0 && sH != 0.0
  {
    Escape(Map(p.0, -sW, sW, XMin, XMax), Map(p.1, -sH, sH, YMin, YMax), time, maxIterations)
  }

  /** Horizontal draw position: the cube of the final imaginary part,
      scaled by 700 and by the time `t` passed to the frame. */
  function DrawX(yi: real, t: real): real
  {
    yi * yi * yi * 700.0 * t
  }

  /** Vertical draw position: minus the cube of the final real part,
      scaled by 700 and by `t`. */
  function DrawY(xr: real, t: real): real
  {
    -1.0 * xr * xr * xr * 700.0 * t
  }

  /** The draw call derived from a terminal escape state. */
  function PixelCall(e: EscapeState, t: real): DrawCall
  {
    DrawCall(DrawX(e.yi, t), DrawY(e.xr, t), Color)
  }

  /** The draw calls issued for a sequence of pixels, one per pixel. */
  function Calls(ps: seq<Pixel>, sW: real, sH: real, time: real, maxIterations: nat, t: real): (cs: seq<DrawCall>)
    requires sW != 0.0 && sH != 0.0
    ensures |cs| == |ps|
    ensures forall k :: 0 <= k < |ps| ==> cs[k].color == Color
  {
    seq(|ps|, k requires 0 <= k < |ps| => PixelCall(PixelEscape(ps[k], sW, sH, time, maxIterations), t))
  }

  lemma CallsAppend(ps: seq<Pixel>, p: Pixel, sW: real, sH: real, time: real, maxIterations: nat, t: real)
    requires sW != 0.0 && sH != 0.0
    ensures Calls(ps + [p], sW, sH, time, maxIterations, t)
            == Calls(ps, sW, sH, time, maxIterations, t) + [PixelCall(PixelEscape(p, sW, sH, time, maxIterations), t)]
  {
  }

  /** The draw call of grid cell (i, j): it is entry GridIndex(i, j, Span(sH))
      of the frame, its position is (yi³ · 700 · t, -xr³ · 700 · t) for the
      final escape state of that cell's remapped coordinates, and its colour
      is the fixed one. */
  lemma FrameCallOfCell(sW: real, sH: real, time: real, maxIterations: nat, t: real, i: nat, j: nat)
    requires sW > 0.0 && sH > 0.0
    requires i < Span(sW) && j < Span(sH)
    ensures var cs := Calls(SweepPixels(sW, sH), sW, sH, time, maxIterations, t);
            var e := Escape(Map(-sW + i as real, -sW, sW, XMin, XMax), Map(-sH + j as real, -sH, sH, YMin, YMax), time, maxIterations);
            GridIndex(i, j, Span(sH)) < |cs| &&
            cs[GridIndex(i, j, Span(sH))] == DrawCall(e.yi * e.yi * e.yi * 700.0 * t, -1.0 * e.xr * e.xr * e.xr * 700.0 * t, Color)
  {
    SweepCoverage(sW, sH);
  }

  /** Total recurrence steps taken over a sequence of pixels. */
  function Iterations(ps: seq<Pixel>, sW: real, sH: real, time: real, maxIterations: nat): nat
    requires sW != 0.0 && sH != 0.0
  {
    if ps == [] then 0
    else Iterations(ps[..|ps| - 1], sW, sH, time, maxIterations) + PixelEscape(ps[|ps| - 1], sW, sH, time, maxIterations).n
  }

  /** Every pixel costs between 1 and maxIterations + 1 steps. */
  lemma {:induction false} IterationsBounds(ps: seq<Pixel>, sW: real, sH: real, time: real, maxIterations: nat)
    requires sW != 0.0 && sH != 0.0
    ensures |ps| <= Iterations(ps, sW, sH, time, maxIterations) <= (maxIterations + 1) * |ps|
  {
    if ps != [] {
      var k := |ps| - 1;
      IterationsBounds(ps[..k], sW, sH, time, maxIterations);
      assert (maxIterations + 1) * k + (maxIterations + 1) == (maxIterations + 1) * |ps|;
    }
  }

  lemma IterationsAppend(ps: seq<Pixel>, p: Pixel, sW: real, sH: real, time: real, maxIterations: nat)
    requires sW != 0.0 && sH != 0.0
    ensures Iterations(ps + [p], sW, sH, time, maxIterations)
            == Iterations(ps, sW, sH, time, maxIterations) + PixelEscape(p, sW, sH, time, maxIterations).n
  {
  }

  /** One step of the inner sweep: the next pixel's call and step count
      follow those of the pixels already drawn in the column. */
  lemma ColumnStep(x: real, sW: real, sH: real, j: nat, time: real, maxIterations: nat, t: real)
    requires sW != 0.0 && sH != 0.0
    ensures Calls(Column(x, sH, j + 1), sW, sH, time, maxIterations, t)
            == Calls(Column(x, sH, j), sW, sH, time, maxIterations, t)
               + [PixelCall(PixelEscape((x, Cell(sH, j)), sW, sH, time, maxIterations), t)]
    ensures Iterations(Column(x, sH, j + 1), sW, sH, time, maxIterations)
            == Iterations(Column(x, sH, j), sW, sH, time, maxIterations)
               + PixelEscape((x, Cell(sH, j)), sW, sH, time, maxIterations).n
  {
    CallsAppend(Column(x, sH, j), (x, Cell(sH, j)), sW, sH, time, maxIterations, t);
    IterationsAppend(Column(x, sH, j), (x, Cell(sH, j)), sW, sH, time, maxIterations);
  }

  /** One step of the outer sweep: the next column's calls and step counts
      follow those of the columns already drawn. */
  lemma ColumnsStep(x: real, sW: real, sH: real, i: nat, time: real, maxIterations: nat, t: real)
    requires sW != 0.0 && sH > 0.0
    requires x == Cell(sW, i)
    ensures Calls(Columns(sW, sH, i + 1), sW, sH, time, maxIterations, t)
            == Calls(Columns(sW, sH, i), sW, sH, time, maxIterations, t)
               + Calls(Column(x, sH, Span(sH)), sW, sH, time, maxIterations, t)
    ensures Iterations(Columns(sW, sH, i + 1), sW, sH, time, maxIterations)
            == Iterations(Columns(sW, sH, i), sW, sH, time, maxIterations)
               + Iterations(Column(x, sH, Span(sH)), sW, sH, time, maxIterations)
  {
    var column := Column(x, sH, Span(sH));
    CallsConcat(Columns(sW, sH, i), column, sW, sH, time, maxIterations, t);
    IterationsConcat(Columns(sW, sH, i), column, sW, sH, time, maxIterations);
  }

  lemma CallsConcat(ps: seq<Pixel>, qs: seq<Pixel>, sW: real, sH: real, time: real, maxIterations: nat, t: real)
    requires sW != 0.0 && sH != 0.0
    ensures Calls(ps + qs, sW, sH, time, maxIterations, t)
            == Calls(ps, sW, sH, time, maxIterations, t) + Calls(qs, sW, sH, time, maxIterations, t)
  {
  }

  /** The step count of a sweep split in two is the sum of the counts of the parts. */
  lemma {:induction false} IterationsConcat(ps: seq<Pixel>, qs: seq<Pixel>, sW: real, sH: real, time: real, maxIterations: nat)
    requires sW != 0.0 && sH != 0.0
    ensures Iterations(ps + qs, sW, sH, time, maxIterations)
            == Iterations(ps, sW, sH, time, maxIterations) + Iterations(qs, sW, sH, time, maxIterations)
  {
    if qs != [] {
      var last := |qs| - 1;
      assert ps + qs == (ps + qs[..last]) + [qs[last]];
      assert qs == qs[..last] + [qs[last]];
      IterationsConcat(ps, qs[..last], sW, sH, time, maxIterations);
      IterationsAppend(ps + qs[..last], qs[last], sW, sH, time, maxIterations);
      IterationsAppend(qs[..last], qs[last], sW, sH, time, maxIterations);
    } else {
      assert ps + qs == ps;
    }
  }

  /** The animation time after k frames from time t0. */
  function TimeAfter(t0: real, k: nat): real
  {
    t0 + k as real * TimeStep
  }

  /** The number of frames rendered from time t0 on: the least k >= 1 with
      TimeAfter(t0, k) >= TimeBound. */
  function FramesFrom(t0: real): (k: nat)
    ensures k >= 1
    ensures TimeAfter(t0, k) >= TimeBound
    ensures forall j: nat :: 1 <= j < k ==> TimeAfter(t0, j) < TimeBound
  {
    var c := -((t0 - TimeBound) / TimeStep).Floor;
    if c <= 1 then 1 else c
  }

  /** Starting from time 0, exactly 400 frames are rendered. */
  lemma FramesFromZero()
    ensures FramesFrom(0.0) == 400
  {
  }

  /** A reference side of 600 at pixel scale 1 has half extent 300. */
  lemma ReferenceHalfExtent()
    ensures HalfExtent(600.0, 1.0) == 300.0
  {
  }

  /** The reference surface, half extents 300 each way, is swept in
      601 x 601 pixels. */
  lemma ReferenceSweep(sW: real, sH: real)
    requires sW == 300.0 && sH == 300.0
    ensures Span(sW) == 601 && Span(sH) == 601
    ensures |SweepPixels(sW, sH)| == 601 * 601
  {
    SpanWhole(sW, 300);
    SpanWhole(sH, 300);
    ColumnsLength(sW, sH, 601);
  }

  /** On the reference surface the last grid cell is the corner pixel
      (300, 300), and grid cell (300, 300) is the centre pixel (0, 0). */
  lemma ReferenceCorners()
    ensures GridPixel(300.0, 300.0, Span(300.0) - 1, Span(300.0) - 1) == (300.0, 300.0)
    ensures GridPixel(300.0, 300.0, 300, 300) == (0.0, 0.0)
  {
    SpanWhole(300.0, 300);
  }

  /** On the reference surface the corner pixel (300, 300) maps onto the
      viewport's maximum corner (0.47, 1.12) and the centre pixel (0, 0)
      onto the viewport's centre (-0.765, 0). */
  lemma ReferenceRemap()
    ensures Map(300.0, -300.0, 300.0, XMin, XMax) == 0.47 && Map(300.0, -300.0, 300.0, YMin, YMax) == 1.12
    ensures Map(0.0, -300.0, 300.0, XMin, XMax) == -0.765 && Map(0.0, -300.0, 300.0, YMin, YMax) == 0.0
  {
    MapMidpoint(300.0, XMin, XMax);
    MapMidpoint(300.0, YMin, YMax);
  }

  // ---------------------------------------------------------------------
  // The renderer
  // ---------------------------------------------------------------------

  class Mandelbrot {
    var w: real
    var h: real
    var pixelScale: real
    var maxIterations: nat
    var time: real
    var totalIterations: nat
    /** What has been drawn on the surface since its last reset. */
    ghost var drawn: seq<DrawCall>

    ghost predicate Valid()
      reads this`w, this`h, this`pixelScale
    {
      w > 0.0 && h > 0.0 && pixelScale > 0.0
    }

    function HalfW(): real
      reads this`w, this`h, this`pixelScale
      requires Valid()
    {
      HalfExtent(w, pixelScale)
    }

    function HalfH(): real
      reads this`w, this`h, this`pixelScale
      requires Valid()
    {
      HalfExtent(h, pixelScale)
    }

    /** The pixels swept by one frame. */
    ghost function FramePixels(): seq<Pixel>
      reads this`w, this`h, this`pixelScale
      requires Valid()
    {
      SweepPixels(HalfW(), HalfH())
    }

    /** The draw calls of one frame whose positions are scaled by `t`. */
    ghost function FrameCalls(t: real): seq<DrawCall>
      reads this`w, this`h, this`pixelScale, this`time, this`maxIterations
      requires Valid()
    {
      Calls(FramePixels(), HalfW(), HalfH(), time, maxIterations, t)
    }

    /** The recurrence steps one frame takes. */
    ghost function FrameIterations(): nat
      reads this`w, this`h, this`pixelScale, this`time, this`maxIterations
      requires Valid()
    {
      Iterations(FramePixels(), HalfW(), HalfH(), time, maxIterations)
    }

    /** Surface and counter setup with the reference constants; the
        surface itself is not modelled. */
    constructor ()
      ensures Valid()
      ensures w == 600.0 && h == 600.0 && pixelScale == 1.0 && maxIterations == 8
      ensures time == 0.0 && totalIterations == 0 && drawn == []
    {
      w, h := 600.0, 600.0;
      pixelScale := 1.0;
      maxIterations := 8;
      time := 0.0;
      totalIterations := 0;
      drawn := [];
    }

    /** The draw primitive: records the call. */
    method DrawPixel(x: real, y: real, c: string)
      modifies this`drawn
      ensures drawn == old(drawn) + [DrawCall(x, y, c)]
    {
      drawn := drawn + [DrawCall(x, y, c)];
    }

    /** The surface reset primitive: clears everything drawn so far. */
    method Reset()
      modifies this`drawn
      ensures drawn == []
    {
      drawn := [];
    }

    /** The work of the sweep for one pixel (x, y): remaps it onto the
        viewport, runs its escape loop with the object's time, adds every
        step to the counter, and draws it at a position scaled by `t`. */
    method DrawPoint(x: real, y: real, sPixelsW: real, sPixelsH: real, t: real)
      requires sPixelsW > 0.0 && sPixelsH > 0.0
      modifies this`totalIterations, this`drawn
      ensures drawn == old(drawn) + [PixelCall(PixelEscape((x, y), sPixelsW, sPixelsH, time, maxIterations), t)]
      ensures totalIterations == old(totalIterations) + PixelEscape((x, y), sPixelsW, sPixelsH, time, maxIterations).n
    {
      var remapX := Map(x, -sPixelsW, sPixelsW, XMin, XMax);
      var remapY := Map(y, -sPixelsH, sPixelsH, YMin, YMax);

      var n: nat := 0;
      var xr: real := 0.0;
      var yi: real := 0.0;

      while xr * xr + yi * yi <= 2.0 * 2.0 && n <= maxIterations
        invariant n <= maxIterations + 1
        invariant EscapeFrom(remapX, remapY, time, maxIterations, xr, yi, n) == Escape(remapX, remapY, time, maxIterations)
        invariant totalIterations == old(totalIterations) + n
        modifies this`totalIterations
        decreases maxIterations + 1 - n
      {
        yi := StepYi(time, xr, yi, remapY);
        xr := StepXr(xr, yi, remapX);
        n := n + 1;
        totalIterations := totalIterations + 1;
      }

      DrawPixel(DrawX(yi, t), DrawY(xr, t), Color);
    }

    /** One column of the sweep: the inner loop over y for a fixed x,
        running DrawPoint on every pixel of the column. */
    method DrawColumn(x: real, sPixelsW: real, sPixelsH: real, t: real)
      requires sPixelsW > 0.0 && sPixelsH > 0.0
      modifies this`totalIterations, this`drawn
      ensures drawn == old(drawn) + Calls(Column(x, sPixelsH, Span(sPixelsH)), sPixelsW, sPixelsH, time, maxIterations, t)
      ensures totalIterations == old(totalIterations) + Iterations(Column(x, sPixelsH, Span(sPixelsH)), sPixelsW, sPixelsH, time, maxIterations)
    {
      ghost var j: nat := 0;
      var y := -sPixelsH;
      while y <= sPixelsH
        invariant j <= Span(sPixelsH) && y == Cell(sPixelsH, j)
        invariant drawn == old(drawn) + Calls(Column(x, sPixelsH, j), sPixelsW, sPixelsH, time, maxIterations, t)
        invariant totalIterations == old(totalIterations) + Iterations(Column(x, sPixelsH, j), sPixelsW, sPixelsH, time, maxIterations)
        decreases Span(sPixelsH) - j
      {
        SpanGuard(sPixelsH, j);
        ColumnStep(x, sPixelsW, sPixelsH, j, time, maxIterations, t);
        DrawPoint(x, y, sPixelsW, sPixelsH, t);
        j := j + 1;
        y := y + 1.0;
      }
      SpanGuard(sPixelsH, j);
    }

    /** The outer sweep of a frame: columns x = -sPixelsW, -sPixelsW + 1,
        ... while x <= sPixelsW, each drawn by DrawColumn. */
    method Sweep(sPixelsW: real, sPixelsH: real, t: real)
      requires sPixelsW > 0.0 && sPixelsH > 0.0
      modifies this`totalIterations, this`drawn
      ensures drawn == old(drawn) + Calls(SweepPixels(sPixelsW, sPixelsH), sPixelsW, sPixelsH, time, maxIterations, t)
      ensures totalIterations == old(totalIterations) + Iterations(SweepPixels(sPixelsW, sPixelsH), sPixelsW, sPixelsH, time, maxIterations)
    {
      ghost var i: nat := 0;
      var x := -sPixelsW;
      while x <= sPixelsW
        invariant i <= Span(sPixelsW) && x == Cell(sPixelsW, i)
        invariant drawn == old(drawn) + Calls(Columns(sPixelsW, sPixelsH, i), sPixelsW, sPixelsH, time, maxIterations, t)
        invariant totalIterations == old(totalIterations) + Iterations(Columns(sPixelsW, sPixelsH, i), sPixelsW, sPixelsH, time, maxIterations)
        decreases Span(sPixelsW) - i
      {
        SpanGuard(sPixelsW, i);
        ColumnsStep(x, sPixelsW, sPixelsH, i, time, maxIterations, t);
        DrawColumn(x, sPixelsW, sPixelsH, t);
        i := i + 1;
        x := x + 1.0;
      }
      SpanGuard(sPixelsW, i);
    }

    /** Renders one frame: derives the half extents of the pixel grid from
        the surface size and the pixel scale, then sweeps the grid. */
    method Draw(t: real)
      requires Valid()
      modifies this`totalIterations, this`drawn
      ensures drawn == old(drawn) + FrameCalls(t)
      ensures totalIterations == old(totalIterations) + FrameIterations()
    {
      var sPixelsW := HalfExtent(w, pixelScale);
      var sPixelsH := HalfExtent(h, pixelScale);
      HalfExtentPositive(w, pixelScale);
      HalfExtentPositive(h, pixelScale);
      Sweep(sPixelsW, sPixelsH, t);
    }

    /** One animation frame: advances the time by TimeStep, resets the
        surface, renders the frame with the new time, and requests another
        frame exactly when the new time is still below TimeBound. */
    method Animate() returns (requestNext: bool)
      requires Valid()
      modifies this`time, this`totalIterations, this`drawn
      ensures Valid()
      ensures w == old(w) && h == old(h) && pixelScale == old(pixelScale) && maxIterations == old(maxIterations)
      ensures time == old(time) + TimeStep
      ensures drawn == FrameCalls(time)
      ensures totalIterations == old(totalIterations) + FrameIterations()
      ensures requestNext <==> time < TimeBound
    {
      time := time + TimeStep;
      Reset();
      Draw(time);
      requestNext := time < TimeBound;
    }

    /** Every frame takes between one and maxIterations + 1 steps per pixel. */
    lemma FrameIterationsBounds()
      requires Valid()
      ensures |FramePixels()| <= FrameIterations() <= (maxIterations + 1) * |FramePixels()|
    {
      HalfExtentPositive(w, pixelScale);
      HalfExtentPositive(h, pixelScale);
      IterationsBounds(FramePixels(), HalfW(), HalfH(), time, maxIterations);
    }

    /** The chain of frames: each frame that requests a successor is
        followed by another, until one does not. Returns how many frames
        were rendered. */
    method Run() returns (frames: nat)
      requires Valid()
      modifies this`time, this`totalIterations, this`drawn
      ensures Valid()
      ensures w == old(w) && h == old(h) && pixelScale == old(pixelScale) && maxIterations == old(maxIterations)
      ensures frames == FramesFrom(old(time))
      ensures time == TimeAfter(old(time), frames) && time >= TimeBound
      ensures drawn == FrameCalls(time)
      ensures old(totalIterations) + frames * |FramePixels()| <= totalIterations
      ensures totalIterations <= old(totalIterations) + frames * ((maxIterations + 1) * |FramePixels()|)
    {
      ghost var t0 := time;
      ghost var pixels := |FramePixels()|;
      ghost var perFrame := (maxIterations + 1) * pixels;
      FrameIterationsBounds();
      var more := Animate();
      frames := 1;
      FrameIterationsBounds();
      while more
        invariant Valid()
        invariant w == old(w) && h == old(h) && pixelScale == old(pixelScale) && maxIterations == old(maxIterations)
        invariant 1 <= frames <= FramesFrom(t0)
        invariant time == TimeAfter(t0, frames)
        invariant more <==> time < TimeBound
        invariant drawn == FrameCalls(time)
        invariant |FramePixels()| == pixels
        invariant old(totalIterations) + frames * pixels <= totalIterations
        invariant totalIterations <= old(totalIterations) + frames * perFrame
        decreases FramesFrom(t0) - frames
      {
        ghost var before := totalIterations;
        more := Animate();
        FrameIterationsBounds();
        assert before + pixels <= totalIterations <= before + perFrame;
        assert (frames + 1) * pixels == frames * pixels + pixels;
        assert (frames + 1) * perFrame == frames * perFrame + perFrame;
        frames := frames + 1;
      }
    }
  }

  /** The per-frame step bounds of a session, instantiated for the
      reference renderer: 400 frames of 601 x 601 pixels with at most
      9 steps each. */
  lemma ReferenceSession(w: real, h: real, pixelScale: real, maxIterations: nat, frames: nat, total: nat)
    requires w == 600.0 && h == 600.0 && pixelScale == 1.0 && maxIterations == 8 && frames == 400
    requires frames * |SweepPixels(HalfExtent(w, pixelScale), HalfExtent(h, pixelScale))| <= total
    requires total <= frames * ((maxIterations + 1) * |SweepPixels(HalfExtent(w, pixelScale), HalfExtent(h, pixelScale))|)
    ensures 400 * (601 * 601) <= total <= 400 * (9 * (601 * 601))
  {
    ReferenceHalfExtent();
    ReferenceSweep(HalfExtent(w, pixelScale), HalfExtent(h, pixelScale));
  }

  /** The renderer as the page creates it: construction, then the chain of
      frames that the constructor starts. From time 0 it renders exactly 400
      frames of 601 x 601 pixels each. */
  method Start() returns (m: Mandelbrot, frames: nat)
    ensures fresh(m) && m.Valid()
    ensures frames == 400
    ensures m.time == TimeBound
    ensures 400 * (601 * 601) <= m.totalIterations <= 400 * (9 * (601 * 601))
  {
    m := new Mandelbrot();
    frames := m.Run();
    FramesFromZero();
    ReferenceSession(m.w, m.h, m.pixelScale, m.maxIterations, frames, m.totalIterations);
  }
}
