/**
 * The parabola-wave gradient: the surface is cut into 180 vertical slices,
 * and each slice is filled with the same vertical gradient band of height
 * 1.35 h, shifted up or down by a parabola whose vertex bobs and whose
 * branches widen and narrow, plus two interfering sine waves and a slow
 * global bob. A radial vignette is drawn over the result.
 *
 * The frame depends on the surface size `(w, h)`, the time `t` in [0, 1],
 * the horizontal drift `drift` in [-1, 1] and `sin`, which the model takes
 * as a parameter bounded in [-1, 1].
 */
module ParabolaWave {
  import opened Geometry

  const Slices: nat := 180

  /** A colour stop of the gradient band: its offset along the axis and its 0xAARRGGBB colour. */
  datatype ColorStop = ColorStop(offset: real, argb: bv32)

  const Stops: seq<ColorStop> := [
    ColorStop(0.00, 0xFFB0_8A00),
    ColorStop(0.55, 0xFF1A_1A1A),
    ColorStop(0.78, 0xFFE0_0000),
    ColorStop(1.00, 0xFFF0_6400)
  ]

  /** `(sin(x) + 1) / 2`: a sine value mapped into [0, 1]. */
  function Sin01(sin: real -> real, x: real): (v: real)
    requires -1.0 <= sin(x) <= 1.0
    ensures 0.0 <= v <= 1.0
    ensures sin(x) == -1.0 ==> v == 0.0
    ensures sin(x) == 1.0 ==> v == 1.0
  {
    (sin(x) + 1.0) * 0.5
  }

  // ---------------------------------------------------------------------
  // Per-frame quantities
  // ---------------------------------------------------------------------

  /** The parabola's vertex height: bobs between 0.18 h and 0.82 h. */
  function VertexY(h: real, t: real, sin: real -> real): (y: real)
    requires SineLike(sin) && h >= 0.0
    ensures 0.18 * h <= y <= 0.82 * h
  {
    Lerp(h * 0.18, h * 0.82, Sin01(sin, TwoPi * t))
  }

  /** The parabola's axis: the centre breathing by at most 6% of the width. */
  function Cx(w: real, t: real, sin: real -> real): (cx: real)
    requires SineLike(sin) && w >= 0.0
    ensures 0.44 * w <= cx <= 0.56 * w
  {
    var s := sin(TwoPi * t * 0.75);
    CentreBound(w, s);
    w * 0.5 + (w * 0.06) * s
  }

  lemma CentreBound(w: real, s: real)
    requires w >= 0.0 && -1.0 <= s <= 1.0
    ensures 0.44 * w <= w * 0.5 + (w * 0.06) * s <= 0.56 * w
  {
    MulNonneg(w, 1.0 - s);
    MulNonneg(w, 1.0 + s);
  }

  /** Curvature of the flat dome: the branches drop 0.18 h at half the width from the axis. */
  function KWide(w: real, h: real): (k: real)
    requires w > 0.0
    ensures k * Sq(w / 2.0) == h * 0.18
    ensures h >= 0.0 ==> k >= 0.0
  {
    DomeDrop(w, h * 0.18);
    (4.0 * (h * 0.18)) / Sq(w)
  }

  /** Curvature of the steep dome: the branches drop 0.72 h at half the width from the axis. */
  function KNarrow(w: real, h: real): (k: real)
    requires w > 0.0
    ensures k * Sq(w / 2.0) == h * 0.72
    ensures h >= 0.0 ==> k >= 0.0
  {
    DomeDrop(w, h * 0.72);
    (4.0 * (h * 0.72)) / Sq(w)
  }

  /** A curvature `4 * drop / w²` makes a parabola fall by `drop` at distance `w / 2` from its axis. */
  lemma DomeDrop(w: real, drop: real)
    requires w > 0.0
    ensures (4.0 * drop) / Sq(w) * Sq(w / 2.0) == drop
    ensures drop >= 0.0 ==> (4.0 * drop) / Sq(w) >= 0.0
  {
    SqIsProduct(w);
    SqIsProduct(w / 2.0);
    var q := Sq(w);
    assert Sq(w / 2.0) == q / 4.0;
    assert (4.0 * drop) / q * (q / 4.0) == drop;
    if drop >= 0.0 {
      DivNonneg(4.0 * drop, q);
    }
  }

  /** On a non-empty surface the flat dome is strictly flatter than the steep one, four times over. */
  lemma DomeCurvatures(w: real, h: real)
    requires w > 0.0 && h > 0.0
    ensures 0.0 < KWide(w, h) < KNarrow(w, h)
    ensures KNarrow(w, h) == 4.0 * KWide(w, h)
  {
    DivPositive(4.0 * (h * 0.18), Sq(w));
    DivMonotone(4.0 * (h * 0.18), 4.0 * (h * 0.72), Sq(w));
    assert (4.0 * (h * 0.72)) / Sq(w) == 4.0 * ((4.0 * (h * 0.18)) / Sq(w));
  }

  /** The current curvature moves between the flat and the steep dome, a quarter period ahead of the vertex. */
  function K(w: real, h: real, t: real, sin: real -> real): (k: real)
    requires SineLike(sin) && w > 0.0 && h >= 0.0
    ensures KWide(w, h) <= k <= KNarrow(w, h)
  {
    DomeOrder(w, h);
    Lerp(KWide(w, h), KNarrow(w, h), Sin01(sin, TwoPi * t + TwoPi * 0.25))
  }

  /** Both curvatures are non-negative and the flat one never exceeds the steep one. */
  lemma DomeOrder(w: real, h: real)
    requires w > 0.0 && h >= 0.0
    ensures 0.0 <= KWide(w, h) <= KNarrow(w, h)
  {
    DivNonneg(4.0 * (h * 0.18), Sq(w));
    DivMonotone(4.0 * (h * 0.18), 4.0 * (h * 0.72), Sq(w));
  }

  /** The slow global bob of the whole band: at most 0.08 h either way. */
  function GlobalDy(h: real, t: real, sin: real -> real): (dy: real)
    requires SineLike(sin) && h >= 0.0
    ensures -0.08 * h <= dy <= 0.08 * h
  {
    var s := sin(TwoPi * t * 0.35);
    BobBound(h, s);
    (h * 0.08) * s
  }

  lemma BobBound(h: real, s: real)
    requires h >= 0.0 && -1.0 <= s <= 1.0
    ensures -0.08 * h <= (h * 0.08) * s <= 0.08 * h
  {
    MulNonneg(h, 1.0 - s);
    MulNonneg(h, 1.0 + s);
  }

  /** The horizontal drift of every brush: at most 0.18 w either way. */
  function Dx(w: real, drift: real): (dx: real)
    requires w >= 0.0
    ensures -1.0 <= drift <= 1.0 ==> -0.18 * w <= dx <= 0.18 * w
  {
    DriftBound(w, drift);
    drift * w * 0.18
  }

  lemma DriftBound(w: real, drift: real)
    ensures w >= 0.0 && -1.0 <= drift <= 1.0 ==> -0.18 * w <= drift * w * 0.18 <= 0.18 * w
  {
    if w >= 0.0 && -1.0 <= drift <= 1.0 {
      MulNonneg(w, 1.0 - drift);
      MulNonneg(w, 1.0 + drift);
    }
  }

  /** Height of the gradient band, enough to cover every displacement. */
  function Span(h: real): real {
    h * 1.35
  }

  /** The quantities fixed for a whole frame, computed before the slice loop. */
  datatype WaveFrame = WaveFrame(vertexY: real, cx: real, k: real, dx: real, globalDy: real, t: real)

  function FrameOf(w: real, h: real, t: real, drift: real, sin: real -> real): (f: WaveFrame)
    requires SineLike(sin) && w > 0.0 && h >= 0.0
    ensures 0.18 * h <= f.vertexY <= 0.82 * h
    ensures 0.44 * w <= f.cx <= 0.56 * w
    ensures KWide(w, h) <= f.k <= KNarrow(w, h)
    ensures -0.08 * h <= f.globalDy <= 0.08 * h
    ensures -1.0 <= drift <= 1.0 ==> -0.18 * w <= f.dx <= 0.18 * w
  {
    WaveFrame(VertexY(h, t, sin), Cx(w, t, sin), K(w, h, t, sin), Dx(w, drift), GlobalDy(h, t, sin), t)
  }

  /** A frame whose quantities have the bounds `FrameOf` guarantees. */
  predicate Bounded(w: real, h: real, f: WaveFrame) {
    w > 0.0 && h >= 0.0 &&
    0.18 * h <= f.vertexY <= 0.82 * h &&
    0.44 * w <= f.cx <= 0.56 * w &&
    KWide(w, h) <= f.k <= KNarrow(w, h) &&
    -0.08 * h <= f.globalDy <= 0.08 * h
  }

  // ---------------------------------------------------------------------
  // Per-slice quantities
  // ---------------------------------------------------------------------

  function SliceW(w: real): real {
    w / Slices as real
  }

  function SliceLeft(w: real, i: int): real {
    i as real * SliceW(w)
  }

  /** The 180 slices are contiguous and exactly cover [0, w]. */
  lemma SlicesPartition(w: real)
    requires w >= 0.0
    ensures SliceLeft(w, 0) == 0.0 && SliceLeft(w, Slices) == w
    ensures forall i :: 0 <= i < Slices ==> SliceLeft(w, i) + SliceW(w) == SliceLeft(w, i + 1)
    ensures forall i :: 0 <= i < Slices ==> 0.0 <= SliceLeft(w, i) && SliceLeft(w, i) + SliceW(w) <= w
  {
    forall i | 0 <= i < Slices
      ensures SliceLeft(w, i) + SliceW(w) == SliceLeft(w, i + 1)
      ensures 0.0 <= SliceLeft(w, i) && SliceLeft(w, i) + SliceW(w) <= w
    {
      SliceInside(w, i);
    }
  }

  lemma SliceInside(w: real, i: int)
    ensures SliceLeft(w, i) + SliceW(w) == SliceLeft(w, i + 1)
    ensures w >= 0.0 && 0 <= i < Slices ==> 0.0 <= SliceLeft(w, i) && SliceLeft(w, i + 1) <= w
  {
    var sw := SliceW(w);
    assert (i + 1) as real * sw == i as real * sw + sw;
    if w < 0.0 || i < 0 || i >= Slices {
      return;
    }
    MulNonneg(i as real, sw);
    MulNonneg((Slices - i - 1) as real, sw);
    assert Slices as real * sw == w;
    assert (Slices - i - 1) as real * sw == Slices as real * sw - (i + 1) as real * sw;
  }

  /**
   * The parabola's height at abscissa `xm`, `vertexY - k * (xm - cx)^2`. With a
   * non-negative curvature the vertex is the lowest point of the dome on screen
   * (the largest y), reached only on its axis.
   */
  function ParabolaY(f: WaveFrame, xm: real): (y: real)
    ensures xm == f.cx ==> y == f.vertexY
    ensures f.k >= 0.0 ==> y <= f.vertexY
    ensures f.k > 0.0 && xm != f.cx ==> y < f.vertexY
  {
    ProductSign(f.k, Sq(xm - f.cx));
    f.vertexY - f.k * Sq(xm - f.cx)
  }

  /** Two sines of amplitudes 0.10 h and 0.05 h, at 2.4 and 1.3 periods across the width. */
  function Wave(w: real, h: real, f: WaveFrame, xm: real, sin: real -> real): (v: real)
    requires SineLike(sin) && w > 0.0 && h >= 0.0
    ensures -0.15 * h <= v <= 0.15 * h
  {
    var phase1 := TwoPi * f.t;
    var phase2 := TwoPi * f.t * 0.7;
    Interference(h, sin(phase1 + (xm / w) * TwoPi * 2.4), sin(phase2 + (xm / w) * TwoPi * 1.3))
  }

  /** The sum of the two sine samples `s1`, `s2` weighted by `a1 = 0.10 h` and `a2 = 0.05 h`: within `a1 + a2`. */
  function Interference(h: real, s1: real, s2: real): (v: real)
    requires h >= 0.0 && -1.0 <= s1 <= 1.0 && -1.0 <= s2 <= 1.0
    ensures -0.15 * h <= v <= 0.15 * h
  {
    MulNonneg(h, 1.0 - s1);
    MulNonneg(h, 1.0 + s1);
    MulNonneg(h, 1.0 - s2);
    MulNonneg(h, 1.0 + s2);
    (h * 0.10) * s1 + (h * 0.05) * s2
  }

  /**
   * Where the band of slice-centre `xm` is centred: parabola, plus wave, plus
   * global bob. On a frame with the bounds `FrameOf` guarantees, no band is
   * centred more than 0.23 h below the vertex, nor lower than 1.05 h.
   */
  function ShiftY(w: real, h: real, f: WaveFrame, xm: real, sin: real -> real): (y: real)
    requires SineLike(sin) && w > 0.0 && h >= 0.0
    ensures Bounded(w, h, f) ==> y <= f.vertexY + 0.15 * h + 0.08 * h
    ensures Bounded(w, h, f) ==> y <= 1.05 * h
  {
    DomeOrder(w, h);
    ParabolaY(f, xm) + Wave(w, h, f, xm, sin) + f.globalDy
  }

  // ---------------------------------------------------------------------
  // Draw commands
  // ---------------------------------------------------------------------

  /** A slice filled with the band's colour stops along `axis`, or the radial vignette over the whole surface. */
  datatype WaveCmd =
    | GradientSlice(clip: Rect, stops: seq<ColorStop>, axis: Axis)
    | VignetteFill(colors: seq<bv32>, center: Point, radius: real)

  /** The vignette runs from transparent at its centre to white at its rim. */
  const VignetteColors: seq<bv32> := [0x0000_0000, 0xFFFF_FFFF]

  /**
   * Slice `i`: its column of the surface, filled with the band centred on its
   * `ShiftY`. The brush is vertical at the slice's centre shifted by `dx` and
   * exactly 1.35 h long; a slice of the loop's range lies inside the surface.
   */
  function SliceCommand(w: real, h: real, f: WaveFrame, i: int, sin: real -> real): (c: WaveCmd)
    requires SineLike(sin) && w > 0.0 && h >= 0.0
    ensures c.GradientSlice? && c.stops == Stops
    ensures c.clip == Rect(SliceLeft(w, i), 0.0, SliceLeft(w, i + 1), h)
    ensures 0 <= i < Slices ==> Within(c.clip, Rect(0.0, 0.0, w, h))
    ensures c.axis.start.x == c.axis.end.x == SliceLeft(w, i) + SliceW(w) * 0.5 + f.dx
    ensures c.axis.end.y - c.axis.start.y == Span(h) == 1.35 * h
    ensures (c.axis.start.y + c.axis.end.y) * 0.5 == ShiftY(w, h, f, SliceLeft(w, i) + SliceW(w) * 0.5, sin)
  {
    SliceInside(w, i);
    var x0 := SliceLeft(w, i);
    var x1 := x0 + SliceW(w);
    var xm := (x0 + x1) * 0.5;
    assert xm == x0 + SliceW(w) * 0.5;
    var shiftY := ShiftY(w, h, f, xm, sin);
    GradientSlice(Rect(x0, 0.0, x1, h), Stops,
                  Axis(Point(xm + f.dx, shiftY - Span(h) * 0.5), Point(xm + f.dx, shiftY + Span(h) * 0.5)))
  }

  /** Slices 0..n-1 in drawing order: the j-th command is slice j's. */
  function SliceCommands(w: real, h: real, f: WaveFrame, n: nat, sin: real -> real): (cmds: seq<WaveCmd>)
    requires SineLike(sin) && w > 0.0 && h >= 0.0
    ensures |cmds| == n
    ensures forall j :: 0 <= j < n ==> cmds[j] == SliceCommand(w, h, f, j, sin)
  {
    if n == 0 then [] else SliceCommands(w, h, f, n - 1, sin) + [SliceCommand(w, h, f, n - 1, sin)]
  }

  /** The radial vignette, centred on the surface with radius 0.62 of the shorter side. */
  function Vignette(w: real, h: real): (v: WaveCmd)
    ensures v.VignetteFill? && v.colors == VignetteColors
    ensures v.center == Point(w / 2.0, h / 2.0)
    ensures v.radius == 0.62 * (if w <= h then w else h)
    ensures w > 0.0 && h > 0.0 ==> v.radius > 0.0
  {
    VignetteFill(VignetteColors, Point(w / 2.0, h / 2.0), Min(w, h) * 0.62)
  }

  /** One frame: the 180 slices left to right, then the vignette. */
  function WaveCommands(w: real, h: real, t: real, drift: real, sin: real -> real): (cmds: seq<WaveCmd>)
    requires SineLike(sin) && w > 0.0 && h >= 0.0
    ensures |cmds| == Slices + 1 && cmds[Slices] == Vignette(w, h)
    ensures forall j :: 0 <= j < Slices ==> cmds[j] == SliceCommand(w, h, FrameOf(w, h, t, drift, sin), j, sin)
  {
    SliceCommands(w, h, FrameOf(w, h, t, drift, sin), Slices, sin) + [Vignette(w, h)]
  }

  /** A slice lies inside the surface: the predicate the frame lemma quantifies. */
  predicate SliceWithin(c: WaveCmd, w: real, h: real) {
    c.GradientSlice? && Within(c.clip, Rect(0.0, 0.0, w, h)) &&
    c.axis.start.x == c.axis.end.x && c.axis.end.y - c.axis.start.y == 1.35 * h
  }

  /** Every slice of the loop lies inside the surface with a vertical brush 1.35 h long. */
  lemma SliceCommandsWithin(w: real, h: real, f: WaveFrame, n: nat, sin: real -> real)
    requires SineLike(sin) && w > 0.0 && h >= 0.0 && n <= Slices
    ensures forall j :: 0 <= j < n ==> SliceWithin(SliceCommands(w, h, f, n, sin)[j], w, h)
  {
    forall j | 0 <= j < n
      ensures SliceWithin(SliceCommands(w, h, f, n, sin)[j], w, h)
    {
      var c := SliceCommand(w, h, f, j, sin);
      assert Within(c.clip, Rect(0.0, 0.0, w, h));
    }
  }

  /** A frame is 180 vertical, fixed-length gradient slices inside the surface, then the vignette. */
  lemma FrameShape(w: real, h: real, t: real, drift: real, sin: real -> real)
    requires SineLike(sin) && w > 0.0 && h >= 0.0
    ensures var cmds := WaveCommands(w, h, t, drift, sin);
            && |cmds| == Slices + 1
            && cmds[Slices] == Vignette(w, h)
            && forall j :: 0 <= j < Slices ==> SliceWithin(cmds[j], w, h)
  {
    var f := FrameOf(w, h, t, drift, sin);
    SliceCommandsWithin(w, h, f, Slices, sin);
  }

  // ---------------------------------------------------------------------
  // Drawing a frame
  // ---------------------------------------------------------------------

  /** `onDrawBehind`: the per-frame quantities, the slice loop, then the vignette. */
  method DrawWave(w: real, h: real, t: real, drift: real, sin: real -> real) returns (cmds: seq<WaveCmd>)
    requires SineLike(sin) && w > 0.0 && h >= 0.0
    ensures cmds == WaveCommands(w, h, t, drift, sin)
    ensures |cmds| == Slices + 1
  {
    var f := FrameOf(w, h, t, drift, sin);
    cmds := DrawSlices(w, h, f, sin);
    cmds := cmds + [Vignette(w, h)];
  }

  /** The slice loop: one clipped vertical gradient per slice, left to right. */
  method DrawSlices(w: real, h: real, f: WaveFrame, sin: real -> real) returns (cmds: seq<WaveCmd>)
    requires SineLike(sin) && w > 0.0 && h >= 0.0
    ensures cmds == SliceCommands(w, h, f, Slices, sin)
  {
    var span := Span(h);
    cmds := [];
    for i := 0 to Slices
      invariant cmds == SliceCommands(w, h, f, i, sin)
    {
      var x0 := SliceLeft(w, i);
      var x1 := x0 + SliceW(w);
      var xm := (x0 + x1) * 0.5;
      var shiftY := ShiftY(w, h, f, xm, sin);
      var axis := Axis(Point(xm + f.dx, shiftY - span * 0.5), Point(xm + f.dx, shiftY + span * 0.5));
      var slice := GradientSlice(Rect(x0, 0.0, x1, h), Stops, axis);
      assert slice == SliceCommand(w, h, f, i, sin);
      cmds := cmds + [slice];
    }
  }
}
