/**
 * The parabolic-mask gradient carousel: a circle filled with the current
 * palette's linear gradient, over which the next palette is revealed from
 * the top down behind a parabolic boundary that narrows and descends as the
 * sweep progress `u` runs from 0 to 1. The boundary is drawn as 280 vertical
 * slices, each a hard clip rectangle followed by 9 feather bands and 12 glow
 * bands. After each sweep the palette index advances by one, modulo 6.
 */
module Carousel {
  import opened Geometry

  // ---------------------------------------------------------------------
  // Palettes
  // ---------------------------------------------------------------------

  /** A colour as a packed 0xAARRGGBB word. */
  type Argb = bv32
  type Palette = seq<Argb>

  const Palettes: seq<Palette> := [
    [0xFFFF_FFFF, 0xFFFF_D8A0, 0xFFFF_7A00, 0xFF7A_1400],
    [0xFFFF_FFFF, 0xFFEF_E7B0, 0xFF6A_6A00, 0xFF1A_1A1A],
    [0xFFFF_FFFF, 0xFFFF_E9B8, 0xFFFF_3D00, 0xFF4A_0A00],
    [0xFFFF_FFFF, 0xFFD7_F0FF, 0xFF40_C4FF, 0xFF00_3A66],
    [0xFFFF_FFFF, 0xFFE7_E1FF, 0xFF7C_4DFF, 0xFF1A_0033],
    [0xFFFF_FFFF, 0xFFDF_F7E8, 0xFF69_F0AE, 0xFF00_3319]
  ]

  /** Every palette has four fully opaque colours and starts at white. */
  lemma PalettesOpaque()
    ensures |Palettes| == 6
    ensures forall p :: 0 <= p < |Palettes| ==>
      |Palettes[p]| == 4 && Palettes[p][0] == 0xFFFF_FFFF &&
      forall c :: 0 <= c < 4 ==> Palettes[p][c] & 0xFF00_0000 == 0xFF00_0000
  {
  }

  /** The palette index after one completed sweep, `(curIdx + 1) % palettes.size`. */
  function NextIndex(i: nat): (j: nat)
    ensures j < |Palettes|
    ensures i + 1 < |Palettes| ==> j == i + 1
    ensures i + 1 == |Palettes| ==> j == 0
  {
    (i + 1) % |Palettes|
  }

  /** The palette index after `n` completed sweeps that started at index `i`. */
  function IndexAfter(i: nat, n: nat): nat {
    if n == 0 then i else NextIndex(IndexAfter(i, n - 1))
  }

  /** Repeated sweeps visit the palettes cyclically: 0, 1, 2, 3, 4, 5, 0, 1, ... */
  lemma {:induction false} IndexAfterCycles(i: nat, n: nat)
    requires i < |Palettes|
    ensures IndexAfter(i, n) == (i + n) % |Palettes|
    ensures IndexAfter(i, n) < |Palettes|
  {
    if n > 0 {
      IndexAfterCycles(i, n - 1);
      var q := (i + n - 1) / 6;
      var p := (i + n - 1) % 6;
      assert i + n - 1 == 6 * q + p;
      if p + 1 < 6 {
        assert i + n == 6 * q + (p + 1);
      } else {
        assert i + n == 6 * (q + 1) + 0;
      }
    }
  }

  // ---------------------------------------------------------------------
  // Layout of the circle and of its slices
  // ---------------------------------------------------------------------

  /** The circle of radius `r` inscribed in the surface, by its bounding box. */
  datatype Layout = Layout(r: real, left: real, top: real, right: real, bottom: real)

  function Box(L: Layout): Rect {
    Rect(L.left, L.top, L.right, L.bottom)
  }

  /** The circle's radius is 0.42 of the shorter side and it is centred on the surface. */
  function CircleLayout(w: real, h: real): (L: Layout)
    requires w >= 0.0 && h >= 0.0
    ensures 0.0 <= L.r
    ensures L.right - L.left == 2.0 * L.r && L.bottom - L.top == 2.0 * L.r
    ensures L.left + L.right == w && L.top + L.bottom == h
    ensures Within(Box(L), Rect(0.0, 0.0, w, h))
    ensures w > 0.0 && h > 0.0 ==> L.r > 0.0
  {
    var r := Min(w, h) * 0.42;
    var cx, cy := w * 0.5, h * 0.5;
    Layout(r, cx - r, cy - r, cx + r, cy + r)
  }

  const Slices: nat := 280
  const FeatherSteps: nat := 9
  const GlowSteps: nat := 12
  const FeatherMaxAlpha: real := 0.16
  const GlowMaxAlpha: real := 0.22

  function SliceW(r: real): real {
    (2.0 * r) / Slices as real
  }

  /** Left edge of slice `i`, relative to the circle's left edge. */
  function SliceLocalLeft(r: real, i: int): real {
    i as real * SliceW(r)
  }

  function FeatherPx(r: real): real { Max(18.0, r * 0.085) }

  function GlowUp(r: real): real { Max(18.0, r * 0.10) }
  function GlowDown(r: real): real { Max(26.0, r * 0.16) }

  /** The reach of `n` equal steps of size `step`. */
  function Steps(n: int, step: real): (d: real)
    ensures n >= 0 && step >= 0.0 ==> d >= 0.0
    ensures n >= 1 && step > 0.0 ==> d > 0.0
  {
    MulNonneg(n as real, step);
    MulPositive(n as real, step);
    n as real * step
  }

  /** More steps of the same non-negative size reach at least as far. */
  lemma StepsMonotone(n1: int, n2: int, step: real)
    requires n1 <= n2 && step >= 0.0
    ensures Steps(n1, step) <= Steps(n2, step)
  {
    MulNonneg((n2 - n1) as real, step);
    assert Steps(n2, step) - Steps(n1, step) == (n2 - n1) as real * step;
  }

  /** How far below the boundary feather band `s` reaches: a ninth of `featherPx` per step. */
  function FeatherDepth(r: real, s: int): (d: real)
    ensures s >= 0 ==> d >= 0.0
    ensures s >= 1 ==> d > 0.0
    ensures s == FeatherSteps ==> d == FeatherPx(r)
  {
    Steps(s, FeatherPx(r) / FeatherSteps as real)
  }

  /** How far above the boundary glow band `g` reaches: `g / 12` of `glowUp`. */
  function GlowAbove(r: real, g: int): (d: real)
    ensures g >= 0 ==> d >= 0.0
    ensures g == GlowSteps ==> d == GlowUp(r)
  {
    Steps(g, GlowUp(r) / GlowSteps as real)
  }

  /** How far below the boundary glow band `g` reaches: `g / 12` of `glowDown`. */
  function GlowBelow(r: real, g: int): (d: real)
    ensures g >= 0 ==> d >= 0.0
    ensures g == GlowSteps ==> d == GlowDown(r)
  {
    Steps(g, GlowDown(r) / GlowSteps as real)
  }

  /** Each feather step reaches deeper below the boundary. */
  lemma FeatherDepthMonotone(r: real, s1: int, s2: int)
    requires s1 <= s2
    ensures FeatherDepth(r, s1) <= FeatherDepth(r, s2)
  {
    StepsMonotone(s1, s2, FeatherPx(r) / FeatherSteps as real);
  }

  /** Each glow step reaches further above and below the boundary. */
  lemma GlowReachMonotone(r: real, g1: int, g2: int)
    requires g1 <= g2
    ensures GlowAbove(r, g1) <= GlowAbove(r, g2) && GlowBelow(r, g1) <= GlowBelow(r, g2)
  {
    StepsMonotone(g1, g2, GlowUp(r) / GlowSteps as real);
    StepsMonotone(g1, g2, GlowDown(r) / GlowSteps as real);
  }

  /** The 280 slices are contiguous and exactly cover the circle's width [0, 2r]. */
  lemma SlicesPartition(r: real)
    requires r >= 0.0
    ensures SliceLocalLeft(r, 0) == 0.0
    ensures SliceLocalLeft(r, Slices) == 2.0 * r
    ensures forall i :: 0 <= i < Slices ==>
      SliceLocalLeft(r, i) + SliceW(r) == SliceLocalLeft(r, i + 1)
    ensures forall i :: 0 <= i < Slices ==>
      0.0 <= SliceLocalLeft(r, i) && SliceLocalLeft(r, i) + SliceW(r) <= 2.0 * r
  {
    forall i | 0 <= i < Slices
      ensures SliceLocalLeft(r, i) + SliceW(r) == SliceLocalLeft(r, i + 1)
      ensures 0.0 <= SliceLocalLeft(r, i) && SliceLocalLeft(r, i) + SliceW(r) <= 2.0 * r
    {
      SliceColumnInside(r, i);
    }
  }

  lemma SliceColumnInside(r: real, i: int)
    requires r >= 0.0 && 0 <= i < Slices
    ensures SliceLocalLeft(r, i) + SliceW(r) == SliceLocalLeft(r, i + 1)
    ensures 0.0 <= SliceLocalLeft(r, i) && SliceLocalLeft(r, i) + SliceW(r) <= 2.0 * r
  {
    var sw := SliceW(r);
    assert (i + 1) as real * sw == i as real * sw + sw;
    MulNonneg(i as real, sw);
    MulNonneg((Slices - i - 1) as real, sw);
    assert Slices as real * sw == 2.0 * r;
    assert (Slices - i - 1) as real * sw == Slices as real * sw - (i + 1) as real * sw;
  }

  // ---------------------------------------------------------------------
  // Phase schedule of the parabola
  // ---------------------------------------------------------------------

  /** The parabola at one instant: curvature phase `k`, vertex height `vY`, branch half-width. */
  datatype MaskShape = MaskShape(k: real, vY: real, halfWidth: real)

  const P1End: real := 0.22
  const P2End: real := 0.82

  /** The vertex travels past the bottom of the circle by 0.35 r. */
  function PathLen(r: real): real { 2.0 * r + 0.35 * r }
  function HwWide(r: real): real { r * 1.05 }
  function HwNarrow(r: real): real { r * 0.42 }
  /** Half-width reached at the end of phase 1 (45% of the way to narrow). */
  function Hw45(r: real): real { Lerp(HwWide(r), HwNarrow(r), 0.45) }
  /** Half-width reached at the end of phase 2 (85% of the way to narrow). */
  function Hw85(r: real): real { Lerp(HwWide(r), HwNarrow(r), 0.85) }

  /** Phase 1: the parabola narrows in place at the top of the circle. */
  function Phase1(u: real, r: real): (m: MaskShape)
    ensures 0.0 <= m.k <= 0.66 && m.vY == 0.0
    ensures r >= 0.0 ==> Hw45(r) <= m.halfWidth <= HwWide(r)
  {
    var t := Smoothstep01(u / P1End);
    MaskShape(Lerp(0.0, 0.66, t), 0.0, Lerp(HwWide(r), Hw45(r), t))
  }

  /** Phase 2: the vertex descends 70% of its path while the parabola keeps narrowing. */
  function Phase2(u: real, r: real): (m: MaskShape)
    ensures 0.66 <= m.k <= 1.4
    ensures r >= 0.0 ==> 0.0 <= m.vY <= 0.70 * PathLen(r)
    ensures r >= 0.0 ==> Hw85(r) <= m.halfWidth <= Hw45(r)
  {
    var t := Smoothstep01((u - P1End) / (P2End - P1End));
    MaskShape(Lerp(0.66, 1.4, t), Lerp(0.0, 0.70 * PathLen(r), t), Lerp(Hw45(r), Hw85(r), t))
  }

  /** Phase 3: the vertex finishes its path and the parabola reaches its narrowest. */
  function Phase3(u: real, r: real): (m: MaskShape)
    ensures 1.4 <= m.k <= 2.0
    ensures r >= 0.0 ==> 0.70 * PathLen(r) <= m.vY <= PathLen(r)
    ensures r >= 0.0 ==> HwNarrow(r) <= m.halfWidth <= Hw85(r)
  {
    var t := Smoothstep01((u - P2End) / (1.0 - P2End));
    MaskShape(Lerp(1.4, 2.0, t), Lerp(0.70 * PathLen(r), PathLen(r), t), Lerp(Hw85(r), HwNarrow(r), t))
  }

  /** The three-phase schedule of the parabola: k in [0, 2], vY in [0, pathLen], halfWidth in [narrow, wide]. */
  function Schedule(u: real, r: real): (m: MaskShape)
    ensures 0.0 <= m.k <= 2.0
    ensures r >= 0.0 ==> 0.0 <= m.vY <= PathLen(r)
    ensures r >= 0.0 ==> HwNarrow(r) <= m.halfWidth <= HwWide(r)
  {
    if u <= P1End then Phase1(u, r)
    else if u <= P2End then Phase2(u, r)
    else Phase3(u, r)
  }

  /** At u = 0.22 phases 1 and 2 agree, so the schedule has no jump there. */
  lemma FirstSeamContinuous(r: real)
    ensures Phase1(P1End, r) == Phase2(P1End, r) == Schedule(P1End, r)
    ensures Schedule(P1End, r) == MaskShape(0.66, 0.0, Hw45(r))
  {
    assert Smoothstep01(P1End / P1End) == 1.0;
    assert Smoothstep01((P1End - P1End) / (P2End - P1End)) == 0.0;
    assert Lerp(0.0, 0.66, 1.0) == 0.66;
    assert Lerp(HwWide(r), Hw45(r), 1.0) == Hw45(r);
    assert Phase1(P1End, r) == MaskShape(0.66, 0.0, Hw45(r));
  }

  /** At u = 0.82 phases 2 and 3 agree, so the schedule has no jump there. */
  lemma SecondSeamContinuous(r: real)
    ensures Phase2(P2End, r) == Phase3(P2End, r) == Schedule(P2End, r)
    ensures Schedule(P2End, r) == MaskShape(1.4, 0.70 * PathLen(r), Hw85(r))
  {
    assert Smoothstep01((P2End - P1End) / (P2End - P1End)) == 1.0;
    assert Smoothstep01((P2End - P2End) / (1.0 - P2End)) == 0.0;
    assert Lerp(0.66, 1.4, 1.0) == 1.4;
    assert Lerp(0.0, 0.70 * PathLen(r), 1.0) == 0.70 * PathLen(r);
    assert Lerp(Hw45(r), Hw85(r), 1.0) == Hw85(r);
    assert Phase2(P2End, r) == MaskShape(1.4, 0.70 * PathLen(r), Hw85(r));
  }

  /** The sweep starts with the widest parabola, flat at the top of the circle. */
  lemma ScheduleStart(r: real)
    ensures Schedule(0.0, r) == MaskShape(0.0, 0.0, HwWide(r))
  {
    var t := Smoothstep01(0.0 / P1End);
    assert t == 0.0;
    LerpAtStart(0.0, 0.66, t);
    LerpAtStart(HwWide(r), Hw45(r), t);
  }

  /** The sweep ends with the narrowest, steepest parabola at the end of the vertex path. */
  lemma ScheduleEnd(r: real)
    ensures Schedule(1.0, r) == MaskShape(2.0, PathLen(r), HwNarrow(r))
  {
    var t := Smoothstep01((1.0 - P2End) / (1.0 - P2End));
    assert t == 1.0;
    LerpAtEnd(1.4, 2.0, t);
    LerpAtEnd(0.70 * PathLen(r), PathLen(r), t);
    LerpAtEnd(Hw85(r), HwNarrow(r), t);
  }

  /** As u grows, k and vY never decrease and the half-width never increases. */
  lemma ScheduleMonotone(u1: real, u2: real, r: real)
    requires u1 <= u2 && r >= 0.0
    ensures Schedule(u1, r).k <= Schedule(u2, r).k
    ensures Schedule(u1, r).vY <= Schedule(u2, r).vY
    ensures Schedule(u1, r).halfWidth >= Schedule(u2, r).halfWidth
  {
    if u2 <= P1End {
      Phase1Monotone(u1, u2, r);
    } else if u1 > P1End && u2 <= P2End {
      Phase2Monotone(u1, u2, r);
    } else if u1 > P2End {
      Phase3Monotone(u1, u2, r);
    }
  }

  lemma Phase1Monotone(u1: real, u2: real, r: real)
    requires u1 <= u2 && r >= 0.0
    ensures Phase1(u1, r).k <= Phase1(u2, r).k
    ensures Phase1(u1, r).halfWidth >= Phase1(u2, r).halfWidth
  {
    var t1, t2 := Smoothstep01(u1 / P1End), Smoothstep01(u2 / P1End);
    SmoothstepMonotone(u1 / P1End, u2 / P1End);
    LerpMonotone(0.0, 0.66, t1, t2);
    LerpMonotone(HwWide(r), Hw45(r), t1, t2);
  }

  lemma Phase2Monotone(u1: real, u2: real, r: real)
    requires u1 <= u2 && r >= 0.0
    ensures Phase2(u1, r).k <= Phase2(u2, r).k
    ensures Phase2(u1, r).vY <= Phase2(u2, r).vY
    ensures Phase2(u1, r).halfWidth >= Phase2(u2, r).halfWidth
  {
    var x1, x2 := (u1 - P1End) / (P2End - P1End), (u2 - P1End) / (P2End - P1End);
    SmoothstepMonotone(x1, x2);
    var t1, t2 := Smoothstep01(x1), Smoothstep01(x2);
    LerpMonotone(0.66, 1.4, t1, t2);
    LerpMonotone(0.0, 0.70 * PathLen(r), t1, t2);
    LerpMonotone(Hw45(r), Hw85(r), t1, t2);
  }

  lemma Phase3Monotone(u1: real, u2: real, r: real)
    requires u1 <= u2 && r >= 0.0
    ensures Phase3(u1, r).k <= Phase3(u2, r).k
    ensures Phase3(u1, r).vY <= Phase3(u2, r).vY
    ensures Phase3(u1, r).halfWidth >= Phase3(u2, r).halfWidth
  {
    var x1, x2 := (u1 - P2End) / (1.0 - P2End), (u2 - P2End) / (1.0 - P2End);
    SmoothstepMonotone(x1, x2);
    var t1, t2 := Smoothstep01(x1), Smoothstep01(x2);
    LerpMonotone(1.4, 2.0, t1, t2);
    LerpMonotone(0.70 * PathLen(r), PathLen(r), t1, t2);
    LerpMonotone(Hw85(r), HwNarrow(r), t1, t2);
  }

  // ---------------------------------------------------------------------
  // The reveal boundary
  // ---------------------------------------------------------------------

  /** Depth of the branches at the half-width: from 0.10 r (k = 0) to 0.78 r (k = 2). */
  function EdgeDrop(k: real, r: real): (e: real)
    ensures r >= 0.0 ==> r * 0.10 <= e <= r * 0.78
  {
    assert r >= 0.0 ==> Min(r * 0.10, r * 0.78) == r * 0.10 && Max(r * 0.10, r * 0.78) == r * 0.78;
    Lerp(r * 0.10, r * 0.78, Clamp01(k / 2.0))
  }

  /** A steeper phase `k` never makes the branches drop less. */
  lemma EdgeDropMonotone(k1: real, k2: real, r: real)
    requires k1 <= k2 && r >= 0.0
    ensures EdgeDrop(k1, r) <= EdgeDrop(k2, r)
  {
    DivMonotone(k1, k2, 2.0);
    LerpMonotone(r * 0.10, r * 0.78, Clamp01(k1 / 2.0), Clamp01(k2 / 2.0));
  }

  /**
   * The quadratic coefficient `a = edgeDrop / halfWidth²` of the boundary
   * `vY + a * (x - r)^2`: positive on a non-degenerate circle.
   */
  function Curvature(m: MaskShape, r: real): (a: real)
    requires m.halfWidth != 0.0
    ensures r > 0.0 ==> a > 0.0
  {
    var e := EdgeDrop(m.k, r);
    if r > 0.0 then DivPositive(e, Sq(m.halfWidth)); e / Sq(m.halfWidth)
    else e / Sq(m.halfWidth)
  }

  /** On a non-degenerate circle every scheduled parabola opens downwards into the circle: `a > 0`. */
  lemma CurvaturePositive(m: MaskShape, r: real)
    requires r > 0.0 && m.halfWidth >= HwNarrow(r)
    ensures m.halfWidth > 0.0
    ensures Curvature(m, r) > 0.0
  {
    assert m.halfWidth >= r * 0.42 > 0.0;
  }

  /** Of two mask shapes, the steeper and narrower one has the larger coefficient `a`. */
  lemma CurvatureOrder(m1: MaskShape, m2: MaskShape, r: real)
    requires r > 0.0 && m1.k <= m2.k && HwNarrow(r) <= m2.halfWidth <= m1.halfWidth
    ensures Curvature(m1, r) <= Curvature(m2, r)
  {
    EdgeDropMonotone(m1.k, m2.k, r);
    var e1, e2 := EdgeDrop(m1.k, r), EdgeDrop(m2.k, r);
    var q1, q2 := Sq(m1.halfWidth), Sq(m2.halfWidth);
    if m2.halfWidth < m1.halfWidth {
      SqStrictlyIncreasing(m2.halfWidth, m1.halfWidth);
    }
    DivMonotone(e1, e2, q1);
    DivAntitone(e2, q2, q1);
  }

  /** As the sweep progresses the boundary's coefficient `a` never decreases: the branches only steepen. */
  lemma CurvatureMonotone(u1: real, u2: real, r: real)
    requires u1 <= u2 && r > 0.0
    ensures Curvature(Schedule(u1, r), r) <= Curvature(Schedule(u2, r), r)
  {
    var m1, m2 := Schedule(u1, r), Schedule(u2, r);
    ScheduleMonotone(u1, u2, r);
    CurvatureOrder(m1, m2, r);
  }

  /** The boundary's depth below the circle's top at local abscissa `localX`, clamped to [0, 2r]. */
  function BoundaryY(localX: real, vY: real, a: real, r: real): (y: real)
    requires r >= 0.0
    ensures 0.0 <= y <= 2.0 * r
  {
    Clamp(vY + Bend(a, localX - r), 0.0, 2.0 * r)
  }

  /** How far the parabola has dropped at distance `dx` from its axis: `a * dx * dx`. */
  function Bend(a: real, dx: real): (b: real)
    ensures a >= 0.0 ==> b >= 0.0
    ensures dx == 0.0 ==> b == 0.0
  {
    MulNonneg(a, Sq(dx));
    a * Sq(dx)
  }

  /** A steeper parabola drops at least as far at every distance from its axis. */
  lemma BendMonotone(a1: real, a2: real, dx: real)
    requires a1 <= a2
    ensures Bend(a1, dx) <= Bend(a2, dx)
  {
    ScaleMonotone(a1, a2, Sq(dx));
  }

  /** Once the vertex is below the circle, the boundary lies at the circle's bottom everywhere. */
  lemma BoundaryBelowCircle(localX: real, vY: real, a: real, r: real)
    requires r >= 0.0 && a >= 0.0 && vY >= 2.0 * r
    ensures BoundaryY(localX, vY, a, r) == 2.0 * r
  {
  }

  /** A lower vertex and a larger coefficient put the boundary at least as deep at every abscissa. */
  lemma BoundaryMonotone(localX: real, vY1: real, a1: real, vY2: real, a2: real, r: real)
    requires r >= 0.0 && vY1 <= vY2 && 0.0 <= a1 <= a2
    ensures BoundaryY(localX, vY1, a1, r) <= BoundaryY(localX, vY2, a2, r)
  {
    BendMonotone(a1, a2, localX - r);
    ClampSumMonotone(vY1, Bend(a1, localX - r), vY2, Bend(a2, localX - r), 0.0, 2.0 * r);
  }

  /** A larger coefficient scales a non-negative quantity to at least as much. */
  lemma ScaleMonotone(a1: real, a2: real, q: real)
    requires a1 <= a2 && q >= 0.0
    ensures a1 * q <= a2 * q
  {
    MulNonneg(a2 - a1, q);
    assert (a2 - a1) * q == a2 * q - a1 * q;
  }

  // ---------------------------------------------------------------------
  // Draw commands
  // ---------------------------------------------------------------------

  /** Which of the two brushes a fill uses. */
  datatype Layer = CurrentLayer | NextLayer

  /** `clipRect(clip) { drawRect(brush, alpha) }`, all inside the circle's clip path. */
  datatype DrawCmd = Fill(clip: Rect, layer: Layer, alpha: real)

  /** One frame: the two brushes and the fills in drawing order. */
  datatype Frame = Frame(curBrush: LinearGradient, nxtBrush: LinearGradient, cmds: seq<DrawCmd>)

  /** Feather alpha `s / 9 * 0.16`: within [0, 0.16] over the loop's steps. */
  function FeatherAlpha(s: int): (a: real)
    ensures 0 <= s <= FeatherSteps ==> 0.0 <= a <= FeatherMaxAlpha
  {
    (s as real / FeatherSteps as real) * FeatherMaxAlpha
  }

  /** Glow alpha falls off with the square of `1 - g / 12`: within [0, 0.22] over the loop's steps. */
  function GlowAlpha(g: int): (a: real)
    ensures 0 <= g <= GlowSteps ==> 0.0 <= a <= GlowMaxAlpha
  {
    SqAtMostOne(Falloff(g));
    Sq(Falloff(g)) * GlowMaxAlpha
  }

  /** `1 - g / 12`: from 1 at the boundary down to 0 at the last glow step. */
  function Falloff(g: int): (f: real)
    ensures 0 <= g <= GlowSteps ==> 0.0 <= f <= 1.0
    ensures g == GlowSteps ==> f == 0.0
  {
    1.0 - g as real / GlowSteps as real
  }

  /** Feather bands grow more opaque with each step, up to 0.16. */
  lemma FeatherAlphaRises(s1: int, s2: int)
    requires 1 <= s1 < s2 <= FeatherSteps
    ensures 0.0 < FeatherAlpha(s1) < FeatherAlpha(s2) <= FeatherMaxAlpha
    ensures FeatherAlpha(FeatherSteps) == FeatherMaxAlpha
  {
  }

  /** Glow bands fade with each step: alpha stays in [0, 0.22] and the last band is invisible. */
  lemma GlowAlphaFalls(g1: int, g2: int)
    requires 1 <= g1 < g2 <= GlowSteps
    ensures GlowMaxAlpha >= GlowAlpha(g1) > GlowAlpha(g2) >= 0.0
    ensures GlowAlpha(GlowSteps) == 0.0
  {
    var f1, f2 := Falloff(g1), Falloff(g2);
    assert 1.0 > f1 > f2 >= 0.0;
    SqStrictlyIncreasing(f2, f1);
    SqStrictlyIncreasing(f1, 1.0);
    SqIsProduct(1.0);
  }

  /**
   * Feather band `s` covers the slice's column from the circle's top down to
   * `s` steps below the boundary `y1`, never past the circle's bottom.
   */
  function FeatherBand(L: Layout, x0: real, x1: real, y1: real, s: int): (c: DrawCmd)
    ensures c.layer == NextLayer && c.alpha == FeatherAlpha(s)
    ensures c.clip.left == x0 && c.clip.right == x1 && c.clip.top == L.top
    ensures c.clip.bottom <= L.bottom
    ensures s >= 0 && y1 <= L.bottom ==> y1 <= c.clip.bottom
    ensures s >= 1 && y1 < L.bottom ==> y1 < c.clip.bottom
    ensures c.clip.bottom == y1 + FeatherDepth(L.r, s) || c.clip.bottom == L.bottom
    ensures c.clip.bottom <= y1 + FeatherDepth(L.r, s)
  {
    Fill(Rect(x0, L.top, x1, Min(y1 + FeatherDepth(L.r, s), L.bottom)), NextLayer, FeatherAlpha(s))
  }

  /**
   * Glow band `g` straddles the boundary `y1`, reaching `g / 12` of the glow
   * height above and below it, clipped to the circle's box.
   */
  function GlowBand(L: Layout, x0: real, x1: real, y1: real, g: int): (c: DrawCmd)
    ensures c.layer == NextLayer && c.alpha == GlowAlpha(g)
    ensures c.clip.left == x0 && c.clip.right == x1
    ensures L.top <= c.clip.top && c.clip.bottom <= L.bottom
    ensures g >= 0 && L.top <= y1 <= L.bottom ==> c.clip.top <= y1 <= c.clip.bottom
    ensures c.clip.top == y1 - GlowAbove(L.r, g) || c.clip.top == L.top
    ensures c.clip.bottom == y1 + GlowBelow(L.r, g) || c.clip.bottom == L.bottom
    ensures y1 - GlowAbove(L.r, g) <= c.clip.top && c.clip.bottom <= y1 + GlowBelow(L.r, g)
  {
    Fill(Rect(x0, Max(y1 - GlowAbove(L.r, g), L.top), x1, Min(y1 + GlowBelow(L.r, g), L.bottom)),
         NextLayer, GlowAlpha(g))
  }

  /** A later feather band reaches at least as deep as an earlier one. */
  lemma FeatherBandsDeepen(L: Layout, x0: real, x1: real, y1: real, s1: int, s2: int)
    requires s1 <= s2
    ensures FeatherBand(L, x0, x1, y1, s1).clip.bottom <= FeatherBand(L, x0, x1, y1, s2).clip.bottom
  {
    FeatherDepthMonotone(L.r, s1, s2);
  }

  /** A later glow band reaches at least as far above and below the boundary as an earlier one. */
  lemma GlowBandsWiden(L: Layout, x0: real, x1: real, y1: real, g1: int, g2: int)
    requires g1 <= g2
    ensures GlowBand(L, x0, x1, y1, g2).clip.top <= GlowBand(L, x0, x1, y1, g1).clip.top
    ensures GlowBand(L, x0, x1, y1, g1).clip.bottom <= GlowBand(L, x0, x1, y1, g2).clip.bottom
  {
    GlowReachMonotone(L.r, g1, g2);
  }

  /** Feather bands 1..n in drawing order: the j-th fill is band j + 1. */
  function FeatherBands(L: Layout, x0: real, x1: real, y1: real, n: nat): (cmds: seq<DrawCmd>)
    ensures |cmds| == n
    ensures forall j :: 0 <= j < n ==> cmds[j] == FeatherBand(L, x0, x1, y1, j + 1)
  {
    if n == 0 then [] else FeatherBands(L, x0, x1, y1, n - 1) + [FeatherBand(L, x0, x1, y1, n)]
  }

  /** Glow bands 1..n in drawing order: the j-th fill is band j + 1. */
  function GlowBands(L: Layout, x0: real, x1: real, y1: real, n: nat): (cmds: seq<DrawCmd>)
    ensures |cmds| == n
    ensures forall j :: 0 <= j < n ==> cmds[j] == GlowBand(L, x0, x1, y1, j + 1)
  {
    if n == 0 then [] else GlowBands(L, x0, x1, y1, n - 1) + [GlowBand(L, x0, x1, y1, n)]
  }

  /** The fills of slice `i`: nothing when the boundary is within half a pixel of the top. */
  function SliceCommands(L: Layout, vY: real, a: real, i: int): (cmds: seq<DrawCmd>)
    requires L.r >= 0.0
    ensures |cmds| == 0 || |cmds| == 1 + FeatherSteps + GlowSteps
    ensures |cmds| > 0 ==>
      var x0 := L.left + SliceLocalLeft(L.r, i);
      var x1 := x0 + SliceW(L.r);
      var y1 := L.top + SliceDepth(L, vY, a, i);
      (forall s :: 1 <= s <= FeatherSteps ==> cmds[s] == FeatherBand(L, x0, x1, y1, s)) &&
      (forall g :: 1 <= g <= GlowSteps ==> cmds[FeatherSteps + g] == GlowBand(L, x0, x1, y1, g))
  {
    var lx0 := SliceLocalLeft(L.r, i);
    var lx1 := lx0 + SliceW(L.r);
    assert (lx0 + lx1) * 0.5 == lx0 + SliceW(L.r) * 0.5;
    var y := BoundaryY((lx0 + lx1) * 0.5, vY, a, L.r);
    if y <= 0.5 then []
    else
      var x0, x1, y1 := L.left + lx0, L.left + lx1, L.top + y;
      [Fill(Rect(x0, L.top, x1, y1), NextLayer, 1.0)]
      + FeatherBands(L, x0, x1, y1, FeatherSteps)
      + GlowBands(L, x0, x1, y1, GlowSteps)
  }

  /** The fills of slices 0..n-1 in drawing order: at most 22 per slice. */
  function RevealCommands(L: Layout, vY: real, a: real, n: nat): (cmds: seq<DrawCmd>)
    requires L.r >= 0.0
    ensures |cmds| <= n * (1 + FeatherSteps + GlowSteps)
  {
    if n == 0 then [] else RevealCommands(L, vY, a, n - 1) + SliceCommands(L, vY, a, n - 1)
  }

  /** The fill that paints the circle's whole box, opaque, with the current palette. */
  function BaseFill(L: Layout): (c: DrawCmd)
    ensures c.clip == Box(L) && c.layer == CurrentLayer && c.alpha == 1.0
  {
    Fill(Box(L), CurrentLayer, 1.0)
  }

  /**
   * The axis shared by both brushes: the circle's box diagonal, shifted by the
   * drift `(sin(2 pi u) * 0.16 r, cos(2 pi u) * 0.10 r)`. It always spans
   * (2r, 2r); with sine and cosine values in [-1, 1] it starts at most 0.16 r
   * across and 0.10 r down from the box's corner.
   */
  function FrameAxis(w: real, h: real, u: real, sin: real -> real, cos: real -> real): (A: Axis)
    requires w >= 0.0 && h >= 0.0
    ensures A.end.x - A.start.x == 2.0 * CircleLayout(w, h).r
    ensures A.end.y - A.start.y == 2.0 * CircleLayout(w, h).r
    ensures -1.0 <= sin(TwoPi * u) <= 1.0 && -1.0 <= cos(TwoPi * u) <= 1.0 ==>
            && -0.16 * CircleLayout(w, h).r <= A.start.x - CircleLayout(w, h).left <= 0.16 * CircleLayout(w, h).r
            && -0.10 * CircleLayout(w, h).r <= A.start.y - CircleLayout(w, h).top <= 0.10 * CircleLayout(w, h).r
  {
    DriftedAxis(CircleLayout(w, h), sin(TwoPi * u), cos(TwoPi * u))
  }

  /**
   * The circle's box diagonal, moved by `sx * r * 0.16` across and `cy * r * 0.10`
   * down: the same extent as the box, starting within the drift bounds of its corner.
   */
  function DriftedAxis(L: Layout, sx: real, cy: real): (A: Axis)
    ensures A.end.x - A.start.x == L.right - L.left && A.end.y - A.start.y == L.bottom - L.top
    ensures L.r >= 0.0 && -1.0 <= sx <= 1.0 && -1.0 <= cy <= 1.0 ==>
            && -0.16 * L.r <= A.start.x - L.left <= 0.16 * L.r
            && -0.10 * L.r <= A.start.y - L.top <= 0.10 * L.r
  {
    var dx := Drift(sx, L.r, 0.16);
    var dy := Drift(cy, L.r, 0.10);
    Axis(Point(L.left + dx, L.top + dy), Point(L.right + dx, L.bottom + dy))
  }

  /** The fills of one frame in drawing order: the base fill, then at most 22 fills for each slice. */
  function FrameCommands(w: real, h: real, u: real): (cmds: seq<DrawCmd>)
    requires w > 0.0 && h > 0.0
    ensures 1 <= |cmds| <= 1 + Slices * (1 + FeatherSteps + GlowSteps)
    ensures cmds[0] == BaseFill(CircleLayout(w, h))
  {
    var L := CircleLayout(w, h);
    var m := Schedule(u, L.r);
    [BaseFill(L)] + RevealCommands(L, m.vY, Curvature(m, L.r), Slices)
  }

  /**
   * The frame painted for sweep progress `u` with current palette `idx`: the
   * current and the next palette along one shared axis, then the fills.
   */
  function RenderFrame(w: real, h: real, u: real, idx: nat, sin: real -> real, cos: real -> real): (f: Frame)
    requires w > 0.0 && h > 0.0 && idx < |Palettes|
    ensures f.curBrush.colors == Palettes[idx] && f.nxtBrush.colors == Palettes[NextIndex(idx)]
    ensures f.curBrush.axis == f.nxtBrush.axis
    ensures |f.cmds| >= 1 && f.cmds[0] == BaseFill(CircleLayout(w, h))
  {
    var axis := FrameAxis(w, h, u, sin, cos);
    Frame(LinearGradient(Palettes[idx], axis, Clamped),
          LinearGradient(Palettes[NextIndex(idx)], axis, Clamped),
          FrameCommands(w, h, u))
  }

  // ---------------------------------------------------------------------
  // Properties of the draw commands
  // ---------------------------------------------------------------------

  /** Every fill in `cmds` uses the next palette and is clipped inside `box`. */
  predicate NextWithin(cmds: seq<DrawCmd>, box: Rect) {
    forall j :: 0 <= j < |cmds| ==> Within(cmds[j].clip, box) && cmds[j].layer == NextLayer
  }

  lemma NextWithinConcat(a: seq<DrawCmd>, b: seq<DrawCmd>, box: Rect)
    requires NextWithin(a, box) && NextWithin(b, box)
    ensures NextWithin(a + b, box)
  {
  }

  /** Feather bands lie between the circle's top and bottom, below a boundary inside the box. */
  lemma {:induction false} FeatherBandsWithin(L: Layout, x0: real, x1: real, y1: real, n: nat)
    requires L.r >= 0.0 && L.left <= x0 <= x1 <= L.right && L.top <= y1 <= L.bottom
    ensures NextWithin(FeatherBands(L, x0, x1, y1, n), Box(L))
  {
    if n > 0 {
      FeatherBandsWithin(L, x0, x1, y1, n - 1);
      NextWithinConcat(FeatherBands(L, x0, x1, y1, n - 1), [FeatherBand(L, x0, x1, y1, n)], Box(L));
    }
  }

  /** Glow bands straddle a boundary inside the box and are clipped to it. */
  lemma {:induction false} GlowBandsWithin(L: Layout, x0: real, x1: real, y1: real, n: nat)
    requires L.r >= 0.0 && L.left <= x0 <= x1 <= L.right && L.top <= y1 <= L.bottom
    ensures NextWithin(GlowBands(L, x0, x1, y1, n), Box(L))
  {
    if n > 0 {
      GlowBandsWithin(L, x0, x1, y1, n - 1);
      GlowBandWithin(L, x0, x1, y1, n);
      NextWithinConcat(GlowBands(L, x0, x1, y1, n - 1), [GlowBand(L, x0, x1, y1, n)], Box(L));
    }
  }

  lemma GlowBandWithin(L: Layout, x0: real, x1: real, y1: real, g: nat)
    requires L.r >= 0.0 && L.left <= x0 <= x1 <= L.right && L.top <= y1 <= L.bottom
    ensures Within(GlowBand(L, x0, x1, y1, g).clip, Box(L)) && GlowBand(L, x0, x1, y1, g).layer == NextLayer
  {
  }

  /** Boundary depth of slice `i`, sampled at the slice's centre. */
  function SliceDepth(L: Layout, vY: real, a: real, i: int): real
    requires L.r >= 0.0
  {
    BoundaryY(SliceLocalLeft(L.r, i) + SliceW(L.r) * 0.5, vY, a, L.r)
  }

  /** A slice emits nothing exactly when its boundary is at most half a pixel deep. */
  lemma SliceSkipped(L: Layout, vY: real, a: real, i: int)
    requires L.r >= 0.0
    ensures SliceCommands(L, vY, a, i) == [] <==> SliceDepth(L, vY, a, i) <= 0.5
  {
    var lx0 := SliceLocalLeft(L.r, i);
    assert (lx0 + (lx0 + SliceW(L.r))) * 0.5 == lx0 + SliceW(L.r) * 0.5;
  }

  /**
   * A slice whose boundary is deeper than half a pixel emits 22 fills, the
   * first being the hard reveal of its column from the top down to the boundary.
   */
  lemma SliceRevealed(L: Layout, vY: real, a: real, i: int)
    requires L.r >= 0.0 && SliceDepth(L, vY, a, i) > 0.5
    ensures |SliceCommands(L, vY, a, i)| == 1 + FeatherSteps + GlowSteps
    ensures |SliceCommands(L, vY, a, i)| > 0 && SliceCommands(L, vY, a, i)[0] ==
            Fill(Rect(L.left + SliceLocalLeft(L.r, i), L.top, L.left + SliceLocalLeft(L.r, i) + SliceW(L.r),
                      L.top + SliceDepth(L, vY, a, i)), NextLayer, 1.0)
  {
    var lx0 := SliceLocalLeft(L.r, i);
    assert (lx0 + (lx0 + SliceW(L.r))) * 0.5 == lx0 + SliceW(L.r) * 0.5;
  }

  /**
   * The next palette is revealed from the top down: as the sweep progresses,
   * every slice's boundary is at least as deep as before.
   */
  lemma SliceDepthMonotone(L: Layout, u1: real, u2: real, i: int)
    requires L.r > 0.0 && u1 <= u2
    ensures SliceDepth(L, Schedule(u1, L.r).vY, Curvature(Schedule(u1, L.r), L.r), i)
         <= SliceDepth(L, Schedule(u2, L.r).vY, Curvature(Schedule(u2, L.r), L.r), i)
  {
    var m1, m2 := Schedule(u1, L.r), Schedule(u2, L.r);
    ScheduleMonotone(u1, u2, L.r);
    CurvatureMonotone(u1, u2, L.r);
    BoundaryMonotone(SliceLocalLeft(L.r, i) + SliceW(L.r) * 0.5, m1.vY, Curvature(m1, L.r), m2.vY, Curvature(m2, L.r), L.r);
  }

  /** A slice once revealed stays revealed for the rest of the sweep. */
  lemma SliceStaysRevealed(L: Layout, u1: real, u2: real, i: int)
    requires L.r > 0.0 && u1 <= u2
    requires SliceCommands(L, Schedule(u1, L.r).vY, Curvature(Schedule(u1, L.r), L.r), i) != []
    ensures SliceCommands(L, Schedule(u2, L.r).vY, Curvature(Schedule(u2, L.r), L.r), i) != []
  {
    var m1, m2 := Schedule(u1, L.r), Schedule(u2, L.r);
    SliceSkipped(L, m1.vY, Curvature(m1, L.r), i);
    SliceSkipped(L, m2.vY, Curvature(m2, L.r), i);
    SliceDepthMonotone(L, u1, u2, i);
  }

  /** Every fill of a slice lies inside the circle's bounding box. */
  lemma SliceWithin(L: Layout, vY: real, a: real, i: int)
    requires L.r >= 0.0 && L.right - L.left == 2.0 * L.r && L.bottom - L.top == 2.0 * L.r
    requires 0 <= i < Slices
    ensures NextWithin(SliceCommands(L, vY, a, i), Box(L))
  {
    var lx0 := SliceLocalLeft(L.r, i);
    var lx1 := lx0 + SliceW(L.r);
    var y := BoundaryY((lx0 + lx1) * 0.5, vY, a, L.r);
    SliceColumnInside(L.r, i);
    if y > 0.5 {
      var x0, x1, y1 := L.left + lx0, L.left + lx1, L.top + y;
      FeatherBandsWithin(L, x0, x1, y1, FeatherSteps);
      GlowBandsWithin(L, x0, x1, y1, GlowSteps);
      var main := [Fill(Rect(x0, L.top, x1, y1), NextLayer, 1.0)];
      NextWithinConcat(main, FeatherBands(L, x0, x1, y1, FeatherSteps), Box(L));
      NextWithinConcat(main + FeatherBands(L, x0, x1, y1, FeatherSteps), GlowBands(L, x0, x1, y1, GlowSteps), Box(L));
    }
  }

  /** Every reveal, feather and glow rectangle lies inside the circle's bounding box. */
  lemma {:induction false} RevealWithin(L: Layout, vY: real, a: real, n: nat)
    requires L.r >= 0.0 && L.right - L.left == 2.0 * L.r && L.bottom - L.top == 2.0 * L.r
    requires n <= Slices
    ensures NextWithin(RevealCommands(L, vY, a, n), Box(L))
  {
    if n > 0 {
      var prev, slice := RevealCommands(L, vY, a, n - 1), SliceCommands(L, vY, a, n - 1);
      RevealWithin(L, vY, a, n - 1);
      SliceWithin(L, vY, a, n - 1);
      NextWithinConcat(prev, slice, Box(L));
      assert RevealCommands(L, vY, a, n) == prev + slice;
    }
  }

  /** Every fill of a frame lies inside the circle's box; all but the first use the next palette. */
  lemma FrameWithin(w: real, h: real, u: real)
    requires w > 0.0 && h > 0.0
    ensures FrameCommands(w, h, u)[0] == BaseFill(CircleLayout(w, h))
    ensures NextWithin(FrameCommands(w, h, u)[1..], Box(CircleLayout(w, h)))
  {
    var L := CircleLayout(w, h);
    var m := Schedule(u, L.r);
    RevealWithin(L, m.vY, Curvature(m, L.r), Slices);
    assert FrameCommands(w, h, u)[1..] == RevealCommands(L, m.vY, Curvature(m, L.r), Slices);
  }

  /** The drift `s * r * k` of the brush endpoints: within `k * r` of zero for a sine or cosine value `s`. */
  function Drift(s: real, r: real, k: real): (d: real)
    ensures -1.0 <= s <= 1.0 && r >= 0.0 && k >= 0.0 ==> -k * r <= d <= k * r
  {
    DriftBound(s, r, k);
    s * r * k
  }

  lemma DriftBound(s: real, r: real, k: real)
    ensures -1.0 <= s <= 1.0 && r >= 0.0 && k >= 0.0 ==> -k * r <= s * r * k <= k * r
  {
    if -1.0 <= s <= 1.0 && r >= 0.0 && k >= 0.0 {
      MulNonneg(r, k);
      MulNonneg(1.0 - s, r * k);
      MulNonneg(1.0 + s, r * k);
      assert s * r * k == s * (r * k);
    }
  }

  /**
   * With the final mask of a sweep (the shape `Schedule(1.0, r)` takes, by
   * `ScheduleEnd`) every slice is revealed down to the circle's bottom with
   * the next palette, so the whole circle shows it.
   */
  lemma FullRevealAtEnd(L: Layout, i: nat)
    requires L.r > 0.25 && L.bottom - L.top == 2.0 * L.r
    requires i < Slices
    ensures var m := MaskShape(2.0, PathLen(L.r), HwNarrow(L.r));
            |SliceCommands(L, m.vY, Curvature(m, L.r), i)| == 1 + FeatherSteps + GlowSteps &&
            SliceCommands(L, m.vY, Curvature(m, L.r), i)[0] ==
              Fill(Rect(L.left + SliceLocalLeft(L.r, i), L.top, L.left + SliceLocalLeft(L.r, i) + SliceW(L.r), L.bottom),
                   NextLayer, 1.0)
  {
    var m := MaskShape(2.0, PathLen(L.r), HwNarrow(L.r));
    CurvaturePositive(m, L.r);
    SliceRevealedToBottom(L, m.vY, Curvature(m, L.r), i);
  }

  /** A boundary whose vertex is below the circle reveals every slice down to the circle's bottom. */
  lemma SliceRevealedToBottom(L: Layout, vY: real, a: real, i: nat)
    requires L.r > 0.25 && L.bottom - L.top == 2.0 * L.r
    requires a >= 0.0 && vY >= 2.0 * L.r
    ensures |SliceCommands(L, vY, a, i)| == 1 + FeatherSteps + GlowSteps &&
            SliceCommands(L, vY, a, i)[0] ==
              Fill(Rect(L.left + SliceLocalLeft(L.r, i), L.top, L.left + SliceLocalLeft(L.r, i) + SliceW(L.r), L.bottom),
                   NextLayer, 1.0)
  {
    BoundaryBelowCircle(SliceLocalLeft(L.r, i) + SliceW(L.r) * 0.5, vY, a, L.r);
    SliceRevealed(L, vY, a, i);
  }

  /**
   * The brush revealed during a sweep is exactly the base brush of the first
   * frame of the next sweep, provided the drift samples at u = 1 and u = 0
   * agree: the loop has no seam.
   */
  lemma SweepSeam(w: real, h: real, idx: nat, sin: real -> real, cos: real -> real)
    requires w > 0.0 && h > 0.0 && idx < |Palettes|
    requires sin(TwoPi * 1.0) == sin(TwoPi * 0.0) && cos(TwoPi * 1.0) == cos(TwoPi * 0.0)
    ensures RenderFrame(w, h, 1.0, idx, sin, cos).nxtBrush ==
            RenderFrame(w, h, 0.0, NextIndex(idx), sin, cos).curBrush
  {
    assert FrameAxis(w, h, 1.0, sin, cos) == FrameAxis(w, h, 0.0, sin, cos);
  }

  // ---------------------------------------------------------------------
  // Painting one frame
  // ---------------------------------------------------------------------

  /** The slice loop: every one of the 280 slices, left to right. */
  method DrawReveal(L: Layout, vY: real, a: real) returns (cmds: seq<DrawCmd>)
    requires L.r >= 0.0
    ensures cmds == RevealCommands(L, vY, a, Slices)
  {
    cmds := [];
    for i := 0 to Slices
      invariant cmds == RevealCommands(L, vY, a, i)
    {
      var slice := DrawSlice(L, vY, a, i);
      cmds := cmds + slice;
    }
  }

  /**
   * One slice: skipped when its boundary is within half a pixel of the top,
   * otherwise the hard reveal, 9 feather bands and 12 glow bands.
   */
  method DrawSlice(L: Layout, vY: real, a: real, i: int) returns (cmds: seq<DrawCmd>)
    requires L.r >= 0.0
    ensures cmds == SliceCommands(L, vY, a, i)
  {
    var lx0 := SliceLocalLeft(L.r, i);
    var lx1 := lx0 + SliceW(L.r);
    var y := BoundaryY((lx0 + lx1) * 0.5, vY, a, L.r);
    if y <= 0.5 {
      return [];
    }
    var x0, x1, y1 := L.left + lx0, L.left + lx1, L.top + y;
    var feather := DrawFeather(L, x0, x1, y1);
    var glow := DrawGlow(L, x0, x1, y1);
    cmds := [Fill(Rect(x0, L.top, x1, y1), NextLayer, 1.0)] + feather + glow;
  }

  /** The feather loop of one slice: bands 1..9, each a step deeper and more opaque. */
  method DrawFeather(L: Layout, x0: real, x1: real, y1: real) returns (cmds: seq<DrawCmd>)
    ensures cmds == FeatherBands(L, x0, x1, y1, FeatherSteps)
  {
    cmds := [];
    for s := 1 to FeatherSteps + 1
      invariant cmds == FeatherBands(L, x0, x1, y1, s - 1)
    {
      cmds := cmds + [FeatherBand(L, x0, x1, y1, s)];
    }
  }

  /** The glow loop of one slice: bands 1..12, each wider and fainter. */
  method DrawGlow(L: Layout, x0: real, x1: real, y1: real) returns (cmds: seq<DrawCmd>)
    ensures cmds == GlowBands(L, x0, x1, y1, GlowSteps)
  {
    cmds := [];
    for g := 1 to GlowSteps + 1
      invariant cmds == GlowBands(L, x0, x1, y1, g - 1)
    {
      cmds := cmds + [GlowBand(L, x0, x1, y1, g)];
    }
  }

  /**
   * Paints one frame: the current palette over the whole circle, then, slice
   * by slice, the next palette down to the boundary with its feather and glow.
   */
  method PaintFrame(w: real, h: real, u: real, idx: nat, sin: real -> real, cos: real -> real)
    returns (frame: Frame)
    requires w > 0.0 && h > 0.0 && idx < |Palettes|
    ensures frame == RenderFrame(w, h, u, idx, sin, cos)
    ensures frame.cmds[0] == BaseFill(CircleLayout(w, h))
    ensures NextWithin(frame.cmds[1..], Box(CircleLayout(w, h)))
  {
    var L := CircleLayout(w, h);
    var axis := FrameAxis(w, h, u, sin, cos);
    var curBrush := LinearGradient(Palettes[idx], axis, Clamped);
    var nxtBrush := LinearGradient(Palettes[(idx + 1) % |Palettes|], axis, Clamped);

    var m := Schedule(u, L.r);
    CurvaturePositive(m, L.r);
    var a := Curvature(m, L.r);

    var slicesCmds := DrawReveal(L, m.vY, a);
    var cmds := [Fill(Box(L), CurrentLayer, 1.0)] + slicesCmds;
    frame := Frame(curBrush, nxtBrush, cmds);
    FrameWithin(w, h, u);
  }

  // ---------------------------------------------------------------------
  // The palette cycle
  // ---------------------------------------------------------------------

  /** The carousel's persistent state: the palette index and the sweep progress. */
  class CarouselState {
    var curIdx: nat
    var sweep: real

    ghost predicate Valid()
      reads this
    {
      curIdx < |Palettes| && 0.0 <= sweep <= 1.0
    }

    constructor ()
      ensures Valid() && curIdx == 0 && sweep == 0.0
    {
      curIdx := 0;
      sweep := 0.0;
    }

    function CurrentPalette(): Palette
      reads this
      requires Valid()
    {
      Palettes[curIdx]
    }

    function NextPalette(): Palette
      reads this
      requires Valid()
    {
      Palettes[NextIndex(curIdx)]
    }

    /**
     * One sweep: snap the progress to 0, animate it to 1, then advance the
     * palette index. The palette revealed during the sweep becomes the
     * current one.
     */
    method Sweep()
      requires Valid()
      modifies this
      ensures Valid() && sweep == 1.0
      ensures curIdx == NextIndex(old(curIdx))
      ensures CurrentPalette() == old(NextPalette())
    {
      sweep := 0.0;
      sweep := 1.0;
      curIdx := (curIdx + 1) % |Palettes|;
    }

    /** `n` iterations of the driver loop. */
    method Run(n: nat)
      requires Valid()
      modifies this
      ensures Valid() && curIdx == IndexAfter(old(curIdx), n)
      ensures curIdx == (old(curIdx) + n) % |Palettes|
      ensures n > 0 ==> sweep == 1.0
      ensures n == 0 ==> sweep == old(sweep)
    {
      for j := 0 to n
        invariant Valid() && curIdx == IndexAfter(old(curIdx), j)
        invariant j > 0 ==> sweep == 1.0
        invariant j == 0 ==> sweep == old(sweep)
      {
        Sweep();
      }
      IndexAfterCycles(old(curIdx), n);
    }

    /** Paints the frame for the current state. */
    method Paint(w: real, h: real, sin: real -> real, cos: real -> real) returns (frame: Frame)
      requires Valid() && w > 0.0 && h > 0.0
      ensures frame == RenderFrame(w, h, sweep, curIdx, sin, cos)
      ensures frame.curBrush.colors == CurrentPalette() && frame.nxtBrush.colors == NextPalette()
    {
      frame := PaintFrame(w, h, sweep, curIdx, sin, cos);
    }
  }
}
