/**
 * The vertically moving linear gradient: a four-colour brush whose axis runs
 * down the horizontal centre of the box, one box height long, and slides by
 * `dy = t * h * 0.55` as the animation parameter `t` runs from -1 to 1 and
 * restarts. With `TileMode.Repeated` the colours repeat along the axis with a
 * period of the axis length.
 */
module VerticalGradient {
  import opened Geometry

  /** The four ARGB colours of the brush, top to bottom. */
  const Colors: seq<bv32> := [0xFFB08A00, 0xFF1A1A1A, 0xFFE00000, 0xFFF06400]

  /** Fraction of the height the axis travels per unit of `t`. */
  const Travel: real := 0.55

  /** The animated parameter's declared range, `-1f..1f`. */
  predicate InRange(t: real) {
    -1.0 <= t <= 1.0
  }

  /** The vertical offset of the axis, `t * h * 0.55`: zero at `t = 0`, at most 0.55 h either way. */
  function Dy(t: real, h: real): (dy: real)
    ensures t == 0.0 ==> dy == 0.0
    ensures InRange(t) && h >= 0.0 ==> -(h * Travel) <= dy <= h * Travel
  {
    OffsetBound(t, h, Travel);
    Offset(t, h, Travel)
  }

  /** The offset for a travel of `travel` heights per unit of `t`. */
  function Offset(t: real, h: real, travel: real): real {
    t * h * travel
  }

  lemma OffsetBound(t: real, h: real, travel: real)
    ensures InRange(t) && h >= 0.0 && travel >= 0.0 ==> -(h * travel) <= Offset(t, h, travel) <= h * travel
  {
    if InRange(t) && h >= 0.0 && travel >= 0.0 {
      MulNonneg(h, travel);
      MulNonneg(1.0 - t, h * travel);
      MulNonneg(1.0 + t, h * travel);
      assert Offset(t, h, travel) == t * (h * travel);
    }
  }

  /** The brush: the four colours repeated along the axis from `(w/2, dy)` to `(w/2, h + dy)`. */
  function Brush(w: real, h: real, t: real): (b: LinearGradient)
    ensures b.colors == Colors && b.tileMode == Repeated
    ensures b.axis.start.x == b.axis.end.x == w / 2.0
    ensures b.axis.end.y - b.axis.start.y == h
    ensures b.axis.start.y == Dy(t, h)
  {
    var dy := Dy(t, h);
    LinearGradient(Colors, Axis(Point(w * 0.5, 0.0 + dy), Point(w * 0.5, h + dy)), Repeated)
  }

  /** The offset at the start, the middle and the end of the animation. */
  lemma DyAtKeyTimes(h: real)
    ensures Dy(-1.0, h) == -(h * 0.55)
    ensures Dy(0.0, h) == 0.0
    ensures Dy(1.0, h) == h * 0.55
  {
  }

  /** For a non-negative height the axis only moves downwards as `t` grows. */
  lemma DyMonotone(t1: real, t2: real, h: real)
    requires t1 <= t2 && h >= 0.0
    ensures Dy(t1, h) <= Dy(t2, h)
  {
    MulNonneg(t2 - t1, h);
    assert Dy(t2, h) - Dy(t1, h) == (t2 - t1) * h * 0.55;
  }

  /** The brush axis is vertical, at the centre, and one tile period (the height) long, for every `t`. */
  lemma BrushAxisFixed(w: real, h: real, t1: real, t2: real)
    ensures Brush(w, h, t1).axis.start.x == Brush(w, h, t2).axis.end.x == w / 2.0
    ensures Brush(w, h, t1).axis.end.y - Brush(w, h, t1).axis.start.y
         == Brush(w, h, t2).axis.end.y - Brush(w, h, t2).axis.start.y == h
  {
  }

  /**
   * How far the repeated colour pattern has moved when the animation restarts,
   * counted in tile periods: the axis jumps from its position at `t = 1` back to
   * its position at `t = -1`.
   */
  function RestartShift(travel: real, h: real): (p: real)
    requires h > 0.0
    ensures p == 2.0 * travel
  {
    assert Offset(1.0, h, travel) - Offset(-1.0, h, travel) == (2.0 * travel) * h;
    Scaled(2.0 * travel, h);
    (Offset(1.0, h, travel) - Offset(-1.0, h, travel)) / h
  }

  lemma Scaled(c: real, h: real)
    requires h > 0.0
    ensures (c * h) / h == c
  {
  }

  /** A restart is invisible on a repeated pattern exactly when it moves by a whole number of periods. */
  predicate LoopsSeamlessly(travel: real, h: real)
    requires h > 0.0
  {
    var p := RestartShift(travel, h);
    p.Floor as real == p
  }

  /**
   * As written, the restart moves the repeated pattern by 1.1 periods, which a
   * viewer sees as a jump of a tenth of the box height.
   */
  lemma RestartJumps(h: real)
    requires h > 0.0
    ensures RestartShift(Travel, h) == 1.1
    ensures !LoopsSeamlessly(Travel, h)
  {
    assert (1.1).Floor == 1;
  }

  /** The travel that makes the restart seamless: half a height per unit of `t`. */
  const SeamlessTravel: real := 0.5

  /**
   * With the seamless travel the axis moves by exactly one box height over a
   * cycle, so the repeated pattern is back where it started when `t` restarts.
   */
  lemma HalfTravelLoops(h: real)
    requires h > 0.0
    ensures Offset(1.0, h, SeamlessTravel) - Offset(-1.0, h, SeamlessTravel) == h
    ensures RestartShift(SeamlessTravel, h) == 1.0
    ensures LoopsSeamlessly(SeamlessTravel, h)
  {
    assert (1.0).Floor == 1;
  }

  /** The travels in [0, 1) that loop seamlessly are 0 and 0.5: one period per cycle or none. */
  lemma SeamlessTravels(travel: real, h: real)
    requires h > 0.0 && 0.0 <= travel < 1.0
    ensures LoopsSeamlessly(travel, h) <==> travel == 0.0 || travel == 0.5
  {
    var p := RestartShift(travel, h);
    if travel == 0.0 {
      assert p.Floor == 0;
    } else if travel == 0.5 {
      assert p.Floor == 1;
    }
  }
}
