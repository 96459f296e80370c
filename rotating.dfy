/**
 * The rotating linear gradient: a three-colour brush whose axis turns about
 * the centre of the box as the angle `deg` runs from 0 to 360. The axis has
 * half the box diagonal on either side of the centre, so that every point of
 * the box projects onto it whatever the angle.
 *
 * `sin`, `cos` and `hypot` are parameters; the lemmas state the facts about
 * them that they need (`cos² + sin² = 1`, `hypot(w, h)² = w² + h²`).
 */
module RotatingGradient {
  import opened Geometry

  /** The three ARGB colours of the brush, start to end. */
  const Colors: seq<bv32> := [0xFFFF5252, 0xFF40C4FF, 0xFF69F0AE]

  /** `Math.PI` */
  const Pi: real := 3.141592653589793

  /** The centre of the box, `(w / 2, h / 2)`: as far from the right edge as from the left, and from the bottom as from the top. */
  function Center(w: real, h: real): (c: Point)
    ensures c.x - 0.0 == w - c.x && c.y - 0.0 == h - c.y
    ensures w >= 0.0 && h >= 0.0 ==> 0.0 <= c.x <= w && 0.0 <= c.y <= h
  {
    Point(w / 2.0, h / 2.0)
  }

  /**
   * Half the diagonal, `hypot(w, h) / 2`: non-negative when `hypot` is, and the
   * hypotenuse of the half-sides when `hypot` is the hypotenuse of the sides.
   */
  function HalfDiag(w: real, h: real, hypot: (real, real) -> real): (hd: real)
    ensures hypot(w, h) >= 0.0 ==> hd >= 0.0
    ensures Sq(hypot(w, h)) == Sq(w) + Sq(h) ==> Sq(hd) == Sq(w / 2.0) + Sq(h / 2.0)
  {
    HalvedPythagoras(hypot(w, h), w, h);
    hypot(w, h) / 2.0
  }

  lemma HalvedPythagoras(d: real, w: real, h: real)
    ensures Sq(d) == Sq(w) + Sq(h) ==> Sq(d / 2.0) == Sq(w / 2.0) + Sq(h / 2.0)
  {
    SqOfProduct(d, 0.5);
    SqOfProduct(w, 0.5);
    SqOfProduct(h, 0.5);
    assert d / 2.0 == d * 0.5 && w / 2.0 == w * 0.5 && h / 2.0 == h * 0.5;
  }

  /**
   * The direction `(cos rad, sin rad)` of the axis for an angle of `deg`
   * degrees, `rad = deg * pi / 180`: a full turn of 360 degrees is 2 pi
   * radians, and the direction has unit length wherever `cos² + sin² = 1`.
   */
  function Direction(deg: real, sin: real -> real, cos: real -> real): (d: Point)
    ensures deg == 360.0 ==> d == Point(cos(2.0 * Pi), sin(2.0 * Pi))
    ensures Sq(cos(deg * Pi / 180.0)) + Sq(sin(deg * Pi / 180.0)) == 1.0 ==> Sq(d.x) + Sq(d.y) == 1.0
  {
    var rad := deg * Pi / 180.0;
    Point(cos(rad), sin(rad))
  }

  /**
   * The axis running through `c` along `v`, reaching `hd` times `v` to either
   * side: `c - v * hd` to `c + v * hd`.
   */
  function SymmetricAxis(c: Point, v: Point, hd: real): (a: Axis)
    ensures (a.start.x + a.end.x) / 2.0 == c.x && (a.start.y + a.end.y) / 2.0 == c.y
    ensures a.end.x - a.start.x == 2.0 * hd * v.x
    ensures a.end.y - a.start.y == 2.0 * hd * v.y
  {
    Axis(Point(c.x - v.x * hd, c.y - v.y * hd), Point(c.x + v.x * hd, c.y + v.y * hd))
  }

  /** The brush drawn for angle `deg` on a `w` by `h` box: the three colours along an axis symmetric about the centre. */
  function Brush(w: real, h: real, deg: real, sin: real -> real, cos: real -> real,
                 hypot: (real, real) -> real): (b: LinearGradient)
    ensures b.colors == Colors && b.tileMode == Clamped
    ensures (b.axis.start.x + b.axis.end.x) / 2.0 == w / 2.0
    ensures (b.axis.start.y + b.axis.end.y) / 2.0 == h / 2.0
    ensures b.axis.end.x - b.axis.start.x == 2.0 * HalfDiag(w, h, hypot) * Direction(deg, sin, cos).x
    ensures b.axis.end.y - b.axis.start.y == 2.0 * HalfDiag(w, h, hypot) * Direction(deg, sin, cos).y
  {
    LinearGradient(Colors, SymmetricAxis(Center(w, h), Direction(deg, sin, cos), HalfDiag(w, h, hypot)), Clamped)
  }

  lemma SqOfProduct(x: real, y: real)
    ensures Sq(x * y) == Sq(x) * Sq(y)
  {
    SqIsProduct(x);
    SqIsProduct(y);
    SqIsProduct(x * y);
  }

  /** A number whose square is at most `hd²` lies within `hd` of zero. */
  lemma WithinFromSquare(s: real, hd: real)
    requires hd >= 0.0 && Sq(s) <= Sq(hd)
    ensures -hd <= s <= hd
  {
    if s >= 0.0 {
      SqMonotone(s, hd);
    } else {
      SqOfNegation(s);
      SqMonotone(-s, hd);
    }
  }

  /** With a unit direction, both ends of a symmetric axis lie at distance `hd` from its centre. */
  lemma EndsAtDistance(c: Point, v: Point, hd: real)
    requires Sq(v.x) + Sq(v.y) == 1.0
    ensures var a := SymmetricAxis(c, v, hd);
      Sq(a.end.x - c.x) + Sq(a.end.y - c.y) == Sq(hd) &&
      Sq(a.start.x - c.x) + Sq(a.start.y - c.y) == Sq(hd)
  {
    var a := SymmetricAxis(c, v, hd);
    assert a.end.x - c.x == v.x * hd && a.end.y - c.y == v.y * hd;
    assert a.start.x - c.x == -(v.x * hd) && a.start.y - c.y == -(v.y * hd);
    SqOfProduct(v.x, hd);
    SqOfProduct(v.y, hd);
    SqOfNegation(v.x * hd);
    SqOfNegation(v.y * hd);
    assert Sq(v.x) * Sq(hd) + Sq(v.y) * Sq(hd) == (Sq(v.x) + Sq(v.y)) * Sq(hd);
  }

  lemma SqOfNegation(x: real)
    ensures Sq(-x) == Sq(x)
  {
    SqIsProduct(x);
    SqIsProduct(-x);
  }

  /** Given `cos² + sin² = 1` at the angle drawn, each end of the brush axis is half a diagonal from the centre. */
  lemma BrushEndsOnCircle(w: real, h: real, deg: real, sin: real -> real, cos: real -> real,
                          hypot: (real, real) -> real)
    requires Sq(cos(deg * Pi / 180.0)) + Sq(sin(deg * Pi / 180.0)) == 1.0
    ensures var a := Brush(w, h, deg, sin, cos, hypot).axis;
      var c := Center(w, h);
      var hd := HalfDiag(w, h, hypot);
      Sq(a.end.x - c.x) + Sq(a.end.y - c.y) == Sq(hd) &&
      Sq(a.start.x - c.x) + Sq(a.start.y - c.y) == Sq(hd)
  {
    EndsAtDistance(Center(w, h), Direction(deg, sin, cos), HalfDiag(w, h, hypot));
  }

  /** Given `hypot(w, h)² = w² + h²` with a non-negative `hypot`, half the diagonal covers half of each side. */
  lemma HalfDiagCoversSides(w: real, h: real, hypot: (real, real) -> real)
    requires w >= 0.0 && h >= 0.0
    requires hypot(w, h) >= 0.0 && Sq(hypot(w, h)) == Sq(w) + Sq(h)
    ensures HalfDiag(w, h, hypot) >= w / 2.0
    ensures HalfDiag(w, h, hypot) >= h / 2.0
  {
    SqMonotone(w, hypot(w, h));
    SqMonotone(h, hypot(w, h));
  }

  /**
   * Every point of the box projects onto the axis within `hd` of the centre,
   * whatever the (unit) direction, once `hd² = (w/2)² + (h/2)²`: the brush
   * covers the whole box at every angle.
   */
  lemma ProjectionWithinAxis(w: real, h: real, v: Point, hd: real, p: Point)
    requires 0.0 <= p.x <= w && 0.0 <= p.y <= h
    requires Sq(v.x) + Sq(v.y) == 1.0
    requires hd >= 0.0 && Sq(hd) == Sq(w / 2.0) + Sq(h / 2.0)
    ensures -hd <= Projection(p, Center(w, h), v) <= hd
  {
    ProjectionSquare(w, h, v, p);
    WithinFromSquare(Projection(p, Center(w, h), v), hd);
  }

  /** Signed distance along the unit direction `v` from `c` to the foot of `p`. */
  function Projection(p: Point, c: Point, v: Point): real {
    (p.x - c.x) * v.x + (p.y - c.y) * v.y
  }

  lemma ProjectionSquare(w: real, h: real, v: Point, p: Point)
    requires 0.0 <= p.x <= w && 0.0 <= p.y <= h
    requires Sq(v.x) + Sq(v.y) == 1.0
    ensures Sq(Projection(p, Center(w, h), v)) <= Sq(w / 2.0) + Sq(h / 2.0)
  {
    ProjectionBound(p, Center(w, h), v);
    HalfSpan(p.x, w);
    HalfSpan(p.y, h);
  }

  /** The projection onto a unit direction is no longer than the offset itself. */
  lemma ProjectionBound(p: Point, c: Point, v: Point)
    requires Sq(v.x) + Sq(v.y) == 1.0
    ensures Sq(Projection(p, c, v)) <= Sq(p.x - c.x) + Sq(p.y - c.y)
  {
    CauchySchwarz(p.x - c.x, p.y - c.y, v.x, v.y);
  }

  /** `(a·x + b·y)² ≤ (a² + b²)(x² + y²)`, with the unit vector on the right. */
  lemma CauchySchwarz(a: real, b: real, x: real, y: real)
    requires Sq(x) + Sq(y) == 1.0
    ensures Sq(a * x + b * y) <= Sq(a) + Sq(b)
  {
    var u, v := Sq(a) + Sq(b), Sq(x) + Sq(y);
    assert Sq(a * x + b * y) + Sq(a * y - b * x) == u * v by {
      SqIsProduct(a);
      SqIsProduct(b);
      SqIsProduct(x);
      SqIsProduct(y);
      SqIsProduct(a * x + b * y);
      SqIsProduct(a * y - b * x);
      Lagrange(a, b, x, y);
    }
    assert u * v == u;
  }

  /** Lagrange's identity for two dimensions. */
  lemma Lagrange(a: real, b: real, x: real, y: real)
    ensures (a * x + b * y) * (a * x + b * y) + (a * y - b * x) * (a * y - b * x)
         == (a * a + b * b) * (x * x + y * y)
  {
  }

  /** A coordinate inside `[0, w]` is at most `w / 2` from the middle, and so is its square. */
  lemma HalfSpan(x: real, w: real)
    requires 0.0 <= x <= w
    ensures Sq(x - w / 2.0) <= Sq(w / 2.0)
  {
    SqIsProduct(x - w / 2.0);
    SqIsProduct(w / 2.0);
    assert Sq(w / 2.0) - Sq(x - w / 2.0) == x * (w - x);
    MulNonneg(x, w - x);
  }

  /** The brush drawn on a box covers it: every point of the box projects onto its axis. */
  lemma BrushCoversBox(w: real, h: real, deg: real, sin: real -> real, cos: real -> real,
                       hypot: (real, real) -> real, p: Point)
    requires 0.0 <= p.x <= w && 0.0 <= p.y <= h
    requires Sq(cos(deg * Pi / 180.0)) + Sq(sin(deg * Pi / 180.0)) == 1.0
    requires hypot(w, h) >= 0.0 && Sq(hypot(w, h)) == Sq(w) + Sq(h)
    ensures -HalfDiag(w, h, hypot) <= Projection(p, Center(w, h), Direction(deg, sin, cos)) <= HalfDiag(w, h, hypot)
  {
    var hd := HalfDiag(w, h, hypot);
    ProjectionWithinAxis(w, h, Direction(deg, sin, cos), hd, p);
  }
}
