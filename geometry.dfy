/**
 * Shared vocabulary of the four gradient effects: points and rectangles in
 * canvas coordinates (y grows downwards), the scalar helpers the effects
 * use (linear interpolation, clamping, smoothstep easing), and the abstract
 * trigonometric functions, which the model receives as parameters
 * constrained only by the facts the proofs need.
 */
module Geometry {

  datatype Point = Point(x: real, y: real)

  /** A clip rectangle given by its four edges, as `clipRect(left, top, right, bottom)`. */
  datatype Rect = Rect(left: real, top: real, right: real, bottom: real)

  /** The axis of a linear gradient brush: colours run from `start` to `end`. */
  datatype Axis = Axis(start: Point, end: Point)

  /** How a linear gradient continues beyond its axis: the end colours held, or the colours repeated. */
  datatype TileMode = Clamped | Repeated

  /** `Brush.linearGradient(colors, start, end, tileMode)`: 0xAARRGGBB colours spread evenly along `axis`. */
  datatype LinearGradient = LinearGradient(colors: seq<bv32>, axis: Axis, tileMode: TileMode)

  /** `c` is well ordered and lies inside `box`. */
  predicate Within(c: Rect, box: Rect) {
    box.left <= c.left <= c.right <= box.right &&
    box.top <= c.top <= c.bottom <= box.bottom
  }

  function Min(a: real, b: real): (m: real)
    ensures m <= a && m <= b && (m == a || m == b)
  {
    if a <= b then a else b
  }

  function Max(a: real, b: real): (m: real)
    ensures m >= a && m >= b && (m == a || m == b)
  {
    if a >= b then a else b
  }

  /** `x.coerceIn(lo, hi)`; Kotlin throws when `lo > hi`, hence the precondition. */
  function Clamp(x: real, lo: real, hi: real): (c: real)
    requires lo <= hi
    ensures lo <= c <= hi
    ensures lo <= x <= hi ==> c == x
    ensures x < lo ==> c == lo
    ensures x > hi ==> c == hi
  {
    if x < lo then lo else if x > hi then hi else x
  }

  /** Clamping keeps the order of two sums whose terms are ordered pairwise. */
  lemma ClampSumMonotone(b1: real, t1: real, b2: real, t2: real, lo: real, hi: real)
    requires b1 <= b2 && t1 <= t2 && lo <= hi
    ensures Clamp(b1 + t1, lo, hi) <= Clamp(b2 + t2, lo, hi)
  {
  }

  function Clamp01(x: real): (c: real)
    ensures 0.0 <= c <= 1.0
    ensures 0.0 <= x <= 1.0 ==> c == x
  {
    Clamp(x, 0.0, 1.0)
  }

  /** Linear interpolation `a + (b - a) * t`. */
  function Lerp(a: real, b: real, t: real): (v: real)
    ensures t == 0.0 ==> v == a
    ensures t == 1.0 ==> v == b
    ensures 0.0 <= t <= 1.0 ==> Min(a, b) <= v <= Max(a, b)
  {
    LerpBetween(a, b, t);
    a + (b - a) * t
  }

  lemma LerpBetween(a: real, b: real, t: real)
    ensures 0.0 <= t <= 1.0 ==> Min(a, b) <= a + (b - a) * t <= Max(a, b)
  {
    if 0.0 <= t <= 1.0 {
      if a <= b {
        MulNonneg(b - a, t);
        MulNonneg(b - a, 1.0 - t);
      } else {
        MulNonneg(a - b, t);
        MulNonneg(a - b, 1.0 - t);
      }
    }
  }

  lemma LerpAtStart(a: real, b: real, t: real)
    requires t == 0.0
    ensures Lerp(a, b, t) == a
  {
  }

  lemma LerpAtEnd(a: real, b: real, t: real)
    requires t == 1.0
    ensures Lerp(a, b, t) == b
  {
  }

  /** Lerp moves monotonically from `a` towards `b` as `t` grows. */
  lemma LerpMonotone(a: real, b: real, t1: real, t2: real)
    requires t1 <= t2
    ensures a <= b ==> Lerp(a, b, t1) <= Lerp(a, b, t2)
    ensures a >= b ==> Lerp(a, b, t1) >= Lerp(a, b, t2)
  {
    var d := Lerp(a, b, t2) - Lerp(a, b, t1);
    assert d == (b - a) * (t2 - t1);
    if a <= b {
      MulNonneg(b - a, t2 - t1);
    } else {
      MulNonneg(a - b, t2 - t1);
    }
  }

  /**
   * Cubic smoothstep `t * t * (3 - 2 * t)` of the input clamped into [0, 1]:
   * the within-phase easing of the carousel.
   */
  function Smoothstep01(x: real): (s: real)
    ensures 0.0 <= s <= 1.0
    ensures x <= 0.0 ==> s == 0.0
    ensures x >= 1.0 ==> s == 1.0
  {
    var t := Clamp01(x);
    SquareNonneg(t);
    MulNonneg(t * t, 3.0 - 2.0 * t);
    assert 1.0 - t * t * (3.0 - 2.0 * t) == (1.0 - t) * (1.0 - t) * (1.0 + 2.0 * t);
    assert (1.0 - t) * (1.0 - t) * (1.0 + 2.0 * t) >= 0.0 by {
      MulNonneg(1.0 - t, 1.0 - t);
      MulNonneg((1.0 - t) * (1.0 - t), 1.0 + 2.0 * t);
    }
    t * t * (3.0 - 2.0 * t)
  }

  /** Smoothstep never decreases: the easing never runs backwards. */
  lemma SmoothstepMonotone(x1: real, x2: real)
    requires x1 <= x2
    ensures Smoothstep01(x1) <= Smoothstep01(x2)
  {
    CubicMonotone(Clamp01(x1), Clamp01(x2));
  }

  /** `t * t * (3 - 2 * t)` is non-decreasing on [0, 1]. */
  lemma CubicMonotone(p: real, q: real)
    requires 0.0 <= p <= q <= 1.0
    ensures p * p * (3.0 - 2.0 * p) <= q * q * (3.0 - 2.0 * q)
  {
    // q^2(3 - 2q) - p^2(3 - 2p) == (q - p) * (3(p + q) - 2(p^2 + pq + q^2))
    var m := 3.0 * (p + q) - 2.0 * (p * p + p * q + q * q);
    assert q * q * (3.0 - 2.0 * q) - p * p * (3.0 - 2.0 * p) == (q - p) * m;
    MulNonneg(p, 1.0 - p);
    MulNonneg(q, 1.0 - q);
    MulNonneg(p, 1.0 - q);
    assert m >= 0.0;
    MulNonneg(q - p, m);
  }

  lemma DivNonneg(x: real, y: real)
    requires x >= 0.0 && y > 0.0
    ensures x / y >= 0.0
  {
  }

  lemma DivPositive(x: real, y: real)
    requires x > 0.0 && y > 0.0
    ensures x / y > 0.0
  {
  }

  lemma DivMonotone(x1: real, x2: real, y: real)
    requires x1 <= x2 && y > 0.0
    ensures x1 / y <= x2 / y
  {
  }

  /** Dividing by a larger positive number gives a smaller quotient. */
  lemma DivAntitone(x: real, y1: real, y2: real)
    requires x >= 0.0 && 0.0 < y1 <= y2
    ensures x / y2 <= x / y1
  {
    var a, b := x / y1, x / y2;
    assert a * y1 == x && b * y2 == x;
    DivNonneg(x, y1);
    if b > a {
      MulPositive(b - a, y2);
      MulNonneg(a, y2 - y1);
    }
  }

  lemma MulNonneg(x: real, y: real)
    ensures x >= 0.0 && y >= 0.0 ==> x * y >= 0.0
  {
  }

  lemma MulPositive(x: real, y: real)
    ensures x > 0.0 && y > 0.0 ==> x * y > 0.0
  {
  }

  /** `x * x`, with the sign facts the proofs need stated once. */
  function Sq(x: real): (s: real)
    ensures s >= 0.0
    ensures x != 0.0 ==> s > 0.0
  {
    Product(x, x)
  }

  /** `a * b`, with the sign of the product stated by cases. */
  function Product(a: real, b: real): (r: real)
    ensures a >= 0.0 && b >= 0.0 ==> r >= 0.0
    ensures a > 0.0 && b > 0.0 ==> r > 0.0
    ensures a < 0.0 && b < 0.0 ==> r > 0.0
    ensures a == 0.0 || b == 0.0 ==> r == 0.0
  {
    ProductSign(a, b);
    a * b
  }

  lemma ProductSign(a: real, b: real)
    ensures a >= 0.0 && b >= 0.0 ==> a * b >= 0.0
    ensures a > 0.0 && b > 0.0 ==> a * b > 0.0
    ensures a < 0.0 && b < 0.0 ==> a * b > 0.0
    ensures a == 0.0 || b == 0.0 ==> a * b == 0.0
  {
    if a > 0.0 && b > 0.0 {
      MulPositive(a, b);
    } else if a < 0.0 && b < 0.0 {
      MulPositive(-a, -b);
      assert (-a) * (-b) == a * b;
    } else if a >= 0.0 && b >= 0.0 {
      MulNonneg(a, b);
    }
  }

  lemma SqIsProduct(x: real)
    ensures Sq(x) == x * x
  {
  }

  lemma ProductIs(a: real, b: real)
    ensures Product(a, b) == a * b
  {
  }

  /** On non-negative numbers a smaller square means a smaller number. */
  lemma SqMonotone(a: real, b: real)
    requires 0.0 <= a && 0.0 <= b && Sq(a) <= Sq(b)
    ensures a <= b
  {
    if a > b {
      SquareGap(a, b);
    }
  }

  lemma SquareGap(a: real, b: real)
    ensures Sq(a) - Sq(b) == Product(a - b, a + b)
  {
    SqIsProduct(a);
    SqIsProduct(b);
    ProductIs(a - b, a + b);
  }

  /** Squaring is strictly increasing on the non-negative numbers. */
  lemma SqStrictlyIncreasing(a: real, b: real)
    requires 0.0 <= a < b
    ensures Sq(a) < Sq(b)
  {
    SquareGap(b, a);
  }

  /** A number in [0, 1] squares to at most 1. */
  lemma SqAtMostOne(x: real)
    ensures 0.0 <= x <= 1.0 ==> Sq(x) <= 1.0
  {
    SqIsProduct(1.0);
    if 0.0 <= x < 1.0 {
      SqStrictlyIncreasing(x, 1.0);
    }
  }

  lemma SquareNonneg(x: real)
    ensures x * x >= 0.0
  {
  }

  /** A stand-in for `sin` or `cos`: every value lies in [-1, 1]. */
  ghost predicate SineLike(f: real -> real) {
    forall x :: -1.0 <= f(x) <= 1.0
  }

  /** The Kotlin constant `(2.0 * PI).toFloat()`. */
  const TwoPi: real := 6.2831855
}
