/** The few pieces of the engine's arithmetic that the game logic relies on. */
module UnityMath {

  /** A single-precision value that may be +infinity (rounding is not modelled). */
  datatype Float = Finite(value: real) | PositiveInfinity

  /** `a >= b` in the order of the engine's floats, where +infinity is the largest value. */
  predicate AtLeast(a: Float, b: Float)
  {
    match (a, b)
    case (PositiveInfinity, _) => true
    case (Finite(_), PositiveInfinity) => false
    case (Finite(x), Finite(y)) => x >= y
  }

  lemma AtLeastIsTotal(a: Float, b: Float)
    ensures AtLeast(a, b) || AtLeast(b, a)
  {
  }

  /** A two-component vector; for rotations x is the pitch and y the yaw, in degrees. */
  datatype Vec2 = Vec2(x: real, y: real)

  /** Mathf.Clamp: the value limited to [min, max]. */
  function Clamp(value: real, min: real, max: real): (r: real)
    ensures min <= max ==> min <= r <= max
    ensures min <= value <= max ==> r == value
  {
    if value < min then min else if value > max then max else value
  }

  /** Mathf.Clamp01. */
  function Clamp01(t: real): (r: real)
    ensures 0.0 <= r <= 1.0
  {
    Clamp(t, 0.0, 1.0)
  }

  /** Mathf.Lerp on one component: a + (b - a) * Clamp01(t). */
  function Lerp(a: real, b: real, t: real): real
  {
    a + (b - a) * Clamp01(t)
  }

  /** The interpolated value lies between the two end points. */
  lemma LerpBetweenEnds(a: real, b: real, t: real)
    ensures a <= b ==> a <= Lerp(a, b, t) <= b
    ensures b <= a ==> b <= Lerp(a, b, t) <= a
  {
    LerpBetween(a, b, Clamp01(t));
  }

  lemma LerpBetween(a: real, b: real, u: real)
    requires 0.0 <= u <= 1.0
    ensures a <= b ==> a <= a + (b - a) * u <= b
    ensures b <= a ==> b <= a + (b - a) * u <= a
  {
    var d := b - a;
    assert d - d * u == d * (1.0 - u);
    if a <= b {
      ProductNonNegative(d, u);
      ProductNonNegative(d, 1.0 - u);
    } else {
      ProductNonNegative(-d, u);
      ProductNonNegative(-d, 1.0 - u);
    }
  }

  lemma ProductNonNegative(x: real, y: real)
    requires 0.0 <= x && 0.0 <= y
    ensures 0.0 <= x * y
  {
  }

  /** Vector2.Lerp. */
  function LerpVec(a: Vec2, b: Vec2, t: real): Vec2
  {
    Vec2(Lerp(a.x, b.x, t), Lerp(a.y, b.y, t))
  }

  /** The axis-aligned box [minX, maxX] x [minY, maxY] of allowed rotations. */
  datatype Box = Box(minX: real, maxX: real, minY: real, maxY: real)
  {
    predicate NonEmpty() { minX <= maxX && minY <= maxY }
    predicate Contains(v: Vec2) { minX <= v.x <= maxX && minY <= v.y <= maxY }
  }

  /** Smoothing between two points of a box never leaves the box. */
  lemma LerpStaysInBox(box: Box, a: Vec2, b: Vec2, t: real)
    requires box.Contains(a) && box.Contains(b)
    ensures box.Contains(LerpVec(a, b, t))
  {
    LerpBetweenEnds(a.x, b.x, t);
    LerpBetweenEnds(a.y, b.y, t);
  }
}
