/**
  The few pieces of the host engine's maths library that the scripts call,
  written out over `real` (IEEE rounding is not modelled).
 */
module UnityMath {

  /** A position, direction or scale; the engine's Vector3. */
  datatype Vector3 = Vector3(x: real, y: real, z: real)
  {
    function Plus(other: Vector3): Vector3 {
      Vector3(x + other.x, y + other.y, z + other.z)
    }

    function Scaled(k: real): Vector3 {
      Vector3(k * x, k * y, k * z)
    }

    function Minus(other: Vector3): Vector3 {
      Vector3(x - other.x, y - other.y, z - other.z)
    }
  }

  const ZERO := Vector3(0.0, 0.0, 0.0)
  const UP := Vector3(0.0, 1.0, 0.0)

  /** A pair of limits; the engine's Vector2, used as (lower, upper). */
  datatype Vector2 = Vector2(x: real, y: real)

  /**
    Mathf.Clamp: the lower bound is tested first, then the upper one, so with
    crossed limits (min > max) a value below `min` still comes back as `min`.
   */
  function Clamp(value: real, min: real, max: real): (r: real)
    ensures min <= max ==> min <= r <= max
    ensures min <= value <= max ==> r == value
    ensures value < min ==> r == min
    ensures min <= value && max < value ==> r == max
  {
    if value < min then min
    else if value > max then max
    else value
  }

  /** Mathf.Clamp01 */
  function Clamp01(value: real): (r: real)
    ensures 0.0 <= r <= 1.0
    ensures 0.0 <= value <= 1.0 ==> r == value
  {
    Clamp(value, 0.0, 1.0)
  }

  /** Mathf.Lerp: interpolation with the parameter clamped to [0, 1]. */
  function Lerp(a: real, b: real, t: real): (r: real)
    ensures t <= 0.0 ==> r == a
    ensures t >= 1.0 ==> r == b
    ensures 0.0 <= t <= 1.0 ==> r == a + (b - a) * t
    ensures a <= b ==> a <= r <= b
    ensures b <= a ==> b <= r <= a
  {
    var c := Clamp01(t);
    var r := a + (b - a) * c;
    FractionOfGapBetween(a, b, c, r);
    r
  }

  /** Moving from `a` a fraction c in [0, 1] of the way to `b` stays between them. */
  lemma FractionOfGapBetween(a: real, b: real, c: real, r: real)
    requires 0.0 <= c <= 1.0 && r == a + (b - a) * c
    ensures a <= b ==> a <= r <= b
    ensures b <= a ==> b <= r <= a
    ensures c == 0.0 ==> r == a
    ensures c == 1.0 ==> r == b
  {
    var d := b - a;
    assert d * (1.0 - c) == d - d * c;
    if a <= b {
      NonNegativeProduct(d, c);
      NonNegativeProduct(d, 1.0 - c);
    } else {
      NonNegativeProduct(-d, c);
      NonNegativeProduct(-d, 1.0 - c);
    }
  }

  lemma NonNegativeProduct(x: real, y: real)
    requires 0.0 <= x && 0.0 <= y
    ensures 0.0 <= x * y
  {
  }

  function Abs(x: real): (r: real)
    ensures r >= 0.0
    ensures r == x || r == -x
  {
    if x < 0.0 then -x else x
  }
}
