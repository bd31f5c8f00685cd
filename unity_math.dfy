/**
 * The pieces of C# and Unity arithmetic that the effects rely on, stated over
 * unbounded integers and reals: Mathf.Max, Mathf.Clamp (which every
 * ClampedFloatParameter applies when its value is written), C#'s truncating
 * integer division, and Vector2's approximate equality.
 */
module UnityMath {

  /** Mathf.Max(a, b), written `a > b ? a : b`. */
  function Max(a: real, b: real): (r: real)
    ensures r >= a && r >= b
    ensures r == a || r == b
  {
    if a > b then a else b
  }

  /**
   * Mathf.Clamp(v, lo, hi). A ClampedFloatParameter(default, lo, hi) stores
   * Clamp(v, lo, hi) whenever `v` is assigned to its value.
   */
  function Clamp(v: real, lo: real, hi: real): (r: real)
    requires lo <= hi
    ensures lo <= r <= hi
    ensures lo <= v <= hi ==> r == v
    ensures r != v ==> (v < lo && r == lo) || (v > hi && r == hi)
  {
    if v < lo then lo else if v > hi then hi else v
  }

  /**
   * C#'s `a / b` on int for a non-negative dividend (a screen or texture
   * size): the quotient truncated toward zero, so a negative divisor gives
   * the negated quotient of its magnitude. A zero divisor throws
   * DivideByZeroException; callers check `b != 0` and model the exception.
   */
  function Quot(a: nat, b: int): (q: int)
    requires b != 0
    ensures b > 0 ==> 0 <= q && q * b <= a < (q + 1) * b
    ensures b < 0 ==> q <= 0 && q * b <= a < (1 - q) * (-b)
  {
    if b > 0 then
      FloorBounds(a, b);
      a / b
    else
      FloorBounds(a, -b);
      -(a / -b)
  }

  /** A positive divisor never makes the quotient exceed the dividend, and 1 leaves it unchanged. */
  lemma QuotAtMost(a: nat, b: int)
    requires b > 0
    ensures 0 <= Quot(a, b) <= a
    ensures b == 1 ==> Quot(a, b) == a
  {
    var q := Quot(a, b);
    MulAtLeast(q, b);
  }

  lemma {:induction false} MulAtLeast(q: nat, b: nat)
    requires b >= 1
    ensures q * b >= q
  {
    if b > 1 {
      MulAtLeast(q, b - 1);
      assert q * b == q * (b - 1) + q;
    }
  }

  /** Floor division of naturals, bracketed by consecutive multiples of the divisor. */
  lemma FloorBounds(n: nat, d: nat)
    requires d > 0
    ensures 0 <= n / d
    ensures (n / d) * d <= n < (n / d + 1) * d
  {
    var m := n / d;
    assert n == d * m + n % d;
    assert (m + 1) * d == m * d + d;
  }

  /** Vector2.kEpsilon. */
  const Epsilon: real := 0.00001

  datatype Vector2 = Vector2(x: real, y: real)

  /**
   * `v == Vector2.zero` in Unity: Vector2's `==` holds when the squared
   * distance is below kEpsilon squared, not only on exact equality.
   */
  predicate IsZero(v: Vector2): (zero: bool)
    ensures v == Vector2(0.0, 0.0) ==> zero
  {
    v.x * v.x + v.y * v.y < Epsilon * Epsilon
  }

  /** A vector that compares equal to Vector2.zero has both components within kEpsilon of 0. */
  lemma ZeroWithinEpsilon(v: Vector2)
    requires IsZero(v)
    ensures -Epsilon < v.x < Epsilon && -Epsilon < v.y < Epsilon
  {
    SquareBelow(v.x, v.y);
    SquareBelow(v.y, v.x);
  }

  /** A component whose square stays below kEpsilon squared lies within kEpsilon of 0. */
  lemma SquareBelow(a: real, b: real)
    ensures a * a + b * b < Epsilon * Epsilon ==> -Epsilon < a < Epsilon
  {
    if a >= Epsilon || a <= -Epsilon {
      assert a * a >= Epsilon * Epsilon;
    }
  }

  /** A vector with both components equal to p compares unequal to zero once |p| reaches kEpsilon. */
  lemma DiagonalAwayFromZero(p: real)
    requires p >= Epsilon || p <= -Epsilon
    ensures !IsZero(Vector2(p, p))
  {
    assert p * p >= Epsilon * Epsilon;
  }
}
