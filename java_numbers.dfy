/** Java's numeric conversions that the views rely on, written out over
    Dafny's unbounded `int` and exact `real`. */
module JavaNumbers {

  const IntMax: int := 0x7FFF_FFFF
  const IntMin: int := -0x8000_0000

  function Max(a: real, b: real): real { if a >= b then a else b }

  function Min(a: real, b: real): real { if a <= b then a else b }

  function Abs(x: real): (r: real)
    ensures r >= 0.0 && (r == x || r == -x)
  {
    if x < 0.0 then -x else x
  }

  /** Rounding toward zero, the rounding of a Java `(int)` cast. */
  function Trunc(x: real): (r: int)
    ensures x >= 0.0 ==> r as real <= x < r as real + 1.0
    ensures x < 0.0 ==> r as real - 1.0 < x <= r as real
  {
    if x >= 0.0 then x.Floor else -((-x).Floor)
  }

  /** Java's `(int)` cast of a floating-point value: truncation toward zero,
      saturating at the bounds of a 32-bit `int`. */
  function JavaIntCast(x: real): (r: int)
    ensures IntMin <= r <= IntMax
    ensures IntMin as real <= x <= IntMax as real ==> r == Trunc(x)
    ensures x >= IntMax as real ==> r == IntMax
    ensures x <= IntMin as real ==> r == IntMin
  {
    if x >= IntMax as real then IntMax
    else if x <= IntMin as real then IntMin
    else Trunc(x)
  }

  /** Java's `(int) (num / den)` for floats. Dividing by zero
      yields an infinity (cast to the saturated bound) or NaN (cast to 0). */
  function CastQuotient(num: real, den: real): (r: int)
    ensures IntMin <= r <= IntMax
    ensures den > 0.0 && num >= 0.0 ==> r >= 0
    ensures den > 0.0 && num >= 0.0 && num / den < IntMax as real ==> r as real <= num / den < r as real + 1.0
    ensures den == 0.0 ==> (r > 0 <==> num > 0.0) && (r < 0 <==> num < 0.0)
  {
    if den == 0.0 then (if num > 0.0 then IntMax else if num < 0.0 then IntMin else 0)
    else JavaIntCast(num / den)
  }

  /** Java's integer `/`, which rounds toward zero. */
  function Quot(a: int, b: int): (q: int)
    requires b != 0
    ensures a >= 0 && b > 0 ==> q == a / b
    ensures b > 0 && a >= 0 ==> 0 <= a - q * b < b
    ensures b > 0 && a < 0 ==> -b < a - q * b <= 0
  {
    if a >= 0 then (if b > 0 then a / b else -(a / -b))
    else (if b > 0 then -((-a) / b) else (-a) / (-b))
  }

  lemma {:induction false} TruncMonotone(x: real, y: real)
    requires x <= y
    ensures Trunc(x) <= Trunc(y)
  {
    if x >= 0.0 {
    } else if y < 0.0 {
      assert (-y).Floor <= (-x).Floor;
    }
  }

  lemma JavaIntCastMonotone(x: real, y: real)
    requires x <= y
    ensures JavaIntCast(x) <= JavaIntCast(y)
  {
    TruncMonotone(x, y);
  }

  /** An `int` stored in a float and cast back is unchanged. */
  lemma JavaIntCastOfInt(n: int)
    requires IntMin <= n <= IntMax
    ensures JavaIntCast(n as real) == n
  {
  }
}
