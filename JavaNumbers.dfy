/** The two Java numeric conversions the core relies on, on Dafny reals:
    the `(int)` cast of a double and `Math.round(double)`. */
module JavaNumbers {

  const INT_MIN: int := -0x8000_0000
  const INT_MAX: int := 0x7fff_ffff
  const LONG_MIN: int := -0x8000_0000_0000_0000
  const LONG_MAX: int := 0x7fff_ffff_ffff_ffff

  function Clamp(n: int, lo: int, hi: int): (r: int)
    requires lo <= hi
    ensures lo <= r <= hi
    ensures lo <= n <= hi ==> r == n
  {
    if n < lo then lo else if n > hi then hi else n
  }

  /** Rounding toward zero. */
  function Truncate(x: real): (r: int)
    ensures 0.0 <= x ==> 0 <= r && r as real <= x < r as real + 1.0
    ensures x < 0.0 ==> r <= 0 && r as real - 1.0 < x <= r as real
  {
    if x >= 0.0 then x.Floor else -((-x).Floor)
  }

  /** Java's `(int) d`: truncation toward zero, saturating at the int range. */
  function DoubleToInt(x: real): (r: int)
    ensures INT_MIN <= r <= INT_MAX
    ensures INT_MIN as real <= x < INT_MAX as real + 1.0 ==> r == Truncate(x)
    ensures x >= INT_MAX as real ==> r == INT_MAX
    ensures x <= INT_MIN as real ==> r == INT_MIN
  {
    Clamp(Truncate(x), INT_MIN, INT_MAX)
  }

  /** Java's `Math.round(double)`: the floor of x + 1/2, saturating at the long range. */
  function Round(x: real): (r: int)
    ensures LONG_MIN <= r <= LONG_MAX
    ensures LONG_MIN as real - 0.5 <= x < LONG_MAX as real + 0.5 ==> x - 0.5 < r as real <= x + 0.5
    ensures x >= LONG_MAX as real ==> r == LONG_MAX
    ensures x < LONG_MIN as real - 0.5 ==> r == LONG_MIN
  {
    Clamp((x + 0.5).Floor, LONG_MIN, LONG_MAX)
  }

  lemma RoundMonotonic(x: real, y: real)
    requires x <= y
    ensures Round(x) <= Round(y)
  {
    assert (x + 0.5).Floor <= (y + 0.5).Floor;
  }

  lemma RoundOfInt(n: int)
    requires LONG_MIN <= n <= LONG_MAX
    ensures Round(n as real) == n
  {
    assert (n as real + 0.5).Floor == n;
  }
}
