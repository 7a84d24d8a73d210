/**
 * The few places where Go's arithmetic differs from Dafny's: integer division
 * truncates toward zero, math.Round rounds halves away from zero, and a
 * float-to-int conversion truncates. Go's float64 is modelled as an exact real.
 */
module GoNumeric {

  /** Go's `x / 2` on `int`: the quotient truncated toward zero. */
  function Half(x: int): (q: int)
    ensures x >= 0 ==> 0 <= x - 2 * q <= 1
    ensures x < 0 ==> 0 <= 2 * q - x <= 1
  {
    if x >= 0 then x / 2 else -((-x) / 2)
  }

  /** Go's math.Round: the nearest integer, a half rounded away from zero. */
  function Round(x: real): (n: int)
    ensures -0.5 <= n as real - x <= 0.5
    ensures n as real - x == 0.5 ==> x > 0.0
    ensures x - n as real == 0.5 ==> x < 0.0
  {
    if x >= 0.0 then (x + 0.5).Floor else -((0.5 - x).Floor)
  }

  /** `math.Round(x*100) / 100`: `x` rounded to two decimal places. */
  function Round2(x: real): (y: real)
    ensures y * 100.0 == Round(x * 100.0) as real
    ensures -0.005 <= y - x <= 0.005
  {
    Round(x * 100.0) as real / 100.0
  }

  /** Go's conversion `int(x)` of a float: truncation toward zero. */
  function Truncate(x: real): (n: int)
    ensures x >= 0.0 ==> 0.0 <= x - n as real < 1.0
    ensures x < 0.0 ==> 0.0 <= n as real - x < 1.0
  {
    if x >= 0.0 then x.Floor else -((-x).Floor)
  }
}
