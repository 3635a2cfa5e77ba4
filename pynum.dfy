/**
 * The Python numeric built-ins the calendar code applies to floats, over
 * exact reals: `int(x)` truncates toward zero and the one-argument `round`
 * rounds half to even (banker's rounding).
 */
module PyNum {

  function Max(a: int, b: int): int { if a < b then b else a }

  function Min(a: int, b: int): int { if a < b then a else b }

  function MinReal(a: real, b: real): real { if a < b then a else b }

  function AbsReal(x: real): real { if x < 0.0 then -x else x }

  /** `int(x)` for a float `x`: the integer part, truncated toward zero. */
  function Trunc(x: real): (r: int)
    ensures 0.0 <= x ==> 0 <= r && r as real <= x < r as real + 1.0
    ensures x < 0.0 ==> r <= 0 && x <= r as real < x + 1.0
  {
    if 0.0 <= x then x.Floor else -((-x).Floor)
  }

  /** `round(x)` for a float `x`: the nearest integer, ties to the even one. */
  function RoundHalfEven(x: real): (r: int)
    ensures AbsReal(r as real - x) <= 0.5
    ensures AbsReal(r as real - x) == 0.5 ==> r % 2 == 0
  {
    var f := x.Floor;
    var d := x - f as real;
    if d < 0.5 then f
    else if d > 0.5 then f + 1
    else if f % 2 == 0 then f
    else f + 1
  }

  /** `round(x, 2)`: `x` rounded to two decimals, ties to even. */
  function Round2(x: real): (r: real)
    ensures AbsReal(r - x) <= 0.005
  {
    RoundHalfEven(x * 100.0) as real / 100.0
  }

  /** An integer strictly closer than one half to `x` is what `round` picks. */
  lemma RoundNearest(x: real, n: int)
    requires AbsReal(x - n as real) < 0.5
    ensures RoundHalfEven(x) == n
  {
  }

  /** `round` leaves integers unchanged. */
  lemma RoundInteger(n: int)
    ensures RoundHalfEven(n as real) == n
  {
    RoundNearest(n as real, n);
  }

  /** `int()` never goes down when its argument goes up. */
  lemma TruncMonotonic(x: real, y: real)
    requires x <= y
    ensures Trunc(x) <= Trunc(y)
  {
  }
}
