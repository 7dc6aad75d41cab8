/** The two integer conversions the bar layout relies on: the default
    Math.Round of a quotient (round half to even) and the (int) cast of a
    real (truncation toward zero). */
module Rounding {

  function Abs(x: int): nat {
    if x < 0 then -x else x
  }

  /** Distance from a/b to the candidate q, scaled by 2b so that it stays an integer. */
  function TwiceError(a: int, b: int, q: int): nat {
    2 * Abs(a - q * b)
  }

  /** The nearest integer to a/b, ties going to the even neighbour. */
  ghost predicate IsRoundHalfEven(a: int, b: int, q: int)
    requires b >= 1
  {
    TwiceError(a, b, q) < b || (TwiceError(a, b, q) == b && q % 2 == 0)
  }

  /** Math.Round((double)a / (double)b), computed exactly from the
      (Euclidean) quotient and remainder. */
  function RoundHalfEven(a: int, b: int): (q: int)
    requires b >= 1
    ensures IsRoundHalfEven(a, b, q)
  {
    var d := a / b;
    var m := a % b;
    assert a - d * b == m;
    assert a - (d + 1) * b == m - b;
    if 2 * m < b then d
    else if 2 * m > b then d + 1
    else if d % 2 == 0 then d
    else d + 1
  }

  lemma MulMonotone(x: int, y: int, b: int)
    requires b >= 1 && x <= y
    ensures x * b <= y * b
  {
  }

  lemma Distribute(q: int, r: int, b: int)
    ensures q * b == r * b + (q - r) * b
  {
  }

  lemma TwoRoundingsAgree(a: int, b: int, q: int, r: int)
    requires b >= 1
    requires IsRoundHalfEven(a, b, q) && IsRoundHalfEven(a, b, r)
    ensures q == r
  {
    var d := q - r;
    var e, f := a - r * b, a - q * b;
    Distribute(q, r, b);
    assert e - f == d * b;
    assert -b <= 2 * e <= b && -b <= 2 * f <= b;
    if d >= 2 {
      MulMonotone(2, d, b);
      assert false;
    } else if d <= -2 {
      MulMonotone(2, -d, b);
      assert false;
    } else if d == 1 || d == -1 {
      assert false;
    }
  }

  /** Round half to even has exactly one answer. */
  lemma RoundHalfEvenUnique(a: int, b: int, q: int)
    requires b >= 1
    requires IsRoundHalfEven(a, b, q)
    ensures q == RoundHalfEven(a, b)
  {
    TwoRoundingsAgree(a, b, q, RoundHalfEven(a, b));
  }

  /** The C# conversion (int)x: the fractional part is dropped, toward zero. */
  function Truncate(x: real): (n: int)
    ensures 0.0 <= x ==> n as real <= x < n as real + 1.0
    ensures x < 0.0 ==> n as real - 1.0 < x <= n as real
    ensures x <= 0.0 ==> n <= 0
  {
    if x >= 0.0 then x.Floor else -((-x).Floor)
  }
}
