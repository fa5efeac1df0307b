/** Math.Round(x, 2) with its default midpoint rule (to even), on exact reals. */
module Rounding {

  /** The whole number of hundredths nearest to `y`/100, ties going to the even one. */
  function NearestEven(y: real): (n: int)
    ensures -0.5 <= n as real - y <= 0.5
    ensures n as real - y == 0.5 || n as real - y == -0.5 ==> n % 2 == 0
  {
    var fl := y.Floor;
    var frac := y - fl as real;
    if frac < 0.5 then fl
    else if frac > 0.5 then fl + 1
    else if fl % 2 == 0 then fl
    else fl + 1
  }

  /** Rounds `x` to two decimals. */
  function Round2(x: real): (r: real)
    ensures -0.005 <= r - x <= 0.005
    ensures IsHundredths(r)
  {
    NearestEven(x * 100.0) as real / 100.0
  }

  predicate IsHundredths(r: real) {
    (r * 100.0).Floor as real == r * 100.0
  }

  /** No whole number of hundredths is strictly nearer to `x` than `Round2(x)`. */
  lemma Round2IsNearest(x: real, n: int)
    ensures var r := Round2(x); Abs(r - x) <= Abs(n as real / 100.0 - x)
  {
    var y := x * 100.0;
    var m := NearestEven(y);
    var fl := y.Floor;
    assert fl as real <= y < fl as real + 1.0;
    assert m == fl || m == fl + 1;
    if n <= fl {
      assert n as real - y <= fl as real - y;
    } else {
      assert n as real - y >= (fl + 1) as real - y;
    }
    assert Abs(m as real - y) <= Abs(n as real - y);
    ScaleAbs(m as real - y);
    ScaleAbs(n as real - y);
  }

  /** A value that is already a whole number of hundredths is left unchanged. */
  lemma Round2OfHundredths(r: real)
    requires IsHundredths(r)
    ensures Round2(r) == r
  {
    var y := r * 100.0;
    assert y.Floor as real == y;
  }

  /** A value strictly within half a hundredth of n/100 rounds to n/100. */
  lemma Round2Near(x: real, n: int)
    requires n as real - 0.5 < x * 100.0 < n as real + 0.5
    ensures Round2(x) == n as real / 100.0
  {
    var r := Round2(x);
    var m := (r * 100.0).Floor;
    assert m as real == r * 100.0;
    assert -0.5 <= m as real - x * 100.0 <= 0.5;
    assert n - 1 < m < n + 1;
  }

  function Abs(x: real): real {
    if x < 0.0 then -x else x
  }

  lemma ScaleAbs(d: real)
    ensures Abs(d / 100.0) == Abs(d) / 100.0
  {
  }
}
