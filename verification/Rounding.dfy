/** Rounding to the nearest integer, ties to even, as Python and NumPy do it. */
module Rounding {

  function RoundHalfEven(x: real): int {
    var f := x.Floor;
    var frac := x - f as real;
    if frac < 0.5 then f else if frac > 0.5 then f + 1 else if f % 2 == 0 then f else f + 1
  }

  /** The nearest integer, and of two equally near ones the even one: no other integer is so. */
  ghost predicate IsRounded(x: real, r: int) {
    x - 0.5 <= r as real <= x + 0.5 && (r as real == x - 0.5 || r as real == x + 0.5 ==> r % 2 == 0)
  }

  lemma RoundHalfEvenIff(x: real, r: int)
    ensures r == RoundHalfEven(x) <==> IsRounded(x, r)
  {
    var f := x.Floor;
    assert f as real <= x < f as real + 1.0;
    if IsRounded(x, r) {
      assert r == f || r == f + 1;
    }
  }

  /** Numbers more than one apart never round to the same integer. */
  lemma RoundSeparates(x: real, y: real)
    requires y - x > 1.0
    ensures RoundHalfEven(x) < RoundHalfEven(y)
  {
  }

  lemma RoundInteger(n: int)
    ensures RoundHalfEven(n as real) == n
  {
  }
}
