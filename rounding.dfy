/**
 * Python's `round(x, 2)`, taken on the exact value of x: the nearest whole
 * number of hundredths, a tie going to the even neighbour. Binary floating
 * point is not modelled; values are exact reals.
 */
module Rounding {

  /** The number of hundredths round(x, 2) stands for. */
  function Hundredths(x: real): (k: int)
    ensures k as real - 0.5 <= x * 100.0 <= k as real + 0.5
    ensures x * 100.0 == k as real - 0.5 ==> k % 2 == 0
    ensures x * 100.0 == k as real + 0.5 ==> k % 2 == 0
  {
    var scaled := x * 100.0;
    var below := scaled.Floor;
    var excess := scaled - below as real;
    if excess < 0.5 then below
    else if excess > 0.5 then below + 1
    else if below % 2 == 0 then below else below + 1
  }

  function Round2(x: real): (r: real)
    ensures -0.005 <= r - x <= 0.005
  {
    Hundredths(x) as real / 100.0
  }

  /** Rounding never reverses the order of two values. */
  lemma HundredthsMonotone(x: real, y: real)
    requires x <= y
    ensures Hundredths(x) <= Hundredths(y)
  {
    // Two values within half a hundredth of neighbouring counts could only
    // cross at a tie, and a tie always goes to the even neighbour.
  }

  /** A value that already is a whole number of hundredths is left as it is. */
  lemma HundredthsExact(k: int)
    ensures Hundredths(k as real / 100.0) == k
  {
  }

  lemma Round2Idempotent(x: real)
    ensures Round2(Round2(x)) == Round2(x)
  {
    HundredthsExact(Hundredths(x));
  }

  /** Rounding a value between two whole hundredths stays between them. */
  lemma Round2Between(lo: int, hi: int, x: real)
    requires lo as real / 100.0 <= x <= hi as real / 100.0
    ensures lo as real / 100.0 <= Round2(x) <= hi as real / 100.0
    ensures lo <= Hundredths(x) <= hi
  {
    HundredthsMonotone(lo as real / 100.0, x);
    HundredthsMonotone(x, hi as real / 100.0);
    HundredthsExact(lo);
    HundredthsExact(hi);
  }
}
