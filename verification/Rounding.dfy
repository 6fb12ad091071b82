/** Rounding a number to the nearest whole one, halves to even. */
module Rounding {

  function RoundEven(x: real): int {
    var f := x.Floor;
    var rest := x - f as real;
    if rest < 0.5 || (rest == 0.5 && f % 2 == 0) then f else f + 1
  }

  /** Never more than a half away, and never against the order of the numbers rounded. */
  lemma RoundEvenIsNearest(x: real)
    ensures x - 0.5 <= RoundEven(x) as real <= x + 0.5
    ensures x == x.Floor as real ==> RoundEven(x) == x.Floor
  {
  }

  lemma RoundEvenMonotone(x: real, y: real)
    requires x <= y
    ensures RoundEven(x) <= RoundEven(y)
  {
    RoundEvenIsNearest(x);
    RoundEvenIsNearest(y);
    if x.Floor == y.Floor {
    } else {
      assert x.Floor + 1 <= y.Floor;
    }
  }

  lemma RoundEvenBetween(lo: int, x: real, hi: int)
    requires lo as real <= x <= hi as real
    ensures lo <= RoundEven(x) <= hi
  {
    RoundEvenMonotone(lo as real, x);
    RoundEvenMonotone(x, hi as real);
    assert (lo as real).Floor == lo && (hi as real).Floor == hi;
  }

  /** A number rounds to n exactly when it is less than a half away, or a half away from an even n. */
  lemma RoundEvenIs(x: real, n: int)
    ensures RoundEven(x) == n <==> -0.5 < x - n as real < 0.5 || ((x - n as real == 0.5 || x - n as real == -0.5) && n % 2 == 0)
  {
    RoundEvenIsNearest(x);
    var f := x.Floor;
    if n < f {
      assert n + 1 <= f;
    } else if n > f + 1 {
      assert f + 2 <= n;
    }
  }

  function HalfUp(x: real): int {
    (x + 0.5).Floor
  }

  /** Rounding half to even and rounding half up differ exactly halfway above an even number. */
  lemma HalfEvenAgainstHalfUp(x: real)
    ensures RoundEven(x) != HalfUp(x) <==> x - x.Floor as real == 0.5 && x.Floor % 2 == 0
  {
    var f := x.Floor;
    if x - f as real < 0.5 {
      assert HalfUp(x) == f;
    } else {
      assert HalfUp(x) == f + 1;
    }
  }
}
