/** Python's built-in `round`, on the exact value of its argument.
    `round(x)` returns the integer nearest to x, a tie going to the even
    integer; `round(x, 2)` rounds the same way to a multiple of 1/100. */
module PyRound {

  /** `round(x)`. */
  function RoundHalfEven(x: real): (r: int)
    ensures x - 0.5 <= r as real <= x + 0.5
    ensures (r as real == x - 0.5 || r as real == x + 0.5) ==> r % 2 == 0
  {
    var f := x.Floor;
    var d := x - f as real;
    if d < 0.5 then f
    else if d > 0.5 then f + 1
    else if f % 2 == 0 then f else f + 1
  }

  /** The integer closest to x is the rounded value whenever it is strictly
      closer than one half. */
  lemma RoundHalfEvenNearest(x: real, k: int)
    requires x - 0.5 < k as real < x + 0.5
    ensures RoundHalfEven(x) == k
  {
  }

  /** An integer is its own rounding. */
  lemma RoundHalfEvenOfInt(k: int)
    ensures RoundHalfEven(k as real) == k
  {
    RoundHalfEvenNearest(k as real, k);
  }

  /** Rounding never reverses an order. */
  lemma RoundHalfEvenMonotone(x: real, y: real)
    requires x <= y
    ensures RoundHalfEven(x) <= RoundHalfEven(y)
  {
  }

  /** `round(x, 2)`: the nearest whole number of hundredths, a tie going to
      the even one. */
  function RoundHundredths(x: real): (r: real)
    ensures x - 0.005 <= r <= x + 0.005
    ensures (r * 100.0).Floor as real == r * 100.0
    ensures (r == x - 0.005 || r == x + 0.005) ==> (r * 100.0).Floor % 2 == 0
  {
    RoundHalfEven(x * 100.0) as real / 100.0
  }

  /** The result is a whole number of hundredths. */
  lemma RoundHundredthsIsHundredths(x: real)
    ensures (RoundHundredths(x) * 100.0).Floor as real == RoundHundredths(x) * 100.0
  {
    var k := RoundHalfEven(x * 100.0);
    assert RoundHundredths(x) * 100.0 == k as real;
  }

  /** A value that already has at most two decimals is unchanged. */
  lemma RoundHundredthsOfHundredths(k: int)
    ensures RoundHundredths(k as real / 100.0) == k as real / 100.0
  {
    assert (k as real / 100.0) * 100.0 == k as real;
    RoundHalfEvenOfInt(k);
  }

  lemma RoundHundredthsMonotone(x: real, y: real)
    requires x <= y
    ensures RoundHundredths(x) <= RoundHundredths(y)
  {
    RoundHalfEvenMonotone(x * 100.0, y * 100.0);
  }
}
