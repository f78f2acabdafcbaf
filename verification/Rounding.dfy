/**
  `round(x, 6)` over the reals: the nearest multiple of 0.000001, ties to the even one.
  */
module Rounding {

  const SCALE := 1000000.0

  function RoundHalfEven(y: real): (k: int)
    ensures -0.5 <= k as real - y <= 0.5
  {
    var below := y.Floor;
    var part := y - below as real;
    if part < 0.5 || (part == 0.5 && below % 2 == 0) then below else below + 1
  }

  function Round6(x: real): real {
    RoundHalfEven(x * SCALE) as real / SCALE
  }

  lemma RoundHalfEvenMonotone(x: real, y: real)
    requires x <= y
    ensures RoundHalfEven(x) <= RoundHalfEven(y)
  {
  }

  lemma ScaleMonotone(x: real, y: real)
    requires x <= y
    ensures x * SCALE <= y * SCALE
    ensures x / SCALE <= y / SCALE
  {
  }

  /** When an integer is at most the rounding of `y`. */
  predicate WithinHalf(m: int, y: real) {
    m as real - y < 0.5 || (m as real - y == 0.5 && m % 2 == 0)
  }

  lemma AtMostRounded(m: int, y: real)
    ensures m <= RoundHalfEven(y) <==> WithinHalf(m, y)
  {
    var r := RoundHalfEven(y);
    if m as real - y < 0.5 {
      assert (m - r) as real < 1.0;
    } else if m as real - y == 0.5 {
      assert y.Floor == m - 1;
    } else {
      assert (m - r) as real > 0.0;
    }
  }

  /** Rounding keeps order, so rounded values differ strictly only if the exact ones do. */
  lemma Round6Monotone(x: real, y: real)
    requires x <= y
    ensures Round6(x) <= Round6(y)
  {
    ScaleMonotone(x, y);
    RoundHalfEvenMonotone(x * SCALE, y * SCALE);
    ScaleMonotone(RoundHalfEven(x * SCALE) as real, RoundHalfEven(y * SCALE) as real);
  }

  lemma Round6Integer(n: int)
    ensures Round6(n as real) == n as real
  {
    var k := n * 1000000;
    assert n as real * SCALE == k as real;
    assert RoundHalfEven(k as real) == k;
  }
}
