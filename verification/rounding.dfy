/** `Math.round(x * 100) / 100` over exact reals: JavaScript's `Math.round`
    rounds to the nearest integer and sends halves toward +infinity, which is
    `Floor(y + 1/2)`. */
module Rounding {

  /** x is a whole number of hundredths (a value that already went through Round2). */
  predicate IsCents(x: real) {
    (100.0 * x).Floor as real == 100.0 * x
  }

  /** Round to two decimals, halves upward. */
  function Round2(x: real): (r: real)
    ensures x - 0.005 < r <= x + 0.005
    ensures IsCents(r)
  {
    var n := (100.0 * x + 0.5).Floor;
    assert 100.0 * (n as real / 100.0) == n as real;
    n as real / 100.0
  }

  /** Rounding never reorders two values. */
  lemma Round2Monotone(x: real, y: real)
    requires x <= y
    ensures Round2(x) <= Round2(y)
  {
    var a := (100.0 * x + 0.5).Floor;
    var b := (100.0 * y + 0.5).Floor;
    assert a as real <= 100.0 * y + 0.5 < b as real + 1.0;
    assert a <= b;
  }

  /** A whole number of hundredths is left alone. */
  lemma Round2OfCents(n: int)
    ensures Round2(n as real / 100.0) == n as real / 100.0
  {
    var x := n as real / 100.0;
    assert 100.0 * x + 0.5 == n as real + 0.5;
    assert (n as real + 0.5).Floor == n;
  }

  /** Rounding twice is rounding once. */
  lemma Round2Idempotent(x: real)
    ensures Round2(Round2(x)) == Round2(x)
  {
    var n := (100.0 * x + 0.5).Floor;
    Round2OfCents(n);
  }

  /** Values already in cents are fixed points of Round2. */
  lemma Round2FixesCents(x: real)
    requires IsCents(x)
    ensures Round2(x) == x
  {
    var n := (100.0 * x).Floor;
    assert x == n as real / 100.0;
    Round2OfCents(n);
  }

  /** Rounding keeps a value that lies in [0,100] inside [0,100]. */
  lemma Round2InPercentRange(x: real)
    requires 0.0 <= x <= 100.0
    ensures 0.0 <= Round2(x) <= 100.0
  {
    Round2Monotone(0.0, x);
    Round2Monotone(x, 100.0);
    Round2OfCents(0);
    Round2OfCents(10000);
  }

  /** 100x lies exactly halfway between two whole hundredths. */
  predicate IsHalfCent(x: real) {
    IsCents(x + 0.005)
  }

  /** Rounding x and 100 - x separately gives back 100, except at a
      half-cent tie, where both round upward and the pair sums to 100.01. */
  lemma Round2Complement(x: real)
    ensures !IsHalfCent(x) ==> Round2(x) + Round2(100.0 - x) == 100.0
    ensures IsHalfCent(x) ==> Round2(x) + Round2(100.0 - x) == 100.01
  {
    var y := 100.0 * x;
    var a := (y + 0.5).Floor;
    var b := (100.0 * (100.0 - x) + 0.5).Floor;
    assert 100.0 * (100.0 - x) + 0.5 == 10001.0 - (y + 0.5);
    assert IsHalfCent(x) <==> a as real == y + 0.5;
    if a as real == y + 0.5 {
      assert b == 10001 - a;
    } else {
      assert a as real < y + 0.5 < a as real + 1.0;
      assert 10000.0 - a as real < 10001.0 - (y + 0.5) < 10001.0 - a as real;
      assert b == 10000 - a;
    }
  }
}
