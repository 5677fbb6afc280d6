/**
 * One-decimal rounding shared by both balancers: Go's `math.Round(x*10) / 10`,
 * which rounds half away from zero, computed here on exact reals.
 */
module Rounding {

  /** `x` is a whole number of tenths. */
  predicate IsTenth(x: real) {
    (x * 10.0).Floor as real == x * 10.0
  }

  /** The tenth with numerator `k`. */
  function Tenths(k: int): (t: real)
    ensures IsTenth(t)
  {
    k as real / 10.0
  }

  /** `round(num)` of both balancer services. */
  function Round1(x: real): (r: real)
    ensures IsTenth(r)
    ensures x - 0.05 <= r <= x + 0.05
    ensures x >= 0.0 ==> r >= 0.0
    ensures x <= 0.0 ==> r <= 0.0
  {
    if x >= 0.0 then
      var f := (x * 10.0 + 0.5).Floor;
      FloorBounds(x * 10.0 + 0.5);
      Tenths(f)
    else
      var f := (-x * 10.0 + 0.5).Floor;
      FloorBounds(-x * 10.0 + 0.5);
      NegatedTenth(f);
      -Tenths(f)
  }

  lemma NegatedTenth(k: int)
    ensures -Tenths(k) == Tenths(-k)
  {
  }

  lemma FloorBounds(y: real)
    ensures y - 1.0 < y.Floor as real <= y
  {
  }

  /** No other tenth is closer to `x` than `Round1(x)`. */
  lemma Round1IsNearestTenth(x: real, k: int)
    ensures var r := Round1(x); var t := Tenths(k);
      (if x >= r then x - r else r - x) <= (if x >= t then x - t else t - x)
  {
    var r := Round1(x);
    var n := (r * 10.0).Floor;
    assert r == Tenths(n);
    // both r and Tenths(k) are multiples of 0.1; r is within 0.05 of x
    if k > n {
      assert Tenths(k) >= r + 0.1;
    } else if k < n {
      assert Tenths(k) <= r - 0.1;
    }
  }

  /** Exact halves are rounded away from zero. */
  lemma Round1HalfAwayFromZero(k: nat)
    ensures Round1(Tenths(k) + 0.05) == Tenths(k + 1)
    ensures Round1(-(Tenths(k) + 0.05)) == -Tenths(k + 1)
  {
    assert (Tenths(k) + 0.05) * 10.0 + 0.5 == (k + 1) as real;
  }

  /** Rounding a value that already has one decimal changes nothing. */
  lemma Round1KeepsTenths(x: real)
    requires IsTenth(x)
    ensures Round1(x) == x
  {
    var k := (x * 10.0).Floor;
    if x >= 0.0 {
      assert (x * 10.0 + 0.5).Floor == k by { FloorOfHalfAbove(k); assert x * 10.0 + 0.5 == k as real + 0.5; }
    } else {
      assert (-x * 10.0 + 0.5).Floor == -k by { FloorOfHalfAbove(-k); assert -x * 10.0 + 0.5 == (-k) as real + 0.5; }
    }
  }

  lemma FloorOfHalfAbove(k: int)
    ensures (k as real + 0.5).Floor == k
  {
    FloorBounds(k as real + 0.5);
  }

  /** Rounding is symmetric about zero. */
  lemma Round1Odd(x: real)
    ensures Round1(-x) == -Round1(x)
  {
    if x == 0.0 {
      assert Round1(0.0) == 0.0 by { Round1KeepsTenths(0.0); }
    }
  }

  /** The values the rounding table of both balancer tests expects. */
  lemma Round1Examples()
    ensures Round1(10.56) == 10.6
    ensures Round1(10.54) == 10.5
    ensures Round1(10.50) == 10.5
    ensures Round1(0.0) == 0.0
    ensures Round1(-10.56) == -10.6
  {
    assert (10.56 * 10.0 + 0.5).Floor == 106;
    assert (10.54 * 10.0 + 0.5).Floor == 105;
    Round1KeepsTenths(10.5);
    Round1KeepsTenths(0.0);
  }
}
