/**
 * Python's numeric conversions on exact reals: `int(x)` truncates toward
 * zero, `round(x, d)` rounds half to even at `d` decimal places, and `//`
 * floors. Binary floating point is not modelled.
 */
module Numbers {

  /** `int(x)` for a float: truncation toward zero. */
  function Trunc(x: real): (r: int)
    ensures 0.0 <= x ==> r as real <= x < r as real + 1.0
    ensures x < 0.0 ==> r as real - 1.0 < x <= r as real
  {
    if x >= 0.0 then x.Floor else -((-x).Floor)
  }

  function Pow10(d: nat): (p: nat)
    ensures p >= 1
  {
    if d == 0 then 1 else 10 * Pow10(d - 1)
  }

  /** Round half to even to an integer (Python's `round(x)`). */
  function RoundHalfEven(x: real): (r: int)
    ensures x - 0.5 <= r as real <= x + 0.5
  {
    var f := x.Floor;
    var frac := x - f as real;
    if frac < 0.5 then f
    else if frac > 0.5 then f + 1
    else if f % 2 == 0 then f
    else f + 1
  }

  /** `10^d` as a real. */
  function Scale(d: nat): (p: real)
    ensures p >= 1.0 && IsWhole(p)
  {
    var n := Pow10(d);
    assert (n as real).Floor == n;
    n as real
  }

  /** Rounds `x` half to even to a multiple of `1/p`. */
  function RoundScaled(x: real, p: real): real
    requires p >= 1.0
  {
    (RoundHalfEven(x * p) as real) / p
  }

  /** `round(x, d)`. */
  function RoundTo(x: real, d: nat): real
  {
    RoundScaled(x, Scale(d))
  }

  lemma {:induction false} RoundHalfEvenMonotone(x: real, y: real)
    requires x <= y
    ensures RoundHalfEven(x) <= RoundHalfEven(y)
  {
    var fx, fy := x.Floor, y.Floor;
    if fx == fy {
    } else {
      assert fx < fy;
    }
  }

  lemma RoundScaledMonotone(x: real, y: real, p: real)
    requires x <= y && p >= 1.0
    ensures RoundScaled(x, p) <= RoundScaled(y, p)
  {
    MultiplyMonotone(x, y, p);
    RoundHalfEvenMonotone(x * p, y * p);
    DivideMonotone(RoundHalfEven(x * p) as real, RoundHalfEven(y * p) as real, p);
  }

  lemma MultiplyMonotone(x: real, y: real, p: real)
    requires x <= y && p >= 1.0
    ensures x * p <= y * p
  {
  }

  lemma DivideMonotone(a: real, b: real, p: real)
    requires a <= b && p >= 1.0
    ensures a / p <= b / p
  {
  }

  /** Rounding is monotone: it never reverses the order of two numbers. */
  lemma {:induction false} RoundToMonotone(x: real, y: real, d: nat)
    requires x <= y
    ensures RoundTo(x, d) <= RoundTo(y, d)
  {
    RoundScaledMonotone(x, y, Scale(d));
  }

  /** `x` has no fractional part. */
  predicate IsWhole(x: real) { x.Floor as real == x }

  lemma RoundScaledWhole(x: real, p: real)
    requires p >= 1.0 && IsWhole(p) && IsWhole(x)
    ensures RoundScaled(x, p) == x
  {
    var k := x.Floor * p.Floor;
    assert x * p == k as real;
    assert (k as real).Floor == k;
    assert RoundHalfEven(k as real) == k;
    assert RoundScaled(x, p) == RoundHalfEven(x * p) as real / p;
  }

  /** A whole number is left as it is by rounding at any number of places. */
  lemma {:induction false} RoundToWhole(x: real, d: nat)
    requires IsWhole(x)
    ensures RoundTo(x, d) == x
  {
    RoundScaledWhole(x, Scale(d));
  }

  lemma RoundScaledClose(x: real, p: real)
    requires p >= 1.0
    ensures x * p - 0.5 <= RoundScaled(x, p) * p <= x * p + 0.5
  {
    var r := RoundHalfEven(x * p) as real;
    assert x * p - 0.5 <= r <= x * p + 0.5;
    assert RoundScaled(x, p) == r / p;
    assert (r / p) * p == r;
  }

  /** Rounding to `d` places moves a number by at most half a unit in the last place. */
  lemma {:induction false} RoundToClose(x: real, d: nat)
    ensures x * Scale(d) - 0.5 <= RoundTo(x, d) * Scale(d) <= x * Scale(d) + 0.5
  {
    RoundScaledClose(x, Scale(d));
  }

  /** A value at least the whole number `m` still reads at least `m` after rounding. */
  lemma {:induction false} RoundToAtLeast(x: real, m: real, d: nat)
    requires IsWhole(m) && m <= x
    ensures m <= RoundTo(x, d)
  {
    RoundToMonotone(m, x, d);
    RoundToWhole(m, d);
  }

  /** A value at most the whole number `m` still reads at most `m` after rounding. */
  lemma {:induction false} RoundToAtMost(x: real, m: real, d: nat)
    requires IsWhole(m) && x <= m
    ensures RoundTo(x, d) <= m
  {
    RoundToMonotone(x, m, d);
    RoundToWhole(m, d);
  }
}
