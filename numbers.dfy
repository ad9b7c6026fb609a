/** Decimal quantisation used throughout the bot: `floor6` (the many copies of
    `math.floor(x * 1_000_000) / 1_000_000`) and Python's `round(x, 6)`. Monetary
    values are reals; IEEE rounding of the scaling itself is not modelled. */
module Numbers {

  const Scale6: real := 1000000.0
  const Tick6: real := 0.000001

  function Max(a: real, b: real): real { if a >= b then a else b }
  function Min(a: real, b: real): real { if a <= b then a else b }

  /** A value with at most six decimal places. */
  ghost predicate OnGrid6(x: real) {
    ((x * Scale6).Floor as real) == x * Scale6
  }

  /** `floor6(x)`: the largest multiple of 10^-6 that does not exceed `x`. */
  function Floor6(x: real): (r: real)
    ensures r <= x < r + Tick6
    ensures OnGrid6(r)
  {
    var n := (x * Scale6).Floor;
    assert (n as real / Scale6) * Scale6 == n as real;
    n as real / Scale6
  }

  lemma Floor6OfGrid(x: real)
    requires OnGrid6(x)
    ensures Floor6(x) == x
  {
    var n := (x * Scale6).Floor;
    assert n as real == x * Scale6;
  }

  /** Truncation is idempotent: a quantity that was floored once is unchanged
      by flooring it again. */
  lemma Floor6Idempotent(x: real)
    ensures Floor6(Floor6(x)) == Floor6(x)
  {
    Floor6OfGrid(Floor6(x));
  }

  lemma GridSum(a: real, b: real)
    requires OnGrid6(a) && OnGrid6(b)
    ensures OnGrid6(a + b)
  {
    var na := (a * Scale6).Floor;
    var nb := (b * Scale6).Floor;
    assert (a + b) * Scale6 == (na + nb) as real;
  }

  lemma Floor6Monotone(x: real, y: real)
    requires x <= y
    ensures Floor6(x) <= Floor6(y)
  {
    assert (x * Scale6).Floor <= (y * Scale6).Floor;
  }

  /** `floor6` of a non-negative value is non-negative, and positive exactly
      when the value reaches one tick. */
  lemma Floor6Sign(x: real)
    ensures x >= 0.0 ==> Floor6(x) >= 0.0
    ensures Floor6(x) > 0.0 <==> x >= Tick6
  {
    var n := (x * Scale6).Floor;
    assert Floor6(x) == n as real / Scale6;
    if x >= Tick6 {
      assert x * Scale6 >= 1.0;
      assert n >= 1;
    }
    if x >= 0.0 {
      assert n >= 0;
    }
  }

  /** Python's `round(x, 6)` on an exact value: the nearest multiple of 10^-6,
      ties to the even neighbour. */
  function Round6(x: real): (r: real)
    ensures x - Tick6 / 2.0 <= r <= x + Tick6 / 2.0
    ensures OnGrid6(r)
  {
    var n := (x * Scale6).Floor;
    var frac := x * Scale6 - n as real;
    var m := if frac > 0.5 then n + 1
             else if frac < 0.5 then n
             else if n % 2 == 0 then n else n + 1;
    assert (m as real / Scale6) * Scale6 == m as real;
    m as real / Scale6
  }

  /** The product of two non-negative numbers is non-negative. */
  lemma NonNegMul(a: real, b: real)
    requires a >= 0.0 && b >= 0.0
    ensures a * b >= 0.0
  {
  }
}
