/** Exact arithmetic standing in for the JavaScript number operations the
    invoice components use: `parseFloat(x) || 0`, `Math.round` and
    `Number.prototype.toFixed(2)`. Amounts are exact reals; binary
    floating-point representation error is not modelled. */
module Numeric {

  /** The value `parseFloat` reads from a form field: `None` when the text is
      empty or not a number (JavaScript's NaN). */
  datatype Option<+T> = None | Some(value: T)

  /** `parseFloat(x) || 0`: NaN (and 0 itself) become 0. */
  function Coerce(x: Option<real>): real
  {
    match x
    case None => 0.0
    case Some(v) => v
  }

  /** `Math.round` (ECMA-262, section 21.3.2.28): the integer closest to `x`,
      ties broken towards +infinity. The contract pins the result down
      uniquely: it is the one integer in (x - 1/2, x + 1/2]. */
  function Round(x: real): (n: int)
    ensures x - 0.5 < n as real <= x + 0.5
  {
    (x + 0.5).Floor
  }

  /** The number of cents `x.toFixed(2)` prints (ECMA-262, section
      21.1.3.3): for x >= 0 the n for which n / 100 is nearest to x, ties to
      the larger n; for x < 0 the sign is set aside and the magnitude is
      rounded, so there ties go away from zero. */
  function Cents(x: real): (c: int)
    ensures x >= 0.0 ==> 100.0 * x - 0.5 < c as real <= 100.0 * x + 0.5
    ensures x < 0.0 ==> 100.0 * x - 0.5 <= c as real < 100.0 * x + 0.5
  {
    if x < 0.0 then -Round(-x * 100.0) else Round(x * 100.0)
  }

  /** The numeric value of `x.toFixed(2)`, as `parseFloat` reads it back. */
  function Fixed2(x: real): (r: real)
    ensures r * 100.0 == Cents(x) as real
    ensures -0.005 <= r - x <= 0.005
    ensures x >= 0.0 ==> r >= 0.0
  {
    Cents(x) as real / 100.0
  }

  /** `Math.round(total) - total`: the signed correction that brings a total
      to a whole currency unit. */
  function RoundOff(total: real): (r: real)
    ensures -0.5 < r <= 0.5
    ensures total + r == Round(total) as real
  {
    Round(total) as real - total
  }

  /** What a tax line at `rate` percent levies on `base`. */
  function Levy(base: real, rate: real): real
  {
    base * rate / 100.0
  }

  /** Levies at two rates add up to the levy at their sum. */
  lemma LevyAdd(base: real, x: real, y: real)
    ensures Levy(base, x) + Levy(base, y) == Levy(base, x + y)
  {
    assert base * (x + y) == base * x + base * y;
  }

  /** A value that already is a multiple of 1/100 is left alone by `toFixed(2)`. */
  lemma Fixed2OfCents(c: int)
    ensures Fixed2(c as real / 100.0) == c as real / 100.0
  {
    var x := c as real / 100.0;
    assert x * 100.0 == c as real;
    RoundUnique(if x < 0.0 then -x * 100.0 else x * 100.0, if x < 0.0 then -c else c);
  }

  /** An integer in (x - 1/2, x + 1/2] is the one `Math.round` picks. */
  lemma RoundUnique(x: real, m: int)
    requires x - 0.5 < m as real <= x + 0.5
    ensures Round(x) == m
  {
  }

  /** A whole amount needs no rounding and no round-off correction. */
  lemma RoundOfInteger(k: int)
    ensures Round(k as real) == k
    ensures RoundOff(k as real) == 0.0
  {
  }
}
