/**
 * The few pieces of JavaScript's `Math` that the motor engine uses, over
 * Dafny's exact `real`s. `Math.round(x)` rounds half up, which is
 * `floor(x + 0.5)`; the engine stores values rounded to one or two decimals
 * by `Math.round(x * 10) / 10` and `Math.round(x * 100) / 100`.
 */
module JsMath {

  function Max(a: real, b: real): (r: real)
    ensures r >= a && r >= b && (r == a || r == b)
  {
    if a >= b then a else b
  }

  function Min(a: real, b: real): (r: real)
    ensures r <= a && r <= b && (r == a || r == b)
  {
    if a <= b then a else b
  }

  function Abs(x: real): (r: real)
    ensures r >= 0.0 && (r == x || r == -x)
  {
    if x >= 0.0 then x else -x
  }

  /** `Math.round`: the nearest integer, halves rounded up. */
  function Round(x: real): (r: real)
    ensures x - 0.5 < r <= x + 0.5
    ensures r == r.Floor as real
  {
    (x + 0.5).Floor as real
  }

  /** `Math.round(x * 10) / 10`: one decimal place. */
  function Round1(x: real): real
  {
    Round(x * 10.0) / 10.0
  }

  /** `Math.round(x * 100) / 100`: two decimal places. */
  function Round2(x: real): real
  {
    Round(x * 100.0) / 100.0
  }

  /** A value that rounding to one decimal leaves as it is. */
  predicate OnTenthGrid(x: real)
  {
    Round1(x) == x
  }

  lemma RoundMonotone(x: real, y: real)
    requires x <= y
    ensures Round(x) <= Round(y)
  {
    var a, b := (x + 0.5).Floor, (y + 0.5).Floor;
    assert a as real <= x + 0.5 <= y + 0.5 < b as real + 1.0;
    assert a < b + 1;
  }

  lemma RoundOfInteger(k: int)
    ensures Round(k as real) == k as real
  {
    var f := (k as real + 0.5).Floor;
    assert f as real <= k as real + 0.5 < f as real + 1.0;
  }

  lemma Round1Monotone(x: real, y: real)
    requires x <= y
    ensures Round1(x) <= Round1(y)
  {
    RoundMonotone(x * 10.0, y * 10.0);
  }

  /** Every value rounded to one decimal is on the grid, so rounding again changes nothing. */
  lemma Round1OnGrid(x: real)
    ensures OnTenthGrid(Round1(x))
  {
    var k := (x * 10.0 + 0.5).Floor;
    assert Round1(x) == k as real / 10.0;
    assert Round1(x) * 10.0 == k as real;
    RoundOfInteger(k);
  }

  /** A grid value below (above) `x` stays below (above) the rounded `x`. */
  lemma Round1Between(lo: real, x: real, hi: real)
    requires OnTenthGrid(lo) && OnTenthGrid(hi)
    requires lo <= x <= hi
    ensures lo <= Round1(x) <= hi
  {
    Round1Monotone(lo, x);
    Round1Monotone(x, hi);
  }

  lemma Round1NonNegative(x: real)
    requires x >= 0.0
    ensures Round1(x) >= 0.0
  {
    RoundMonotone(0.0, x * 10.0);
    RoundOfInteger(0);
  }
}
