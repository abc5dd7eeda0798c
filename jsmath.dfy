/** The JavaScript `Math` functions the engine uses, over exact reals. */
module JsMath {

  /** `Math.round`: the nearest integer, half-way cases going up. */
  function Round(x: real): (r: int)
    ensures x - 0.5 < r as real <= x + 0.5
  {
    (x + 0.5).Floor
  }

  lemma RoundMonotone(x: real, y: real)
    requires x <= y
    ensures Round(x) <= Round(y)
  {
  }

  lemma RoundOfInteger(n: int)
    ensures Round(n as real) == n
  {
  }

  /** `Math.round(n / 1000) * 1000` is a multiple of 1000 within half a
      step of `n`. */
  lemma RoundToThousand(n: int)
    ensures var r := Round(n as real / 1000.0) * 1000;
      r % 1000 == 0 && r % 10 == 0 && n - 500 < r <= n + 500
  {
    var k := Round(n as real / 1000.0);
    assert k * 1000 == (k * 100) * 10;
  }

  /** `Math.round(n / 100) * 100` is a multiple of 100 within half a step of `n`. */
  lemma RoundToHundred(n: int)
    ensures var r := Round(n as real / 100.0) * 100;
      r % 100 == 0 && r % 10 == 0 && n - 50 < r <= n + 50
  {
    var k := Round(n as real / 100.0);
    assert k * 100 == (k * 10) * 10;
  }

  /** `Math.round(n / 10) * 10` is a multiple of 10 within half a step of `n`. */
  lemma RoundToTen(n: int)
    ensures var r := Round(n as real / 10.0) * 10;
      r % 10 == 0 && n - 5 < r <= n + 5
  {
  }

  lemma MulMonotone(x: real, y: real, z: real)
    requires z >= 0.0 && x <= y
    ensures x * z <= y * z
  {
  }

  /** Bounds of a product of two bounded non-negative factors. */
  lemma ScaleBounds(lo: real, hi: real, x: real, mlo: real, mhi: real, m: real)
    requires 0.0 <= lo <= x <= hi && 0.0 <= mlo <= m <= mhi
    ensures lo * mlo <= x * m <= hi * mhi
  {
    MulMonotone(lo, x, mlo);
    MulMonotone(mlo, m, x);
    MulMonotone(x, hi, m);
    MulMonotone(m, mhi, hi);
  }

  function Max(a: int, b: int): (r: int)
    ensures r >= a && r >= b && (r == a || r == b)
  {
    if a >= b then a else b
  }

  function MinReal(a: real, b: real): (r: real)
    ensures r <= a && r <= b && (r == a || r == b)
  {
    if a <= b then a else b
  }

  /** `Math.max(lo, Math.min(hi, x))`. */
  function Clamp(lo: int, hi: int, x: int): (r: int)
    requires lo <= hi
    ensures lo <= r <= hi
    ensures lo <= x <= hi ==> r == x
    ensures x < lo ==> r == lo
    ensures x > hi ==> r == hi
  {
    if x < lo then lo else if x > hi then hi else x
  }

  /** What the engine relies on about `Math.log10`: it is 1 at 10 and it is
      monotone on the positive reals. */
  ghost predicate IsLog10(log10: real -> real)
  {
    log10(10.0) == 1.0
    && forall x, y :: 0.0 < x <= y ==> log10(x) <= log10(y)
  }
}
