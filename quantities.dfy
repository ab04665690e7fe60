/** Integer arithmetic the allocator relies on: PHP's floor and ceil of an
    exact quotient, min, and the inclusive-range draw of mt_rand. */
module Quantities {

  /** floor(a / d) for a positive divisor. Dafny's division is Euclidean,
      which agrees with floor whenever the divisor is positive. */
  function FloorDiv(a: int, d: int): (q: int)
    requires d > 0
    ensures d * q <= a < d * q + d
  {
    a / d
  }

  /** ceil(a / d) for a positive divisor. */
  function CeilDiv(a: int, d: int): (q: int)
    requires d > 0
    ensures d * q - d < a <= d * q
  {
    (a + d - 1) / d
  }

  function Min(a: int, b: int): (m: int)
    ensures m <= a && m <= b
    ensures m == a || m == b
  {
    if a <= b then a else b
  }

  /** mt_rand(lo, hi): the raw output of the generator is an input of the
      model, mapped onto the inclusive range [lo, hi]. */
  function Draw(lo: int, hi: int, raw: nat): (k: int)
    requires lo <= hi
    ensures lo <= k <= hi
  {
    lo + raw % (hi - lo + 1)
  }

  /** No value of the range is out of reach of the oracle: every result
      mt_rand may give is the draw of some raw output. */
  lemma DrawCoversRange(lo: int, hi: int, k: int)
    requires lo <= k <= hi
    ensures Draw(lo, hi, k - lo) == k
  {
  }

  lemma MultipleOfStep(k: int, s: int)
    requires s > 0
    ensures (k * s) % s == 0
  {
    var d, r := (k * s) / s, (k * s) % s;
    assert k * s == s * d + r && 0 <= r < s;
    assert s * (k - d) == r by {
      assert s * (k - d) == s * k - s * d;
    }
    if k - d >= 1 {
      MulMonotone(1, k - d, s);
    } else if k - d <= -1 {
      MulMonotone(k - d, -1, s);
    }
  }

  lemma AddMultiple(q: int, f: int, s: int)
    requires s > 0 && q % s == 0
    ensures (q + s * f) % s == 0
  {
    var d := q / s;
    assert q == s * d;
    assert q + s * f == (d + f) * s;
    MultipleOfStep(d + f, s);
  }

  lemma MulMonotone(a: int, b: int, s: int)
    requires a <= b && s >= 0
    ensures a * s <= b * s
  {
  }
}
