/** Unsigned 128 bit amounts and the fixed point `Decimal` (18 places). Plain `+` panics on overflow,
    `checked_sub` returns an error, and ratios are floored. */
module Math {
  import opened Wrappers

  const LIMIT := 0x1_0000_0000_0000_0000_0000_0000_0000_0000

  type Uint128 = x: nat | x < LIMIT

  const DECIMAL_FRACTIONAL: Uint128 := 1_000_000_000_000_000_000

  function Add(a: Uint128, b: Uint128): Result<Uint128> {
    if a + b < LIMIT then Ok(a + b) else Err(Panic("attempt to add with overflow"))
  }

  function CheckedSub(a: Uint128, b: Uint128): Result<Uint128> {
    if b <= a then Ok(a - b) else Err(Overflow)
  }

  function MultiplyRatio(a: Uint128, numerator: Uint128, denominator: Uint128): Result<Uint128> {
    if denominator == 0 then Err(Panic("Denominator must not be zero"))
    else
      var q := a * numerator / denominator;
      if 0 <= q < LIMIT then Ok(q) else Err(Panic("multiplication overflow"))
  }

  function MulDecimal(a: Uint128, atomics: Uint128): Result<Uint128> {
    if a == 0 || atomics == 0 then Ok(0) else MultiplyRatio(a, atomics, DECIMAL_FRACTIONAL)
  }

  function FromRatio(numerator: Uint128, denominator: Uint128): Result<Uint128> {
    MultiplyRatio(numerator, DECIMAL_FRACTIONAL, denominator)
  }

  lemma MulMono(a: nat, b: nat, c: nat)
    requires a <= b
    ensures a * c <= b * c
  {
  }

  lemma MulCancel(a: int, b: int, c: int)
    requires c > 0 && a * c <= b * c
    ensures a <= b
  {
    assert (b - a) * c == b * c - a * c;
  }

  lemma MulCancelStrict(a: int, b: int, c: int)
    requires c > 0 && a * c < b * c
    ensures a < b
  {
    assert (b - a) * c == b * c - a * c;
  }

  lemma Floor(x: nat, d: nat)
    requires d > 0
    ensures 0 <= x / d && x / d * d <= x < x / d * d + d
  {
    assert x == x / d * d + x % d;
  }

  /** The floored ratio is the largest amount that does not overcharge. */
  lemma RatioFloor(a: Uint128, n: Uint128, d: Uint128)
    requires MultiplyRatio(a, n, d).Ok?
    ensures var q := MultiplyRatio(a, n, d).value;
            d > 0 && q * d <= a * n < q * d + d
  {
    Floor(a * n, d);
  }

  /** A ratio of at most one never overflows and never exceeds its argument. */
  lemma RatioAtMostOne(a: Uint128, n: Uint128, d: Uint128)
    requires n <= d && d > 0
    ensures MultiplyRatio(a, n, d).Ok? && MultiplyRatio(a, n, d).value <= a
  {
    Floor(a * n, d);
    MulMono(n, d, a);
    MulCancel(a * n / d, a, d);
  }

  /** The floored ratio by its own denominator, of an amount within it, stays within the numerator. */
  lemma RatioWithin(a: Uint128, n: Uint128, d: Uint128)
    requires a <= d && d > 0
    ensures MultiplyRatio(a, n, d).Ok? && MultiplyRatio(a, n, d).value <= n
  {
    Floor(a * n, d);
    MulMono(a, d, n);
    MulCancel(a * n / d, n, d);
  }

  lemma RatioAtLeast(n: Uint128, d: Uint128, unit: Uint128)
    requires 0 < d <= n && MultiplyRatio(n, unit, d).Ok?
    ensures MultiplyRatio(n, unit, d).value >= unit
  {
    RatioFloor(n, unit, d);
    var q := MultiplyRatio(n, unit, d).value;
    MulMono(d, n, unit);
    assert (q + 1) * d == q * d + d;
    MulCancelStrict(unit, q + 1, d);
  }

  lemma RatioWhole(a: Uint128, d: Uint128)
    requires d > 0
    ensures MultiplyRatio(a, d, d) == Ok(a)
  {
    Floor(a * d, d);
    MulCancel(a * d / d, a, d);
    MulCancelStrict(a, a * d / d + 1, d);
  }
}
