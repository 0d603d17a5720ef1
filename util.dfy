/**
  Shared vocabulary of the Web Mercator model: optional values, the two
  exception kinds the library raises, the constants of webmercator/util.py
  and the numeric primitives of Python that the library relies on
  (`round(x, n)`, `round(x)`, `int(x)` and `2 ** n`).
 */
module MercatorUtil {

  /** Python's `None` versus a value. */
  datatype Option<T> = None | Some(value: T) {
    function GetOr(default: T): T {
      if Some? then value else default
    }
  }

  /** The Python exceptions raised by the core. */
  datatype Error = TypeError | AttributeError

  /** A computation that either returns a value or raises. */
  datatype Result<T> = Ok(value: T) | Err(error: Error)

  /** EARTH_RADIUS_METERS. */
  const EarthRadiusMeters: real := 6378137.0

  /** MERCATOR_MAX_LATITUDE, an exact decimal. */
  const MercatorMaxLatitude: real := 85.05112878

  /**
    EARTH_CIRCUMFERENCE_METERS is EARTH_RADIUS_METERS * 2 * pi. The model does
    not fix pi; it only knows 3 < pi < 4.
   */
  type Circumference = c: real | 6.0 * EarthRadiusMeters < c < 8.0 * EarthRadiusMeters
    witness 7.0 * EarthRadiusMeters

  /** 10 ** decimal_degree_exp: degrees are kept to 8 decimal places. */
  const DegreeScale: real := 100000000.0

  /** 10 ** metric_exp: meters are kept to 9 decimal places (nanometers). */
  const MetricScale: real := 1000000000.0

  /** Python `round(x)`, returning an integer; ties go up (see README). */
  function RoundInt(x: real): (r: int)
    ensures x - 0.5 < r as real <= x + 0.5
  {
    (x + 0.5).Floor
  }

  /**
    Python `round(x, n)` with `scale` = 10 ** n: the nearest multiple of
    1 / scale, ties going up. The result is a multiple of 1 / scale (an
    n-place decimal) within half a unit of the n-th place of x.
   */
  function RoundTo(x: real, scale: real): (r: real)
    requires scale > 0.0
    ensures -0.5 < (r - x) * scale <= 0.5
    ensures (r * scale).Floor as real == r * scale
  {
    var k := (x * scale + 0.5).Floor;
    var r := k as real / scale;
    assert r * scale == k as real;
    assert (r * scale).Floor as real == k as real;
    assert (r - x) * scale == k as real - x * scale;
    r
  }

  /** Rounding never reverses the order of two values. */
  lemma RoundToMonotone(x: real, y: real, scale: real)
    requires scale > 0.0 && x <= y
    ensures RoundTo(x, scale) <= RoundTo(y, scale)
  {
    assert x * scale <= y * scale;
    var fx := (x * scale + 0.5).Floor;
    var fy := (y * scale + 0.5).Floor;
    assert fx as real < fy as real + 1.0;
    assert fx <= fy;
    assert fx as real / scale <= fy as real / scale;
  }

  /** A value that is already a multiple of 1 / scale is left as it is. */
  lemma RoundToExact(k: int, scale: real)
    requires scale > 0.0
    ensures RoundTo(k as real / scale, scale) == k as real / scale
  {
    var x := k as real / scale;
    assert x * scale == k as real;
    assert (x * scale + 0.5).Floor == k;
    RoundToUnfold(x, scale);
  }

  lemma RoundToUnfold(x: real, scale: real)
    requires scale > 0.0
    ensures RoundTo(x, scale) == (x * scale + 0.5).Floor as real / scale
  {
  }

  /** Rounding twice to the same place is rounding once. */
  lemma RoundToIdempotent(x: real, scale: real)
    requires scale > 0.0
    ensures RoundTo(RoundTo(x, scale), scale) == RoundTo(x, scale)
  {
    var f := (x * scale + 0.5).Floor;
    assert RoundTo(x, scale) == f as real / scale;
    RoundToExact(f, scale);
  }

  /** Python `int(x)` on a real: truncation toward zero. */
  function Trunc(x: real): (r: int)
    ensures x >= 0.0 ==> 0 <= r && r as real <= x < r as real + 1.0
    ensures x < 0.0 ==> r <= 0 && r as real - 1.0 < x <= r as real
  {
    if x >= 0.0 then x.Floor else -((-x).Floor)
  }

  /** Rounding to an integer never reverses the order of two values. */
  lemma RoundIntMonotone(x: real, y: real)
    requires x <= y
    ensures RoundInt(x) <= RoundInt(y)
  {
    assert RoundInt(x) as real < RoundInt(y) as real + 1.0;
  }

  /** Rounding a value between 0 and a whole bound stays between them. */
  lemma RoundIntWithin(x: real, m: nat)
    ensures 0.0 <= x <= m as real ==> 0 <= RoundInt(x) <= m
  {
  }

  /** Truncation never reverses the order of two values. */
  lemma TruncMonotone(x: real, y: real)
    requires x <= y
    ensures Trunc(x) <= Trunc(y)
  {
    if 0.0 <= x {
      assert Trunc(x) as real < Trunc(y) as real + 1.0;
    } else if y < 0.0 {
      assert Trunc(x) as real - 1.0 < Trunc(y) as real;
    }
  }

  /** Truncating a whole number gives it back. */
  lemma TruncWhole(k: int)
    ensures Trunc(k as real) == k
  {
    if k >= 0 {
      assert Trunc(k as real) as real <= k as real < Trunc(k as real) as real + 1.0;
    } else {
      assert Trunc(k as real) as real - 1.0 < k as real <= Trunc(k as real) as real;
    }
  }

  /** `2 ** n` for a natural exponent. */
  function Pow2(n: nat): (r: nat)
    ensures r >= 1
  {
    if n == 0 then 1 else 2 * Pow2(n - 1)
  }

  lemma {:induction false} Pow2Monotone(m: nat, n: nat)
    requires m <= n
    ensures Pow2(m) <= Pow2(n)
  {
    if m < n {
      Pow2Monotone(m, n - 1);
    }
  }

  /** Every power of two used as a zoom factor is at most 2 ** 23. */
  lemma Pow2AtMost23(n: nat)
    requires n <= 23
    ensures Pow2(n) <= 8388608
  {
    Pow2Monotone(n, 23);
    Pow2Of23();
  }

  /** 2 ** 23, the zoom factor of the deepest zoom level. */
  lemma Pow2Of23()
    ensures Pow2(23) == 8388608
  {
    assert Pow2(4) == 16;
    assert Pow2(8) == 256;
    assert Pow2(12) == 4096;
    assert Pow2(16) == 65536;
    assert Pow2(20) == 1048576;
  }
}
