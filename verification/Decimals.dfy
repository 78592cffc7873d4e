/** Decimal amounts as reals, with the two roundings the services use:
    half-up (the cost service) and half-even (`quantize` without a mode). */
module Decimals {

  datatype Option<+T> = None | Some(value: T)

  datatype Result<+T, +E> = Ok(value: T) | Err(error: E)

  function Abs(x: real): real { if x < 0.0 then -x else x }

  function Min(x: real, y: real): real { if y < x then y else x }

  function Max(x: real, y: real): real { if x < y then y else x }

  /** Whole numbers: share counts. */
  predicate Whole(x: real) { x.Floor as real == x }

  /** Amounts with at most two decimals. */
  predicate Cents(x: real) { Whole(x * 100.0) }

  /** Amounts with at most four decimals. */
  predicate Pips(x: real) { Whole(x * 10000.0) }

  /** `int(x)`: towards zero. */
  function Truncated(x: real): int { if x >= 0.0 then x.Floor else -((-x).Floor) }

  function RoundHalfUp(x: real): (n: int)
    ensures -0.5 <= n as real - x <= 0.5
  {
    if x >= 0.0 then (x + 0.5).Floor else -((0.5 - x).Floor)
  }

  function RoundHalfEven(x: real): (n: int)
    ensures -0.5 <= n as real - x <= 0.5
  {
    var f := x.Floor;
    var d := x - f as real;
    if d < 0.5 || (d == 0.5 && f % 2 == 0) then f else f + 1
  }

  lemma NearWhole(n: int, x: real)
    requires Whole(x) && -0.5 <= n as real - x <= 0.5
    ensures n as real == x
  {
    assert -0.5 <= (n - x.Floor) as real <= 0.5;
  }

  lemma RoundHalfUpMonotone(x: real, y: real)
    requires x <= y
    ensures RoundHalfUp(x) <= RoundHalfUp(y)
  {}

  lemma RoundHalfEvenMonotone(x: real, y: real)
    requires x <= y
    ensures RoundHalfEven(x) <= RoundHalfEven(y)
  {
    if x.Floor == y.Floor {
    } else {
      assert x.Floor + 1 <= y.Floor;
    }
  }

  /** `quantize(0.01, ROUND_HALF_UP)` */
  function HalfUp2(x: real): (r: real)
    ensures Cents(r)
    ensures -0.005 <= r - x <= 0.005
    ensures Cents(x) ==> r == x
  {
    var n := RoundHalfUp(x * 100.0);
    OnGrid(n, x, 100.0);
    n as real / 100.0
  }

  /** `quantize(0.01)` */
  function HalfEven2(x: real): (r: real)
    ensures Cents(r)
    ensures -0.005 <= r - x <= 0.005
    ensures Cents(x) ==> r == x
  {
    var n := RoundHalfEven(x * 100.0);
    OnGrid(n, x, 100.0);
    n as real / 100.0
  }

  /** `quantize(0.0001)` */
  function HalfEven4(x: real): (r: real)
    ensures Pips(r)
    ensures -0.00005 <= r - x <= 0.00005
    ensures Pips(x) ==> r == x
  {
    var n := RoundHalfEven(x * 10000.0);
    OnGrid(n, x, 10000.0);
    n as real / 10000.0
  }

  lemma OnGrid(n: int, x: real, scale: real)
    requires scale == 100.0 || scale == 10000.0
    requires -0.5 <= n as real - x * scale <= 0.5
    ensures Whole(n as real / scale * scale)
    ensures -0.5 / scale <= n as real / scale - x <= 0.5 / scale
    ensures Whole(x * scale) ==> n as real / scale == x
  {
    assert n as real / scale * scale == n as real;
    if Whole(x * scale) {
      NearWhole(n, x * scale);
    }
  }

  lemma WholeInt(n: int)
    ensures Whole(n as real)
  {}

  lemma HalfUp2Monotone(x: real, y: real)
    requires x <= y
    ensures HalfUp2(x) <= HalfUp2(y)
  {
    RoundHalfUpMonotone(x * 100.0, y * 100.0);
  }

  lemma HalfEven2Monotone(x: real, y: real)
    requires x <= y
    ensures HalfEven2(x) <= HalfEven2(y)
  {
    RoundHalfEvenMonotone(x * 100.0, y * 100.0);
  }

  /** Both roundings give the nearest two-decimal amount. */
  lemma NearestCent(x: real, r: real)
    requires Cents(r) && -0.005 < r - x < 0.005
    ensures HalfUp2(x) == r && HalfEven2(x) == r
  {
    hide HalfUp2, HalfEven2;
    SameCent(HalfUp2(x), r);
    SameCent(HalfEven2(x), r);
  }

  lemma SameCent(x: real, y: real)
    requires Cents(x) && Cents(y) && -0.01 < x - y < 0.01
    ensures x == y
  {
    assert -1 < (x * 100.0).Floor - (y * 100.0).Floor < 1;
  }

  /** Rounding never crosses a two-decimal amount. */
  lemma RoundingKeepsSide(x: real, c: real)
    requires Cents(c)
    ensures c <= x ==> c <= HalfUp2(x) && c <= HalfEven2(x)
    ensures x <= c ==> HalfUp2(x) <= c && HalfEven2(x) <= c
  {
    if c <= x { HalfUp2Monotone(c, x); HalfEven2Monotone(c, x); }
    if x <= c { HalfUp2Monotone(x, c); HalfEven2Monotone(x, c); }
  }

  lemma CentsSum(x: real, y: real)
    requires Cents(x) && Cents(y)
    ensures Cents(x + y) && Cents(x - y)
  {
    WholeInt((x * 100.0).Floor + (y * 100.0).Floor);
    WholeInt((x * 100.0).Floor - (y * 100.0).Floor);
  }

  lemma PipsSum(x: real, y: real)
    requires Pips(x) && Pips(y)
    ensures Pips(x + y) && Pips(x - y)
  {
    WholeInt((x * 10000.0).Floor + (y * 10000.0).Floor);
    WholeInt((x * 10000.0).Floor - (y * 10000.0).Floor);
  }

  lemma CentsArePips(x: real)
    requires Cents(x)
    ensures Pips(x)
  {
    WholeInt((x * 100.0).Floor * 100);
  }

  lemma IntProduct(m: int, n: int)
    ensures (m as real) * (n as real) == (m * n) as real
    decreases n < 0, n
  {
    if n < 0 {
      IntProduct(m, -n);
      assert (m as real) * (n as real) == -((m as real) * ((-n) as real));
      assert m * n == -(m * -n);
    } else if n > 0 {
      IntProduct(m, n - 1);
      assert (m as real) * (n as real) == (m as real) * ((n - 1) as real) + m as real;
      assert m * n == m * (n - 1) + m;
    }
  }

  lemma WholeBy(y: real, n: int)
    requires y == n as real
    ensures Whole(y)
  {}

  lemma Reassociate(q: real, x: real, scale: real)
    ensures (q * x) * scale == q * (x * scale)
  {}

  /** A whole number of shares times a scaled amount is whole. */
  lemma SharesTimesScaled(q: real, u: real, y: real)
    requires Whole(q) && Whole(u) && y == q * u
    ensures Whole(y)
  {
    IntProduct(q.Floor, u.Floor);
    WholeBy(y, q.Floor * u.Floor);
  }

  lemma SharesTimesPips(q: real, x: real)
    requires Whole(q) && Pips(x)
    ensures Pips(q * x)
  {
    Reassociate(q, x, 10000.0);
    SharesTimesScaled(q, x * 10000.0, (q * x) * 10000.0);
  }

  lemma WholeArePips(x: real)
    requires Whole(x)
    ensures Pips(x)
  {
    WholeBy(x * 10000.0, x.Floor * 10000);
  }

  lemma WholeSum(x: real, y: real)
    requires Whole(x) && Whole(y)
    ensures Whole(x + y) && Whole(x - y)
  {
    WholeBy(x + y, x.Floor + y.Floor);
    WholeBy(x - y, x.Floor - y.Floor);
  }

  lemma ZeroIsOnGrid()
    ensures Whole(0.0) && Pips(0.0)
  {
    WholeBy(0.0, 0);
    WholeBy(0.0 * 10000.0, 0);
  }
}
