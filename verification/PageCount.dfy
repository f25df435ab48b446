/** The page count is a ceiling of a floating-point quotient; it is exact. */
module PageCount {
  const TWO_52: real := 4503599627370496.0
  const TWO_53: real := 9007199254740992.0

  function HalfUp(x: real): (n: int)
    ensures -0.5 <= n as real - x <= 0.5
    ensures x == x.Floor as real ==> n as real == x
  {
    var f := x.Floor;
    var rest := x - f as real;
    if rest < 0.5 then f
    else if rest > 0.5 then f + 1
    else if f % 2 == 0 then f
    else f + 1
  }

  lemma HalvingFloors(y: real)
    requires y >= 2.0
    ensures (y / 2.0).Floor < y.Floor
  {
  }

  lemma Cancel(a: real, b: real, t: real)
    requires t > 0.0 && a * t > b * t
    ensures a > b
  {
    assert (a - b) * t > 0.0;
  }

  lemma ScalesTwo(x: real)
    requires x > 0.0
    ensures TWO_52 / (2.0 * x) == (TWO_52 / x) / 2.0
    ensures x < TWO_52 / 2.0 ==> TWO_52 / x >= 2.0
  {
    var y := TWO_52 / x;
    assert y * x == TWO_52;
    assert (y / 2.0) * (2.0 * x) == TWO_52;
    if x < TWO_52 / 2.0 {
      assert y * x > 2.0 * x;
      Cancel(y, 2.0, x);
    }
  }

  /** Round-to-nearest, ties to even, with a 53-bit significand (section 4.3.1 of IEEE 754-2019):
      scale into [2^52, 2^53), where representable values are the integers, round, scale back.
      The exponent range is unbounded, which covers every quotient formed here. */
  function Rounded(x: real): (r: real)
    requires x > 0.0
    ensures r > 0.0
    decreases x < TWO_52, if x < TWO_52 then (TWO_52 / x).Floor else (x / TWO_52).Floor
  {
    if x >= TWO_53 then
      HalvingFloors(x / TWO_52);
      2.0 * Rounded(x / 2.0)
    else if x < TWO_52 then
      ScalesTwo(x);
      if 2.0 * x < TWO_52 then
        HalvingFloors(TWO_52 / x);
        Rounded(2.0 * x) / 2.0
      else Rounded(2.0 * x) / 2.0
    else HalfUp(x) as real
  }

  function Float(x: real): (r: real)
    requires x >= 0.0
    ensures r >= 0.0 && (x > 0.0 ==> r > 0.0)
  {
    if x == 0.0 then 0.0 else Rounded(x)
  }

  /** The relative rounding error is at most 2^-53. */
  lemma {:induction false} RoundingError(x: real)
    requires x > 0.0
    ensures -x <= (Rounded(x) - x) * TWO_53 <= x
    decreases x < TWO_52, if x < TWO_52 then (TWO_52 / x).Floor else (x / TWO_52).Floor
  {
    if x >= TWO_53 {
      HalvingFloors(x / TWO_52);
      RoundingError(x / 2.0);
    } else if x < TWO_52 {
      ScalesTwo(x);
      if 2.0 * x < TWO_52 {
        HalvingFloors(TWO_52 / x);
      }
      RoundingError(2.0 * x);
    }
  }

  /** Integers up to 2^53 are represented exactly. */
  lemma {:induction false} IntegersExact(x: real, n: int)
    requires 0 < n <= 9007199254740992 && x == n as real
    ensures Rounded(x) == x
    decreases x < TWO_52, if x < TWO_52 then (TWO_52 / x).Floor else (x / TWO_52).Floor
  {
    if x >= TWO_53 {
      BoundaryExact();
    } else if x < TWO_52 {
      ScalesTwo(x);
      if 2.0 * x < TWO_52 {
        HalvingFloors(TWO_52 / x);
      }
      assert 2.0 * x == (2 * n) as real;
      IntegersExact(2.0 * x, 2 * n);
    }
  }

  lemma BoundaryExact()
    ensures Rounded(TWO_52) == TWO_52 && Rounded(TWO_53) == TWO_53
  {
    assert TWO_53 / 2.0 == TWO_52;
    assert TWO_52 == 4503599627370496 as real;
  }

  function Ceil(x: real): (n: int)
    ensures n as real - 1.0 < x <= n as real
  {
    -((-x).Floor)
  }

  /** The handler's expression: both counts converted, divided and rounded, then rounded up. */
  function TotalPages(total: int, pageSize: int): int
    requires total >= 0 && pageSize >= 1
  {
    Ceil(Float(Float(total as real) / Float(pageSize as real)))
  }

  lemma CountsExact(total: int, pageSize: int)
    requires 0 <= total < 9007199254740992 && 1 <= pageSize <= 100
    ensures Float(total as real) == total as real && Float(pageSize as real) == pageSize as real
  {
    if total > 0 { IntegersExact(total as real, total); }
    IntegersExact(pageSize as real, pageSize);
  }

  lemma Pinned(r: real, n: int)
    requires n as real - 1.0 < r <= n as real
    ensures Ceil(r) == n
  {
    var c := Ceil(r);
    assert c as real - 1.0 < n as real;
    assert n as real - 1.0 < c as real;
  }

  lemma CeilingDivision(total: int, s: int) returns (n: int)
    requires total > 0 && s >= 1
    ensures n == (total + s - 1) / s && n >= 1
    ensures (n - 1) * s < total <= n * s
  {
    n := (total + s - 1) / s;
    assert total + s - 1 == n * s + (total + s - 1) % s;
  }

  /** r within 1/s of total/s, strictly between consecutive integers times s, rounds up to n. */
  lemma BetweenPages(total: int, s: int, n: int, q: real, r: real)
    requires s >= 1 && q * s as real == total as real
    requires (n - 1) * s < total < n * s
    requires -1.0 < (r - q) * s as real < 1.0
    ensures n as real - 1.0 < r < n as real
  {
    var t := s as real;
    assert r * t == q * t + (r - q) * t;
    assert r * t < total as real + 1.0 && r * t > total as real - 1.0;
    assert (total + 1) as real <= (n * s) as real == n as real * t;
    assert (total - 1) as real >= ((n - 1) * s) as real == (n as real - 1.0) * t;
    Cancel(n as real, r, t);
    Cancel(r, n as real - 1.0, t);
  }

  lemma ScaledError(q: real, r: real, s: int, total: int)
    requires s >= 1 && q * s as real == total as real && 0 < total < 9007199254740992
    requires -q <= (r - q) * TWO_53 <= q
    ensures -1.0 < (r - q) * s as real < 1.0
  {
    var t := s as real;
    var e := (r - q) * t;
    assert e * TWO_53 == ((r - q) * TWO_53) * t;
    assert ((r - q) * TWO_53) * t <= q * t;
    assert ((r - q) * TWO_53) * t >= -q * t;
    assert -q * t == -(q * t);
  }

  /** The floating-point page count equals integer ceiling division for every total below 2^53
      and every page size the handler allows. */
  lemma PageCountExact(total: int, pageSize: int)
    requires 0 <= total < 9007199254740992 && 1 <= pageSize <= 100
    ensures TotalPages(total, pageSize) == (total + pageSize - 1) / pageSize
  {
    hide Rounded;
    CountsExact(total, pageSize);
    if total == 0 {
      Pinned(0.0, 0);
      assert (pageSize - 1) / pageSize == 0;
    } else {
      var q := total as real / pageSize as real;
      QuotientTimes(total, pageSize);
      var n := CeilingDivision(total, pageSize);
      if total == n * pageSize {
        WholeQuotient(total, pageSize, n, q);
        IntegersExact(q, n);
        Pinned(q, n);
      } else {
        RoundingError(q);
        var r := Rounded(q);
        ScaledError(q, r, pageSize, total);
        BetweenPages(total, pageSize, n, q, r);
        Pinned(r, n);
      }
    }
  }

  lemma QuotientTimes(total: int, s: int)
    requires s >= 1 && total > 0
    ensures var q := total as real / s as real; q * s as real == total as real && q > 0.0
  {
  }

  lemma WholeQuotient(total: int, s: int, n: int, q: real)
    requires s >= 1 && 0 < total < 9007199254740992 && total == n * s && q * s as real == total as real
    ensures q == n as real && 0 < n <= total
  {
    var t := s as real;
    assert (n * s) as real == n as real * t;
    assert (q - n as real) * t == 0.0;
    FactorBound(n, s);
  }

  lemma FactorBound(n: int, s: int)
    requires s >= 1 && n * s > 0
    ensures 0 < n <= n * s
  {
    assert n > 0;
    assert n * s == n + n * (s - 1);
  }
}
