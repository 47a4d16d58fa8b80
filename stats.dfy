/**
 * Summary statistics over real-valued series, as numpy computes them for the preprocessors and
 * analysers: sum, arithmetic mean, minimum, maximum, population variance (numpy's `std` before
 * its square root) and the least-squares slope of a series against its indices 0, 1, ..., n-1.
 */
module Stats {

  function Abs(x: real): (a: real)
    ensures a >= 0.0 && (a == x || a == -x)
  {
    if x < 0.0 then -x else x
  }

  /** Python's `min(a, b)` on two numbers. */
  function Min2(a: real, b: real): (m: real)
    ensures m <= a && m <= b && (m == a || m == b)
  {
    if b < a then b else a
  }

  function Sum(xs: seq<real>): real
  {
    if |xs| == 0 then 0.0 else Sum(xs[..|xs| - 1]) + xs[|xs| - 1]
  }

  function Mean(xs: seq<real>): real
    requires |xs| > 0
  {
    Sum(xs) / (|xs| as real)
  }

  function Min(xs: seq<real>): (m: real)
    requires |xs| > 0
    ensures forall i :: 0 <= i < |xs| ==> m <= xs[i]
    ensures exists i :: 0 <= i < |xs| && m == xs[i]
  {
    if |xs| == 1 then xs[0]
    else
      var m := Min(xs[..|xs| - 1]);
      assert forall i :: 0 <= i < |xs| - 1 ==> xs[..|xs| - 1][i] == xs[i];
      if xs[|xs| - 1] < m then xs[|xs| - 1] else m
  }

  function Max(xs: seq<real>): (m: real)
    requires |xs| > 0
    ensures forall i :: 0 <= i < |xs| ==> xs[i] <= m
    ensures exists i :: 0 <= i < |xs| && m == xs[i]
  {
    if |xs| == 1 then xs[0]
    else
      var m := Max(xs[..|xs| - 1]);
      assert forall i :: 0 <= i < |xs| - 1 ==> xs[..|xs| - 1][i] == xs[i];
      if xs[|xs| - 1] > m then xs[|xs| - 1] else m
  }

  /** How many values exceed `t`: `sum(1 for x in xs if x > t)`. */
  function CountAbove(xs: seq<real>, t: real): (n: nat)
    ensures n <= |xs|
  {
    if |xs| == 0 then 0 else CountAbove(xs[..|xs| - 1], t) + (if xs[|xs| - 1] > t then 1 else 0)
  }

  /** How many values are below `t`: `sum(1 for x in xs if x < t)`. */
  function CountBelow(xs: seq<real>, t: real): (n: nat)
    ensures n <= |xs|
  {
    if |xs| == 0 then 0 else CountBelow(xs[..|xs| - 1], t) + (if xs[|xs| - 1] < t then 1 else 0)
  }

  /** How many values lie in [lo, hi], both bounds included. */
  function CountBetween(xs: seq<real>, lo: real, hi: real): (n: nat)
    ensures n <= |xs|
  {
    if |xs| == 0 then 0 else CountBetween(xs[..|xs| - 1], lo, hi) + (if lo <= xs[|xs| - 1] <= hi then 1 else 0)
  }

  /** How many values are at least `t`. */
  function CountAtLeast(xs: seq<real>, t: real): (n: nat)
    ensures n <= |xs|
  {
    if |xs| == 0 then 0 else CountAtLeast(xs[..|xs| - 1], t) + (if xs[|xs| - 1] >= t then 1 else 0)
  }

  /** How many values lie in [lo, hi), the lower bound included and the upper one not. */
  function CountFrom(xs: seq<real>, lo: real, hi: real): (n: nat)
    ensures n <= |xs|
  {
    if |xs| == 0 then 0 else CountFrom(xs[..|xs| - 1], lo, hi) + (if lo <= xs[|xs| - 1] < hi then 1 else 0)
  }

  /** `count / n * 100`. */
  function Percentage(count: nat, n: nat): real
    requires n > 0
  {
    (count as real) / (n as real) * 100.0
  }

  /** Python's `int(x)`: truncation toward zero. */
  function Truncate(x: real): (n: int)
    ensures x >= 0.0 ==> n as real <= x < n as real + 1.0
    ensures x < 0.0 ==> n as real - 1.0 < x <= n as real
  {
    if x >= 0.0 then x.Floor else -((-x).Floor)
  }

  /** `int(part / whole * 100)` for counts: the integer quotient of 100 x part by whole. */
  function WholePercent(part: nat, whole: nat): (p: nat)
    requires whole > 0
    ensures p == (part * 100) / whole
    ensures p * whole <= part * 100
    ensures part <= whole ==> p <= 100
    ensures part == whole ==> p == 100
  {
    var n := part * 100;
    var x := (n as real) / (whole as real);
    FloorOfQuotient(n, whole);
    DivisionBound(part, whole);
    Truncate(x)
  }

  /** `int(part / whole * 100) if whole > 0 else 0`, with nothing capping it at 100. */
  function PercentOrZero(part: nat, whole: nat): (p: nat)
    ensures whole == 0 ==> p == 0
    ensures whole > 0 ==> p * whole <= 100 * part && 100 * part < (p + 1) * whole
    ensures whole > 0 && part <= whole ==> p <= 100
    ensures whole > 0 && part == whole ==> p == 100
  {
    if whole > 0 then
      QuotientRemainder(part * 100, whole);
      WholePercent(part, whole)
    else 0
  }

  lemma QuotientRemainder(a: nat, b: nat)
    requires b > 0
    ensures (a / b) * b <= a < (a / b + 1) * b
  {
    var q, r := a / b, a % b;
    assert q * b + r == a;
  }

  lemma FloorOfQuotient(a: nat, b: nat)
    requires b > 0
    ensures (a as real) / (b as real) >= 0.0
    ensures ((a as real) / (b as real)).Floor == a / b
  {
    var q := a / b;
    var r := a % b;
    assert a == q * b + r && 0 <= r < b;
    var x := (a as real) / (b as real);
    assert x * (b as real) == a as real;
    assert (q as real) * (b as real) <= a as real < ((q + 1) as real) * (b as real);
    QuotientBetween(a as real, b as real, q as real);
  }

  lemma QuotientBetween(a: real, b: real, q: real)
    requires b > 0.0 && q * b <= a < (q + 1.0) * b
    ensures q <= a / b < q + 1.0
  {
    var c := q + 1.0;
    DivideMonotone(q * b, a, b);
    DivideMonotone(a, c * b, b);
    MultiplyDivide(q, b);
    MultiplyDivide(c, b);
    assert q * b / b <= a / b;
    assert a / b < c * b / b;
  }

  lemma MultiplyDivide(c: real, b: real)
    requires b > 0.0
    ensures c * b / b == c
  {
  }

  lemma DivideMonotone(x: real, y: real, b: real)
    requires b > 0.0
    ensures x <= y ==> x / b <= y / b
    ensures x < y ==> x / b < y / b
  {
  }

  lemma DivisionBound(part: nat, whole: nat)
    requires whole > 0
    ensures part <= whole ==> (part * 100) / whole <= 100
    ensures part == whole ==> (part * 100) / whole == 100
    ensures (part * 100) / whole * whole <= part * 100
  {
    var n := part * 100;
    QuotientRemainder(n, whole);
    if part <= whole {
      assert n <= 100 * whole;
      QuotientAtMost(n / whole, whole, 100);
    }
    if part == whole {
      assert n == 100 * whole;
      ExactQuotient(100, whole);
    }
  }

  lemma QuotientAtMost(q: int, b: nat, c: int)
    requires b > 0 && q * b <= c * b
    ensures q <= c
  {
    ProductSign(q - c, b);
    assert (q - c) * b == q * b - c * b;
  }

  lemma ProductSign(d: int, b: nat)
    requires b > 0
    ensures d >= 1 ==> d * b >= b
    ensures d <= -1 ==> d * b + b <= 0
  {
  }

  lemma ExactQuotient(c: nat, b: nat)
    requires b > 0
    ensures (c * b) / b == c
  {
    var q := (c * b) / b;
    QuotientRemainder(c * b, b);
    assert (q + 1) * b == q * b + b;
    ProductSign(c - q, b);
    assert (c - q) * b == c * b - q * b;
  }

  function SumSquaredDeviations(xs: seq<real>, m: real): real
  {
    if |xs| == 0 then 0.0
    else SumSquaredDeviations(xs[..|xs| - 1], m) + (xs[|xs| - 1] - m) * (xs[|xs| - 1] - m)
  }

  /** Population variance: the square of what `np.std` returns. */
  function Variance(xs: seq<real>): real
    requires |xs| > 0
  {
    SumSquaredDeviations(xs, Mean(xs)) / (|xs| as real)
  }

  /** The sum of the values weighted by their indices, sum of i * xs[i]. */
  function SumIndexed(xs: seq<real>): real
  {
    if |xs| == 0 then 0.0 else SumIndexed(xs[..|xs| - 1]) + ((|xs| - 1) as real) * xs[|xs| - 1]
  }

  /** 0 + 1 + ... + (n-1). */
  function SumIndices(n: nat): real
  {
    if n == 0 then 0.0 else SumIndices(n - 1) + (n - 1) as real
  }

  /** 0^2 + 1^2 + ... + (n-1)^2. */
  function SumSquaredIndices(n: nat): real
  {
    if n == 0 then 0.0 else SumSquaredIndices(n - 1) + ((n - 1) as real) * ((n - 1) as real)
  }

  /**
   * The slope of the least-squares line through n points, from the sums over the points:
   * x = n, sx = sum of x, sxx = sum of x^2, sy = sum of y, sxy = sum of x*y.
   */
  function LeastSquaresSlope(x: real, sx: real, sxx: real, sy: real, sxy: real): real
    requires x * sxx - sx * sx != 0.0
  {
    (x * sxy - sx * sy) / (x * sxx - sx * sx)
  }

  /** Ordinary least-squares slope of `ys` against 0..n-1 (what `np.linalg.lstsq` solves). */
  function Slope(ys: seq<real>): real
    requires |ys| >= 2
  {
    IndexSlope(|ys|, Sum(ys), SumIndexed(ys))
  }

  /** The least-squares slope against the indices 0..n-1 of points with sum sy and sum sxy of i*y. */
  function IndexSlope(n: nat, sy: real, sxy: real): real
    requires n >= 2
  {
    IndexSpreadPositive(n);
    LeastSquaresSlope(n as real, SumIndices(n), SumSquaredIndices(n), sy, sxy)
  }

  /** The series a, a + b, a + 2b, ... of length n. */
  function Linear(a: real, b: real, n: nat): (ys: seq<real>)
    ensures |ys| == n
    ensures forall i :: 0 <= i < n ==> ys[i] == a + b * (i as real)
  {
    seq(n, i => a + b * (i as real))
  }

  // ----- lemmas -----

  lemma {:induction false} SumBounds(xs: seq<real>, lo: real, hi: real)
    requires forall i :: 0 <= i < |xs| ==> lo <= xs[i] <= hi
    ensures (|xs| as real) * lo <= Sum(xs) <= (|xs| as real) * hi
  {
    if |xs| > 0 {
      SumBounds(xs[..|xs| - 1], lo, hi);
    }
  }

  lemma QuotientBounds(s: real, n: real, lo: real, hi: real)
    requires n > 0.0 && n * lo <= s <= n * hi
    ensures lo <= s / n <= hi
  {
  }

  /** The mean of values that all lie in [lo, hi] lies in [lo, hi]. */
  lemma MeanWithinBounds(xs: seq<real>, lo: real, hi: real)
    requires |xs| > 0
    requires forall i :: 0 <= i < |xs| ==> lo <= xs[i] <= hi
    ensures lo <= Mean(xs) <= hi
  {
    SumBounds(xs, lo, hi);
    QuotientBounds(Sum(xs), |xs| as real, lo, hi);
  }

  /** For a non-empty series: min <= mean <= max. */
  lemma MeanBetweenMinAndMax(xs: seq<real>)
    requires |xs| > 0
    ensures Min(xs) <= Mean(xs) <= Max(xs)
  {
    MeanWithinBounds(xs, Min(xs), Max(xs));
  }

  /** The mean spread back over the values gives their sum. */
  lemma MeanTimesCount(xs: seq<real>)
    requires |xs| > 0
    ensures Mean(xs) * (|xs| as real) == Sum(xs)
  {
  }

  /** A single value is its own mean, minimum and maximum, with no spread. */
  lemma Singleton(x: real)
    ensures Mean([x]) == Min([x]) == Max([x]) == x && Variance([x]) == 0.0
  {
    assert [x][..0] == [];
    assert Sum([x]) == Sum([]) + x;
    assert Mean([x]) == x;
    assert SumSquaredDeviations([x], x) == SumSquaredDeviations([], x) + (x - x) * (x - x);
  }

  /** Below, within (inclusive) and above a non-empty range split the values: each is counted once. */
  lemma {:induction false} CountsPartition(xs: seq<real>, lo: real, hi: real)
    requires lo <= hi
    ensures CountBelow(xs, lo) + CountBetween(xs, lo, hi) + CountAbove(xs, hi) == |xs|
  {
    if |xs| > 0 {
      CountsPartition(xs[..|xs| - 1], lo, hi);
    }
  }

  /** Three counts that add up to n give percentages that add up to 100. */
  lemma PercentagesSumToHundred(a: real, b: real, c: real, n: real)
    requires n > 0.0 && a + b + c == n
    ensures a / n * 100.0 + b / n * 100.0 + c / n * 100.0 == 100.0
  {
    assert a / n + b / n + c / n == (a + b + c) / n;
  }

  /** Thresholds a <= b <= c cut the values into four half-open buckets: each is counted once. */
  lemma {:induction false} CountsPartitionFour(xs: seq<real>, a: real, b: real, c: real)
    requires a <= b <= c
    ensures CountBelow(xs, a) + CountFrom(xs, a, b) + CountFrom(xs, b, c) + CountAtLeast(xs, c) == |xs|
  {
    if |xs| > 0 {
      CountsPartitionFour(xs[..|xs| - 1], a, b, c);
    }
  }

  /** Four counts that add up to n give percentages that add up to 100. */
  lemma FourPercentagesSumToHundred(a: nat, b: nat, c: nat, d: nat, n: nat)
    requires n > 0 && a + b + c + d == n
    ensures Percentage(a, n) + Percentage(b, n) + Percentage(c, n) + Percentage(d, n) == 100.0
  {
    FourSharesSumToHundred(a as real, b as real, c as real, d as real, n as real);
  }

  lemma FourSharesSumToHundred(a: real, b: real, c: real, d: real, n: real)
    requires n > 0.0 && a + b + c + d == n
    ensures a / n * 100.0 + b / n * 100.0 + c / n * 100.0 + d / n * 100.0 == 100.0
  {
    assert a / n + b / n + c / n + d / n == (a + b + c + d) / n;
  }

  lemma {:induction false} SumSquaredDeviationsNonNegative(xs: seq<real>, m: real)
    ensures SumSquaredDeviations(xs, m) >= 0.0
  {
    if |xs| > 0 {
      SumSquaredDeviationsNonNegative(xs[..|xs| - 1], m);
      SquareNonNegative(xs[|xs| - 1] - m);
    }
  }

  lemma SquareNonNegative(d: real)
    ensures d * d >= 0.0
  {
    if d < 0.0 {
      assert d * d == (-d) * (-d);
    }
  }

  /** The variance (and so numpy's std) is never negative. */
  lemma VarianceNonNegative(xs: seq<real>)
    requires |xs| > 0
    ensures Variance(xs) >= 0.0
  {
    SumSquaredDeviationsNonNegative(xs, Mean(xs));
  }

  lemma {:induction false} SumIndicesClosedForm(n: nat)
    ensures SumIndices(n) == (n as real) * ((n as real) - 1.0) / 2.0
  {
    if n > 0 { SumIndicesClosedForm(n - 1); }
  }

  lemma {:induction false} SumSquaredIndicesClosedForm(n: nat)
    ensures 6.0 * SumSquaredIndices(n) == ((n as real) - 1.0) * (n as real) * (2.0 * (n as real) - 1.0)
  {
    if n > 0 { SumSquaredIndicesClosedForm(n - 1); }
  }

  /**
   * The denominator of the least-squares slope over the indices 0..n-1, n * sum(i^2) - (sum i)^2,
   * is n^2 (n^2 - 1) / 12, hence positive from two points on.
   */
  lemma IndexSpreadPositive(n: nat)
    requires n >= 2
    ensures (n as real) * SumSquaredIndices(n) - SumIndices(n) * SumIndices(n) > 0.0
  {
    SumIndicesClosedForm(n);
    SumSquaredIndicesClosedForm(n);
    var x := n as real;
    var s1 := SumIndices(n);
    var s2 := SumSquaredIndices(n);
    var spread := x * s2 - s1 * s1;
    assert 2.0 * s1 == x * (x - 1.0);
    assert 12.0 * spread == 2.0 * x * (6.0 * s2) - 3.0 * (2.0 * s1) * (2.0 * s1);
    assert 12.0 * spread == x * x * (x - 1.0) * (x + 1.0);
    assert x * x > 0.0 && (x - 1.0) * (x + 1.0) > 0.0;
    assert x * x * (x - 1.0) * (x + 1.0) == (x * x) * ((x - 1.0) * (x + 1.0));
    PositiveProduct(x * x, (x - 1.0) * (x + 1.0));
  }

  lemma PositiveProduct(p: real, q: real)
    requires p > 0.0 && q > 0.0
    ensures p * q > 0.0
  {
  }

  lemma {:induction false} SumOfLinear(a: real, b: real, n: nat)
    ensures Sum(Linear(a, b, n)) == (n as real) * a + b * SumIndices(n)
  {
    if n > 0 {
      assert Linear(a, b, n)[..n - 1] == Linear(a, b, n - 1);
      SumOfLinear(a, b, n - 1);
    }
  }

  lemma {:induction false} SumIndexedOfLinear(a: real, b: real, n: nat)
    ensures SumIndexed(Linear(a, b, n)) == a * SumIndices(n) + b * SumSquaredIndices(n)
  {
    if n > 0 {
      assert Linear(a, b, n)[..n - 1] == Linear(a, b, n - 1);
      SumIndexedOfLinear(a, b, n - 1);
      var k := (n - 1) as real;
      assert k * (a + b * k) == a * k + b * (k * k);
    }
  }

  lemma SlopeNumerator(x: real, a: real, b: real, s1: real, s2: real)
    ensures x * (a * s1 + b * s2) - s1 * (x * a + b * s1) == b * (x * s2 - s1 * s1)
  {
  }

  lemma CancelFactor(num: real, d: real, b: real)
    requires d != 0.0 && num == b * d
    ensures num / d == b
  {
  }

  /** Points lying exactly on y = a + b*x have least-squares slope b. */
  lemma LeastSquaresOfLine(x: real, a: real, b: real, s1: real, s2: real, sy: real, sxy: real)
    requires x * s2 - s1 * s1 != 0.0
    requires sy == x * a + b * s1 && sxy == a * s1 + b * s2
    ensures LeastSquaresSlope(x, s1, s2, sy, sxy) == b
  {
    SlopeNumerator(x, a, b, s1, s2);
    CancelFactor(x * (a * s1 + b * s2) - s1 * (x * a + b * s1), x * s2 - s1 * s1, b);
  }

  /** The least-squares slope of a + b*i over 0..n-1 is exactly b. */
  lemma SlopeOfLinear(a: real, b: real, n: nat)
    requires n >= 2
    ensures Slope(Linear(a, b, n)) == b
  {
    SumOfLinear(a, b, n);
    SumIndexedOfLinear(a, b, n);
    SlopeFromSums(n, a, b, Sum(Linear(a, b, n)), SumIndexed(Linear(a, b, n)));
  }

  /** Points whose two sums are those of a + b*i have least-squares slope b. */
  lemma SlopeFromSums(n: nat, a: real, b: real, sy: real, sxy: real)
    requires n >= 2
    requires sy == (n as real) * a + b * SumIndices(n)
    requires sxy == a * SumIndices(n) + b * SumSquaredIndices(n)
    ensures IndexSlope(n, sy, sxy) == b
  {
    IndexSpreadPositive(n);
    LeastSquaresOfLine(n as real, a, b, SumIndices(n), SumSquaredIndices(n), sy, sxy);
  }

  /** A constant series has no trend. */
  lemma ConstantHasZeroSlope(a: real, n: nat)
    requires n >= 2
    ensures Slope(Linear(a, 0.0, n)) == 0.0
  {
    SlopeOfLinear(a, 0.0, n);
  }
}
