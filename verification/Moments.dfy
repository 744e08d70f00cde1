/** The shape of a sample from one pass over its deviations: spread, skewness and excess kurtosis. */
module Moments {
  import opened Arith

  /** Below this spread a sample counts as flat. */
  const FLAT := 0.000000000000001

  /** Sums of the powers of the deviations. */
  datatype Powers = Powers(first: real, second: real, third: real, fourth: real)

  function Deviate(p: Powers, d: real): Powers {
    var d2 := Times(d, d);
    Powers(p.first + d, p.second + d2, p.third + Times(d2, d), p.fourth + Times(d2, d2))
  }

  function Deviations(xs: seq<real>, c: real): Powers {
    if xs == [] then Powers(0.0, 0.0, 0.0, 0.0)
    else Deviate(Deviations(xs[..|xs| - 1], c), xs[|xs| - 1] - c)
  }

  method Accumulate(xs: seq<real>, c: real) returns (m2: real, m3: real, m4: real)
    ensures var p := Deviations(xs, c); m2 == p.second && m3 == p.third && m4 == p.fourth
  {
    hide Times;
    m2, m3, m4 := 0.0, 0.0, 0.0;
    for i := 0 to |xs|
      invariant var p := Deviations(xs[..i], c); m2 == p.second && m3 == p.third && m4 == p.fourth
    {
      assert xs[..i + 1][..i] == xs[..i];
      var d := xs[i] - c;
      var d2 := Times(d, d);
      m2 := m2 + d2;
      m3 := m3 + Times(d2, d);
      m4 := m4 + Times(d2, d2);
    }
    assert xs[..|xs|] == xs;
  }

  function AverageOf(sum: real, n: nat): real
    requires n > 0
  {
    sum / (n as real)
  }

  // ----- The shape -----

  datatype Shape = Shape(stdDev: real, skewness: real, kurtosis: real)

  lemma {:induction false} SecondIsNonNegative(xs: seq<real>, c: real)
    ensures Deviations(xs, c).second >= 0.0
  {
    hide Times;
    if xs != [] {
      SecondIsNonNegative(xs[..|xs| - 1], c);
      SquareIsNonNegative(xs[|xs| - 1] - c);
    }
  }

  lemma SquareIsNonNegative(d: real)
    ensures Times(d, d) >= 0.0
  {
  }

  function Cube(x: real): real {
    Times(Times(x, x), x)
  }

  lemma ProductIsPositive(x: real, y: real)
    requires x > 0.0 && y > 0.0
    ensures Times(x, y) > 0.0
  {
  }

  lemma PowersArePositive(x: real)
    requires x > 0.0
    ensures Times(x, x) > 0.0 && Cube(x) > 0.0
  {
    ProductIsPositive(x, x);
    ProductIsPositive(Times(x, x), x);
  }

  lemma RootIsPositive(sqrt: real -> real, variance: real)
    requires IsSqrt(sqrt) && variance >= 0.0
    ensures var s := sqrt(variance);
            s >= 0.0 && Times(s, s) == variance && (s > 0.0 ==> variance > 0.0 && Cube(s) > 0.0)
  {
    var s := sqrt(variance);
    hide Times, Cube;
    if s > 0.0 {
      PowersArePositive(s);
    }
  }

  lemma AverageIsNonNegative(sum: real, n: nat)
    requires sum >= 0.0 && n > 0
    ensures AverageOf(sum, n) >= 0.0
  {
  }

  /** From the sums of powers, as the summary of a sample reports it. */
  function ShapeFrom(m2: real, m3: real, m4: real, n: nat, sqrt: real -> real): Shape
    requires IsSqrt(sqrt) && n > 0 && m2 >= 0.0
  {
    AverageIsNonNegative(m2, n);
    var variance := AverageOf(m2, n);
    var s := sqrt(variance);
    RootIsPositive(sqrt, variance);
    if s > FLAT then
      PowersArePositive(variance);
      Shape(s, AverageOf(m3, n) / Cube(s), AverageOf(m4, n) / Times(variance, variance) - 3.0)
    else
      Shape(s, 0.0, 0.0)
  }

  function ShapeOf(xs: seq<real>, c: real, sqrt: real -> real): Shape
    requires IsSqrt(sqrt) && xs != []
  {
    SecondIsNonNegative(xs, c);
    var p := Deviations(xs, c);
    ShapeFrom(p.second, p.third, p.fourth, |xs|, sqrt)
  }

  /** The powers of the deviations, one for each value. */
  function PowersOf(xs: seq<real>, c: real, power: real -> real): seq<real> {
    seq(|xs|, i requires 0 <= i < |xs| => power(xs[i] - c))
  }

  lemma {:induction false} DeviationsAreSums(xs: seq<real>, c: real)
    ensures var p := Deviations(xs, c);
            && p.second == Sum(PowersOf(xs, c, (d: real) => Times(d, d)))
            && p.third == Sum(PowersOf(xs, c, (d: real) => Times(Times(d, d), d)))
            && p.fourth == Sum(PowersOf(xs, c, (d: real) => Times(Times(d, d), Times(d, d))))
  {
    hide Times;
    if xs != [] {
      DeviationsAreSums(xs[..|xs| - 1], c);
      PowersSnoc(xs, c, (d: real) => Times(d, d));
      PowersSnoc(xs, c, (d: real) => Times(Times(d, d), d));
      PowersSnoc(xs, c, (d: real) => Times(Times(d, d), Times(d, d)));
      hide Sum, PowersOf;
    }
  }

  lemma PowersSnoc(xs: seq<real>, c: real, power: real -> real)
    requires xs != []
    ensures var n := |xs| - 1;
            Sum(PowersOf(xs, c, power)) == Sum(PowersOf(xs[..n], c, power)) + power(xs[n] - c)
  {
    var n := |xs| - 1;
    assert PowersOf(xs, c, power)[..n] == PowersOf(xs[..n], c, power);
  }

  /**
    * The squared standard deviation is the mean square of the deviations; and of a sample that is not flat, the
    * skewness times its cube is their mean cube, and the kurtosis over three times its fourth power their mean fourth
    * power.
    */
  lemma ShapeIsMoments(xs: seq<real>, c: real, sqrt: real -> real)
    requires IsSqrt(sqrt) && xs != []
    ensures var s, n := ShapeOf(xs, c, sqrt), |xs| as real;
            var v := Times(s.stdDev, s.stdDev);
            && s.stdDev >= 0.0
            && Times(n, v) == Sum(PowersOf(xs, c, (d: real) => Times(d, d)))
            && (if s.stdDev > 0.000000000000001 then
                  && Times(n, Times(s.skewness, Times(v, s.stdDev)))
                     == Sum(PowersOf(xs, c, (d: real) => Times(Times(d, d), d)))
                  && Times(n, Times(s.kurtosis + 3.0, Times(v, v)))
                     == Sum(PowersOf(xs, c, (d: real) => Times(Times(d, d), Times(d, d))))
                else s.skewness == 0.0 && s.kurtosis == 0.0)
  {
    DeviationsAreSums(xs, c);
    SecondIsNonNegative(xs, c);
    var p, n := Deviations(xs, c), |xs|;
    AverageIsNonNegative(p.second, n);
    RootIsPositive(sqrt, AverageOf(p.second, n));
    TimesAverage(p.second, n);
    TimesAverage(p.third, n);
    TimesAverage(p.fourth, n);
    var s := ShapeOf(xs, c, sqrt);
    hide Deviations, Sum, AverageOf, IsSqrt, PowersOf, Times;
    if s.stdDev > FLAT {
      PowersArePositive(AverageOf(p.second, n));
      QuotientTimes(AverageOf(p.third, n), Cube(s.stdDev));
      QuotientTimes(AverageOf(p.fourth, n), Times(AverageOf(p.second, n), AverageOf(p.second, n)));
    }
  }

  lemma TimesAverage(sum: real, n: nat)
    requires n > 0
    ensures Times(n as real, AverageOf(sum, n)) == sum
  {
  }

  lemma QuotientTimes(n: real, d: real)
    requires d > 0.0
    ensures Times(n / d, d) == n
  {
  }

  // ----- Skewness bounds kurtosis from below -----

  /** The sum over the sample of the squares of d^2 + a d + b, in terms of the sums of powers. */
  function Squares(p: Powers, n: real, a: real, b: real): real {
    p.fourth + Times(2.0 * a, p.third) + Times(a * a + 2.0 * b, p.second) + Times(2.0 * a * b, p.first)
    + Times(n, b * b)
  }

  lemma SquaresStep(p: Powers, n: real, d: real, a: real, b: real)
    ensures Squares(Deviate(p, d), n + 1.0, a, b) == Squares(p, n, a, b) + (d * d + a * d + b) * (d * d + a * d + b)
  {
    var d2 := Times(d, d);
    SquareAt(d, a, b);
    TimesSum(2.0 * a, p.third, Times(d2, d));
    TimesSum(a * a + 2.0 * b, p.second, d2);
    TimesSum(2.0 * a * b, p.first, d);
    TimesSplit(n, 1.0, b * b);
    TimesOne(b * b);
    hide Times;
  }

  /** One value's square, sorted by powers. */
  lemma SquareAt(d: real, a: real, b: real)
    ensures var d2 := Times(d, d);
            (d * d + a * d + b) * (d * d + a * d + b)
            == Times(d2, d2) + Times(2.0 * a, Times(d2, d)) + Times(a * a + 2.0 * b, d2) + Times(2.0 * a * b, d) + b * b
  {
    var x, y := d * d, a * d;
    SquareOfThree(x, y, b);
    assert x * y == a * (x * d);
    assert y * y == a * a * x;
    assert y * b == a * b * d;
    Distribute(x, a * a, 2.0 * b);
  }

  lemma Distribute(k: real, x: real, y: real)
    ensures k * (x + y) == k * x + k * y
  {
  }

  lemma SquareOfThree(x: real, y: real, z: real)
    ensures (x + y + z) * (x + y + z) == x * x + 2.0 * (x * y) + y * y + 2.0 * (x * z) + 2.0 * (y * z) + z * z
  {
  }

  lemma {:induction false} SquaresAreNonNegative(xs: seq<real>, c: real, a: real, b: real)
    ensures Squares(Deviations(xs, c), |xs| as real, a, b) >= 0.0
  {
    hide Squares, Times;
    if xs == [] {
      NoSquares(a, b);
    } else {
      var n := |xs| - 1;
      var d := xs[n] - c;
      SquaresAreNonNegative(xs[..n], c, a, b);
      SquaresStep(Deviations(xs[..n], c), n as real, d, a, b);
      var square := d * d + a * d + b;
      assert square * square >= 0.0;
      assert (|xs| as real) == (n as real) + 1.0;
    }
  }

  lemma NoSquares(a: real, b: real)
    ensures Squares(Powers(0.0, 0.0, 0.0, 0.0), 0.0, a, b) == 0.0
  {
  }

  /** Deviations from the mean add up to nothing. */
  lemma {:induction false} FirstIs(xs: seq<real>, c: real)
    ensures Deviations(xs, c).first == Sum(xs) - Times(|xs| as real, c)
  {
    hide Times;
    if xs == [] {
      TimesZero(c);
    } else {
      var n := |xs| - 1;
      FirstIs(xs[..n], c);
      assert (|xs| as real) == (n as real) + 1.0;
      TimesSplit(n as real, 1.0, c);
      TimesOne(c);
    }
  }

  /** Of the averages of the powers. */
  lemma MomentsBound(xs: seq<real>, c: real)
    requires xs != [] && Times(|xs| as real, c) == Sum(xs) && Deviations(xs, c).second > 0.0
    ensures var p, n := Deviations(xs, c), |xs|;
            var m2, m3, m4 := AverageOf(p.second, n), AverageOf(p.third, n), AverageOf(p.fourth, n);
            m2 > 0.0 && Times(m4, m2) >= Times(m3, m3) + Times(m2, Times(m2, m2))
  {
    var p, n := Deviations(xs, c), |xs|;
    var m2, m3, m4 := AverageOf(p.second, n), AverageOf(p.third, n), AverageOf(p.fourth, n);
    FirstIs(xs, c);
    hide Deviations, Sum;
    assert m2 > 0.0;
    var a := -m3 / m2;
    SquaresAreNonNegative(xs, c, a, -m2);
    SquaresOfAverages(p, n, m2, m3, m4, a);
  }

  lemma SquaresOfAverages(p: Powers, n: nat, m2: real, m3: real, m4: real, a: real)
    requires n > 0 && m2 == AverageOf(p.second, n) && m3 == AverageOf(p.third, n) && m4 == AverageOf(p.fourth, n)
    requires m2 > 0.0 && a == -m3 / m2 && p.first == 0.0 && Squares(p, n as real, a, -m2) >= 0.0
    ensures Times(m4, m2) >= Times(m3, m3) + Times(m2, Times(m2, m2))
  {
    var x := n as real;
    assert a * m2 == -m3;
    assert p.second == x * m2 && p.third == x * m3 && p.fourth == x * m4;
    var inner := m4 + a * m3 - m2 * m2;
    InnerSquares(p, x, m2, m3, m4, a);
    assert inner >= 0.0;
    assert inner * m2 == m4 * m2 + m3 * (a * m2) - m2 * (m2 * m2);
    assert inner * m2 >= 0.0;
  }

  lemma InnerSquares(p: Powers, x: real, m2: real, m3: real, m4: real, a: real)
    requires x > 0.0 && a * m2 == -m3 && p.first == 0.0
    requires p.second == x * m2 && p.third == x * m3 && p.fourth == x * m4
    requires Squares(p, x, a, -m2) >= 0.0
    ensures m4 + a * m3 - m2 * m2 >= 0.0
  {
    var inner := m4 + a * m3 - m2 * m2;
    assert Squares(p, x, a, -m2) == x * inner by {
      assert a * a * (x * m2) == x * (a * (a * m2));
    }
    SignOfFactor(x, inner);
  }

  lemma SignOfFactor(x: real, y: real)
    requires x > 0.0 && x * y >= 0.0
    ensures y >= 0.0
  {
  }

  /**
    * Pearson's inequality: the kurtosis of a sample that is not flat is at least its squared skewness plus one, so the
    * excess kurtosis is never below minus two.
    */
  lemma PearsonsInequality(xs: seq<real>, c: real, sqrt: real -> real)
    requires IsSqrt(sqrt) && xs != [] && Times(|xs| as real, c) == Sum(xs) && ShapeOf(xs, c, sqrt).stdDev > FLAT
    ensures var s := ShapeOf(xs, c, sqrt);
            s.kurtosis + 3.0 >= Times(s.skewness, s.skewness) + 1.0 && s.kurtosis >= -2.0
  {
    SecondIsNonNegative(xs, c);
    var p, n := Deviations(xs, c), |xs|;
    var m2, m3, m4 := AverageOf(p.second, n), AverageOf(p.third, n), AverageOf(p.fourth, n);
    var s := sqrt(m2);
    AverageIsNonNegative(p.second, n);
    RootIsPositive(sqrt, m2);
    MomentsBound(xs, c);
    hide IsSqrt, Deviations, Sum, AverageOf, Times, Cube;
    PowersArePositive(m2);
    Standardised(m2, m3, m4, s);
  }

  lemma Standardised(m2: real, m3: real, m4: real, s: real)
    requires Times(s, s) == m2 > 0.0 && Cube(s) > 0.0 && Times(m2, m2) > 0.0
    requires Times(m4, m2) >= Times(m3, m3) + Times(m2, Times(m2, m2))
    ensures var k := m3 / Cube(s);
            m4 / Times(m2, m2) >= Times(k, k) + 1.0 && Times(k, k) >= 0.0
  {
    var cube, square := Cube(s), m2 * m2;
    var k, q := m3 / cube, m4 / square;
    var all := m2 * square;
    assert k * cube == m3 && q * square == m4;
    CubeSquared(s, m2);
    ProductSquared(k, cube);
    assert m4 * m2 == q * all;
    assert all > 0.0;
    Distribute(all, q, -(k * k) - 1.0);
    assert all * (-(k * k) - 1.0) == -(k * k * all) - all;
    SignOfFactor(all, q - k * k - 1.0);
    SquareIsNonNegative(k);
  }

  lemma CubeSquared(s: real, m2: real)
    requires Times(s, s) == m2
    ensures Cube(s) * Cube(s) == m2 * (m2 * m2)
  {
    assert Cube(s) == m2 * s;
    assert (m2 * s) * (m2 * s) == m2 * (m2 * (s * s));
  }

  lemma ProductSquared(k: real, c: real)
    ensures (k * c) * (k * c) == (k * k) * (c * c)
  {
  }

  // ----- Changing the unit -----

  lemma ScaledStep(p: Powers, q: Powers, d: real, a: real)
    requires q.second == Times(Times(a, a), p.second) && q.third == Times(Cube(a), p.third)
    requires q.fourth == Times(Times(Times(a, a), Times(a, a)), p.fourth)
    ensures var p2, q2 := Deviate(p, d), Deviate(q, Times(a, d));
            && q2.second == Times(Times(a, a), p2.second) && q2.third == Times(Cube(a), p2.third)
            && q2.fourth == Times(Times(Times(a, a), Times(a, a)), p2.fourth)
  {
    var a2, d2, e := Times(a, a), Times(d, d), Times(a, d);
    TimesPair(a, d, a, d);
    TimesPair(a2, d2, a, d);
    TimesPair(a2, d2, a2, d2);
    TimesSum(a2, p.second, d2);
    TimesSum(Times(a2, a), p.third, Times(d2, d));
    TimesSum(Times(a2, a2), p.fourth, Times(d2, d2));
    hide Times;
  }

  lemma TimesPair(a: real, b: real, c: real, d: real)
    ensures Times(Times(a, b), Times(c, d)) == Times(Times(a, c), Times(b, d))
  {
    assert (a * b) * (c * d) == (a * c) * (b * d);
  }

  lemma TimesSum(k: real, x: real, y: real)
    ensures Times(k, x + y) == Times(k, x) + Times(k, y)
  {
  }

  /** When every deviation is scaled, so are the sums of their powers, by the powers of the scale. */
  lemma {:induction false} ScaledDeviations(xs: seq<real>, c: real, ys: seq<real>, e: real, a: real)
    requires |ys| == |xs| && forall i :: 0 <= i < |xs| ==> ys[i] - e == Times(a, xs[i] - c)
    ensures var p, q := Deviations(xs, c), Deviations(ys, e);
            && q.second == Times(Times(a, a), p.second) && q.third == Times(Cube(a), p.third)
            && q.fourth == Times(Times(Times(a, a), Times(a, a)), p.fourth)
  {
    if xs == [] {
      TimesZero(Times(a, a));
      TimesZero(Cube(a));
      TimesZero(Times(Times(a, a), Times(a, a)));
    } else {
      hide Times, Cube, Deviate;
      var n := |xs| - 1;
      ScaledDeviations(xs[..n], c, ys[..n], e, a);
      ScaledStep(Deviations(xs[..n], c), Deviations(ys[..n], e), xs[n] - c, a);
    }
  }

  lemma AverageScales(k: real, sum: real, n: nat)
    requires n > 0
    ensures AverageOf(Times(k, sum), n) == Times(k, AverageOf(sum, n))
  {
    var q := sum / (n as real);
    assert q * (n as real) == sum;
    assert k * sum == (k * q) * (n as real);
  }

  lemma RootScales(sqrt: real -> real, a: real, v: real)
    requires IsSqrt(sqrt) && a > 0.0 && v >= 0.0
    ensures Times(Times(a, a), v) >= 0.0 && sqrt(Times(Times(a, a), v)) == Times(a, sqrt(v))
  {
    var s := sqrt(v);
    assert Times(s, s) == v;
    assert (a * s) * (a * s) == a * a * v;
    SquareIsNonNegative(Times(a, s));
    assert a * s >= 0.0;
    SameRoot(sqrt(Times(Times(a, a), v)), Times(a, s));
  }

  lemma SameRoot(x: real, y: real)
    requires x >= 0.0 && y >= 0.0 && Times(x, x) == Times(y, y)
    ensures x == y
  {
    assert (x - y) * (x + y) == x * x - y * y;
    if x > y {
      ProductIsPositive(x - y, x + y);
    } else if x < y {
      ProductIsPositive(y - x, x + y);
    }
  }

  /**
    * Skewness and kurtosis do not depend on the unit, nor on where nothing is, unless a change of unit makes the sample
    * flat or no longer flat; the standard deviation is in the unit.
    */
  lemma ShapeScales(xs: seq<real>, c: real, ys: seq<real>, e: real, a: real, sqrt: real -> real)
    requires IsSqrt(sqrt) && xs != [] && a > 0.0
    requires |ys| == |xs| && forall i :: 0 <= i < |xs| ==> ys[i] - e == Times(a, xs[i] - c)
    ensures var s, t := ShapeOf(xs, c, sqrt), ShapeOf(ys, e, sqrt);
            && t.stdDev == Times(a, s.stdDev)
            && ((t.stdDev > FLAT <==> s.stdDev > FLAT) ==> t.skewness == s.skewness && t.kurtosis == s.kurtosis)
  {
    var p, q, n := Deviations(xs, c), Deviations(ys, e), |xs|;
    SecondIsNonNegative(xs, c);
    ScaledDeviations(xs, c, ys, e, a);
    var m2, m3, m4 := AverageOf(p.second, n), AverageOf(p.third, n), AverageOf(p.fourth, n);
    AverageIsNonNegative(p.second, n);
    AverageScales(Times(a, a), p.second, n);
    AverageScales(Cube(a), p.third, n);
    AverageScales(Times(Times(a, a), Times(a, a)), p.fourth, n);
    RootScales(sqrt, a, m2);
    RootIsPositive(sqrt, m2);
    PowersArePositive(a);
    hide Deviations, AverageOf, Times, Cube, IsSqrt;
    var s := sqrt(m2);
    if s > FLAT {
      PowersArePositive(m2);
      CubeOfProduct(a, s);
      SquareOfProduct(Times(a, a), m2);
      PowersArePositive(Times(a, a));
      CancelScale(Cube(a), m3, Cube(s));
      CancelScale(Times(Times(a, a), Times(a, a)), m4, Times(m2, m2));
    }
  }

  lemma CubeOfProduct(a: real, s: real)
    ensures Cube(Times(a, s)) == Times(Cube(a), Cube(s))
  {
    assert (a * s) * (a * s) == (a * a) * (s * s);
    assert (a * a) * (s * s) * (a * s) == (a * a * a) * (s * s * s);
  }

  lemma SquareOfProduct(k: real, m: real)
    ensures Times(Times(k, m), Times(k, m)) == Times(Times(k, k), Times(m, m))
  {
    assert (k * m) * (k * m) == (k * k) * (m * m);
  }

  lemma CancelScale(k: real, n: real, d: real)
    requires k > 0.0 && d > 0.0
    ensures Times(k, d) > 0.0 && Times(k, n) / Times(k, d) == n / d
  {
    ProductIsPositive(k, d);
    var q := n / d;
    assert q * d == n;
    assert k * n == q * (k * d);
  }
}
