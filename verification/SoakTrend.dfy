/** The soak report's trend line, over exact reals. */
module SoakTrend {

  type Point = (real, real)

  /** A product, named so that proofs about sums can leave it closed. */
  function Times(a: real, b: real): real {
    a * b
  }

  function SumX(points: seq<Point>): real {
    if points == [] then 0.0 else SumX(points[..|points| - 1]) + points[|points| - 1].0
  }

  function SumY(points: seq<Point>): real {
    if points == [] then 0.0 else SumY(points[..|points| - 1]) + points[|points| - 1].1
  }

  function MeanX(points: seq<Point>): real
    requires points != []
  {
    SumX(points) / |points| as real
  }

  function MeanY(points: seq<Point>): real
    requires points != []
  {
    SumY(points) / |points| as real
  }

  /** The sum of (x - mx)^2. */
  function Spread(points: seq<Point>, mx: real): real {
    if points == [] then 0.0
    else
      var p := points[|points| - 1];
      Spread(points[..|points| - 1], mx) + Times(p.0 - mx, p.0 - mx)
  }

  /** The sum of (x - mx) * (y - my). */
  function Covariation(points: seq<Point>, mx: real, my: real): real {
    if points == [] then 0.0
    else
      var p := points[|points| - 1];
      Covariation(points[..|points| - 1], mx, my) + Times(p.0 - mx, p.1 - my)
  }

  function TrendPerHour(points: seq<Point>): real {
    if |points| < 3 then 0.0
    else
      var mx, my := MeanX(points), MeanY(points);
      if Spread(points, mx) == 0.0 then 0.0
      else Covariation(points, mx, my) / Spread(points, mx) * 3600.0
  }

  /** How badly the line y = height + slope * (x - mx) misses the points. */
  function Misfit(points: seq<Point>, mx: real, height: real, slope: real): real {
    if points == [] then 0.0
    else
      var p := points[|points| - 1];
      var miss := p.1 - height - Times(slope, p.0 - mx);
      Misfit(points[..|points| - 1], mx, height, slope) + Times(miss, miss)
  }

  /** The sum of (y - my)^2. */
  function SpreadY(points: seq<Point>, my: real): real {
    if points == [] then 0.0
    else
      var p := points[|points| - 1];
      SpreadY(points[..|points| - 1], my) + Times(p.1 - my, p.1 - my)
  }

  /** The sums of x - mx and of y - my. */
  function DriftX(points: seq<Point>, mx: real): real {
    if points == [] then 0.0 else DriftX(points[..|points| - 1], mx) + (points[|points| - 1].0 - mx)
  }

  function DriftY(points: seq<Point>, my: real): real {
    if points == [] then 0.0 else DriftY(points[..|points| - 1], my) + (points[|points| - 1].1 - my)
  }

  /** The misfit of a line as a polynomial in the sums, for a line c above the mean height. */
  function Polynomial(syy: real, sxy: real, sxx: real, sy: real, sx: real, n: real, c: real, slope: real): real {
    syy - 2.0 * slope * sxy + slope * slope * sxx - 2.0 * c * sy + 2.0 * c * slope * sx + n * (c * c)
  }

  lemma {:induction false} PolynomialStep(syy: real, sxy: real, sxx: real, sy: real, sx: real, n: real,
                                          c: real, slope: real, u: real, v: real)
    ensures
      var miss := v - c - Times(slope, u);
      Polynomial(syy, sxy, sxx, sy, sx, n, c, slope) + Times(miss, miss)
      == Polynomial(syy + Times(v, v), sxy + Times(u, v), sxx + Times(u, u), sy + v, sx + u, n + 1.0, c, slope)
  {
  }

  lemma {:induction false} MisfitExpands(points: seq<Point>, mx: real, my: real, height: real, slope: real)
    ensures
      Misfit(points, mx, height, slope)
      == Polynomial(SpreadY(points, my), Covariation(points, mx, my), Spread(points, mx),
                    DriftY(points, my), DriftX(points, mx), |points| as real, height - my, slope)
  {
    hide Polynomial, Times;
    if points == [] {
      assert Polynomial(0.0, 0.0, 0.0, 0.0, 0.0, 0.0, height - my, slope) == 0.0 by {
        PolynomialZero(height - my, slope);
      }
    } else {
      var m := |points| - 1;
      var p := points[m];
      var rest := points[..m];
      MisfitExpands(rest, mx, my, height, slope);
      PolynomialStep(SpreadY(rest, my), Covariation(rest, mx, my), Spread(rest, mx), DriftY(rest, my), DriftX(rest, mx),
                     m as real, height - my, slope, p.0 - mx, p.1 - my);
      assert p.1 - height - Times(slope, p.0 - mx) == (p.1 - my) - (height - my) - Times(slope, p.0 - mx);
    }
  }

  lemma {:induction false} PolynomialZero(c: real, slope: real)
    ensures Polynomial(0.0, 0.0, 0.0, 0.0, 0.0, 0.0, c, slope) == 0.0
  {
  }

  lemma {:induction false} Distribute(k: real, a: real, b: real)
    ensures k * (a + b) == k * a + k * b
  {
  }

  lemma {:induction false} DriftsAreSums(points: seq<Point>, mx: real, my: real)
    ensures DriftX(points, mx) == SumX(points) - mx * |points| as real
    ensures DriftY(points, my) == SumY(points) - my * |points| as real
  {
    if points != [] {
      DriftsAreSums(points[..|points| - 1], mx, my);
      Distribute(mx, (|points| - 1) as real, 1.0);
      Distribute(my, (|points| - 1) as real, 1.0);
    }
  }

  lemma {:induction false} Divided(sum: real, n: real)
    requires n != 0.0
    ensures sum / n * n == sum
  {
  }

  /** Around the means both drifts vanish. */
  lemma {:induction false} MeansCancel(points: seq<Point>)
    requires points != []
    ensures DriftX(points, MeanX(points)) == 0.0 && DriftY(points, MeanY(points)) == 0.0
  {
    DriftsAreSums(points, MeanX(points), MeanY(points));
    Divided(SumX(points), |points| as real);
    Divided(SumY(points), |points| as real);
  }

  lemma {:induction false} SquareIsPositive(d: real)
    ensures 0.0 <= Times(d, d)
    ensures Times(d, d) == 0.0 <==> d == 0.0
  {
    if d < 0.0 {
      Product(-d, -d);
      assert Times(d, d) == Times(-d, -d);
    } else if 0.0 < d {
      Product(d, d);
    } else {
      assert d == 0.0;
    }
  }

  lemma {:induction false} Product(a: real, b: real)
    requires 0.0 < a && 0.0 < b
    ensures 0.0 < Times(a, b)
  {
  }

  lemma {:induction false} SpreadIsPositive(points: seq<Point>, mx: real)
    ensures 0.0 <= Spread(points, mx)
    ensures Spread(points, mx) == 0.0 <==> forall i :: 0 <= i < |points| ==> points[i].0 == mx
  {
    if points != [] {
      var m := |points| - 1;
      SpreadIsPositive(points[..m], mx);
      SquareIsPositive(points[m].0 - mx);
      hide Times;
    }
  }

  lemma {:induction false} SquareOfDifference(a: real, b: real)
    ensures Times(a - b, a - b) == Times(a, a) - 2.0 * Times(a, b) + Times(b, b)
  {
  }

  /** The polynomial of a line through the middle, in products of two. */
  lemma {:induction false} CentredPolynomial(syy: real, sxy: real, sxx: real, n: real, c: real, slope: real)
    ensures Polynomial(syy, sxy, sxx, 0.0, 0.0, n, c, slope)
         == syy + Times(Times(slope, slope), sxx) - 2.0 * Times(slope, sxy) + Times(n, Times(c, c))
  {
  }

  lemma {:induction false} Gather(best: real, slope: real, sxx: real)
    ensures Times(slope, Times(best, sxx)) == Times(Times(slope, best), sxx)
    ensures Times(best, Times(best, sxx)) == Times(Times(best, best), sxx)
    ensures Times(sxx, Times(slope, slope) - 2.0 * Times(slope, best) + Times(best, best))
         == Times(Times(slope, slope), sxx) - 2.0 * Times(Times(slope, best), sxx) + Times(Times(best, best), sxx)
  {
    ProductOfSums(sxx, Times(slope, slope), Times(slope, best), Times(best, best));
  }

  lemma {:induction false} ProductOfSums(k: real, a: real, b: real, c: real)
    ensures Times(k, a - 2.0 * b + c) == Times(a, k) - 2.0 * Times(b, k) + Times(c, k)
  {
  }

  /** Completing the square: with both drifts zero and sxy == best * sxx. */
  lemma {:induction false} PolynomialGap(syy: real, sxy: real, sxx: real, n: real, c: real, slope: real, best: real)
    requires sxy == Times(best, sxx)
    ensures Polynomial(syy, sxy, sxx, 0.0, 0.0, n, c, slope) - Polynomial(syy, sxy, sxx, 0.0, 0.0, n, 0.0, best)
         == Times(sxx, Times(slope - best, slope - best)) + Times(n, Times(c, c))
  {
    CentredPolynomial(syy, sxy, sxx, n, c, slope);
    CentredPolynomial(syy, sxy, sxx, n, 0.0, best);
    assert Times(n, Times(0.0, 0.0)) == 0.0;
    hide Times, Polynomial;
    SquareOfDifference(slope, best);
    Gather(best, slope, sxx);
  }

  function BestSlope(points: seq<Point>): real
    requires points != [] && Spread(points, MeanX(points)) != 0.0
  {
    Covariation(points, MeanX(points), MeanY(points)) / Spread(points, MeanX(points))
  }

  lemma {:induction false} BestSlopeFits(points: seq<Point>)
    requires points != [] && Spread(points, MeanX(points)) != 0.0
    ensures Covariation(points, MeanX(points), MeanY(points)) == Times(BestSlope(points), Spread(points, MeanX(points)))
  {
    hide MeanX, MeanY, Covariation, Spread;
    Divided(Covariation(points, MeanX(points), MeanY(points)), Spread(points, MeanX(points)));
  }

  /** How much worse than the best line another line through the same points is. */
  lemma {:induction false} MisfitGap(points: seq<Point>, height: real, slope: real)
    requires points != [] && Spread(points, MeanX(points)) != 0.0
    ensures
      var mx, my, best := MeanX(points), MeanY(points), BestSlope(points);
      Misfit(points, mx, height, slope) - Misfit(points, mx, my, best)
      == Times(Spread(points, mx), Times(slope - best, slope - best))
         + Times(|points| as real, Times(height - my, height - my))
  {
    var mx, my, best := MeanX(points), MeanY(points), BestSlope(points);
    BestSlopeFits(points);
    hide MeanX, MeanY, Polynomial, Times, BestSlope, Misfit, Spread, SpreadY, Covariation;
    MisfitExpands(points, mx, my, height, slope);
    MisfitExpands(points, mx, my, my, best);
    MeansCancel(points);
    PolynomialGap(SpreadY(points, my), Covariation(points, mx, my), Spread(points, mx), |points| as real,
                  height - my, slope, best);
    assert my - my == 0.0;
  }

  /** Some two points differ in x. */
  predicate Varies(points: seq<Point>) {
    exists i, j :: 0 <= i < |points| && 0 <= j < |points| && points[i].0 != points[j].0
  }

  lemma {:induction false} VariesIsSpread(points: seq<Point>)
    requires points != []
    ensures Varies(points) <==> Spread(points, MeanX(points)) != 0.0
  {
    var mx := MeanX(points);
    SpreadIsPositive(points, mx);
    if !Varies(points) {
      assert forall i :: 0 <= i < |points| ==> points[i].0 == points[0].0;
      ConstantSum(points, points[0].0);
      Quotient(points[0].0, |points| as real);
    }
  }

  lemma {:induction false} Quotient(x: real, n: real)
    requires n != 0.0
    ensures x * n / n == x
  {
  }

  lemma {:induction false} ConstantSum(points: seq<Point>, x: real)
    requires forall i :: 0 <= i < |points| ==> points[i].0 == x
    ensures SumX(points) == x * |points| as real
  {
    if points != [] {
      ConstantSum(points[..|points| - 1], x);
      Distribute(x, (|points| - 1) as real, 1.0);
    }
  }

  /**
   With three or more points that do not share one x, the reported trend is the
   least-squares slope: no line fits better than the one with that slope through
   the means, and any line that fits as well is that line.
   */
  lemma {:induction false} TrendIsLeastSquares(points: seq<Point>, height: real, slope: real)
    requires 3 <= |points| && Varies(points)
    ensures
      var mx, my, best := MeanX(points), MeanY(points), TrendPerHour(points) / 3600.0;
      && Misfit(points, mx, my, best) <= Misfit(points, mx, height, slope)
      && (Misfit(points, mx, my, best) == Misfit(points, mx, height, slope) ==> slope == best && height == my)
  {
    var mx, my := MeanX(points), MeanY(points);
    VariesIsSpread(points);
    SpreadIsPositive(points, mx);
    MisfitGap(points, height, slope);
    var best := BestSlope(points);
    TrendIsBestSlope(points);
    NonNegative(Spread(points, mx), slope - best);
    NonNegative(|points| as real, height - my);
    hide MeanX, MeanY, Spread, Misfit, BestSlope, TrendPerHour, Times;
  }

  lemma {:induction false} TrendIsBestSlope(points: seq<Point>)
    requires 3 <= |points| && Spread(points, MeanX(points)) != 0.0
    ensures TrendPerHour(points) / 3600.0 == BestSlope(points)
  {
  }

  lemma {:induction false} NonNegative(k: real, d: real)
    requires 0.0 < k
    ensures 0.0 <= Times(k, Times(d, d))
    ensures Times(k, Times(d, d)) == 0.0 ==> d == 0.0
  {
    SquareIsPositive(d);
    if d != 0.0 {
      Product(k, Times(d, d));
    }
  }

  /** Too few points, or points that all share one x, report no trend. */
  lemma {:induction false} DegenerateTrendIsZero(points: seq<Point>)
    requires |points| < 3 || !Varies(points)
    ensures TrendPerHour(points) == 0.0
  {
    if 3 <= |points| {
      VariesIsSpread(points);
    }
  }

  function Shifted(points: seq<Point>, dx: real, dy: real): seq<Point> {
    if points == [] then []
    else
      var p := points[|points| - 1];
      Shifted(points[..|points| - 1], dx, dy) + [(p.0 + dx, p.1 + dy)]
  }

  lemma {:induction false} OneMore(d: real, m: nat)
    ensures Times(d, (m + 1) as real) == Times(d, m as real) + d
  {
  }

  lemma {:induction false} Nothing(d: real)
    ensures Times(d, 0.0) == 0.0
  {
  }

  lemma {:induction false} ShiftedSums(points: seq<Point>, dx: real, dy: real)
    ensures |Shifted(points, dx, dy)| == |points|
    ensures SumX(Shifted(points, dx, dy)) == SumX(points) + Times(dx, |points| as real)
    ensures SumY(Shifted(points, dx, dy)) == SumY(points) + Times(dy, |points| as real)
  {
    hide Times;
    if points == [] {
      Nothing(dx);
      Nothing(dy);
    } else {
      var m := |points| - 1;
      ShiftedSums(points[..m], dx, dy);
      assert Shifted(points, dx, dy)[..m] == Shifted(points[..m], dx, dy);
      OneMore(dx, m);
      OneMore(dy, m);
    }
  }

  lemma {:induction false} ShiftedSpreads(points: seq<Point>, dx: real, dy: real, mx: real, my: real)
    ensures |Shifted(points, dx, dy)| == |points|
    ensures Spread(Shifted(points, dx, dy), mx + dx) == Spread(points, mx)
    ensures Covariation(Shifted(points, dx, dy), mx + dx, my + dy) == Covariation(points, mx, my)
  {
    hide Times;
    if points != [] {
      var m := |points| - 1;
      var p := points[m];
      ShiftedSpreads(points[..m], dx, dy, mx, my);
      assert Shifted(points, dx, dy)[..m] == Shifted(points[..m], dx, dy);
      assert (p.0 + dx) - (mx + dx) == p.0 - mx && (p.1 + dy) - (my + dy) == p.1 - my;
    }
  }

  /** Moving the clock's origin or the level of the measurements changes no trend. */
  lemma {:induction false} TrendIgnoresShifts(points: seq<Point>, dx: real, dy: real)
    ensures TrendPerHour(Shifted(points, dx, dy)) == TrendPerHour(points)
  {
    ShiftedSums(points, dx, dy);
    if 3 <= |points| {
      ShiftedSpreads(points, dx, dy, MeanX(points), MeanY(points));
      ShiftedMean(SumX(points), dx, |points| as real);
      ShiftedMean(SumY(points), dy, |points| as real);
      hide Times, Spread, Covariation, SumX, SumY;
    }
  }

  lemma {:induction false} ShiftedMean(sum: real, d: real, n: real)
    requires n != 0.0
    ensures (sum + Times(d, n)) / n == sum / n + d
  {
    Quotient(sum / n + d, n);
    Divided(sum, n);
    Distribute(n, sum / n, d);
  }
}
