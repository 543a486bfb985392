/** The straight line fitted to the measured cuts: it is the one line with the least squared
    error, and its r2 is a proportion. */
module LinearFit {
  import opened Results

  datatype Point = Point(x: real, y: real)

  datatype Fit = Fit(slope: real, intercept: real, r2: real)

  type Term = Point -> real

  function Sum(points: seq<Point>, term: Term): real
    decreases |points|
  {
    if points == [] then 0.0 else Sum(points[..|points| - 1], term) + term(points[|points| - 1])
  }

  function Times(x: real, y: real): real {
    x * y
  }

  function Square(x: real): real {
    Times(x, x)
  }

  function X(): Term {
    (p: Point) => p.x
  }

  function Y(): Term {
    (p: Point) => p.y
  }

  function XX(mx: real): Term {
    (p: Point) => Square(p.x - mx)
  }

  function XY(mx: real, my: real): Term {
    (p: Point) => (p.x - mx) * (p.y - my)
  }

  function YY(my: real): Term {
    (p: Point) => Square(p.y - my)
  }

  /** What a line leaves unexplained at a point. */
  function Residual(slope: real, intercept: real): Term {
    (p: Point) => p.y - (intercept + slope * p.x)
  }

  function SquaredResidual(slope: real, intercept: real): Term {
    (p: Point) => Square(Residual(slope, intercept)(p))
  }

  /** The squared error of a line over the points. */
  function Error(points: seq<Point>, slope: real, intercept: real): real {
    Sum(points, SquaredResidual(slope, intercept))
  }

  function MeanX(points: seq<Point>): real
    requires points != []
  {
    Sum(points, X()) / |points| as real
  }

  function MeanY(points: seq<Point>): real
    requires points != []
  {
    Sum(points, Y()) / |points| as real
  }

  /** Where the line of this slope through the centre meets the axis. */
  function Level(slope: real, mx: real, my: real): real {
    my - slope * mx
  }

  /** The share of the spread that the residuals leave, subtracted from one. */
  function Explained(residual: real, total: real): real {
    if total > 0.0 then 1.0 - residual / total else 0.0
  }

  function Fitted(points: seq<Point>): Option<Fit> {
    if |points| < 2 then None
    else
      var mx, my := MeanX(points), MeanY(points);
      var denominator := Sum(points, XX(mx));
      if denominator == 0.0 then None
      else
        var slope := Sum(points, XY(mx, my)) / denominator;
        var intercept := Level(slope, mx, my);
        Some(Fit(slope, intercept, Explained(Error(points, slope, intercept), Sum(points, YY(my)))))
  }

  // ---- sums ----

  lemma Distribute(factor: real, a: real, b: real)
    ensures factor * (a + b) == factor * a + factor * b
  {
  }

  lemma {:induction false} SumLinear(points: seq<Point>, f: Term, g: Term, h: Term, k: Term, a: real, b: real)
    requires forall p :: f(p) == g(p) + a * h(p) + b * k(p)
    ensures Sum(points, f) == Sum(points, g) + a * Sum(points, h) + b * Sum(points, k)
    decreases |points|
  {
    if points != [] {
      var init, p := points[..|points| - 1], points[|points| - 1];
      SumLinear(init, f, g, h, k, a, b);
      Distribute(a, Sum(init, h), h(p));
      Distribute(b, Sum(init, k), k(p));
    }
  }

  lemma {:induction false} SumAdd(points: seq<Point>, f: Term, g: Term, h: Term)
    requires forall p :: f(p) == g(p) + h(p)
    ensures Sum(points, f) == Sum(points, g) + Sum(points, h)
    decreases |points|
  {
    if points != [] {
      SumAdd(points[..|points| - 1], f, g, h);
    }
  }

  lemma {:induction false} SumSame(points: seq<Point>, f: Term, g: Term)
    requires forall p :: f(p) == g(p)
    ensures Sum(points, f) == Sum(points, g)
    decreases |points|
  {
    if points != [] {
      SumSame(points[..|points| - 1], f, g);
    }
  }

  lemma {:induction false} SumNonNegative(points: seq<Point>, f: Term)
    requires forall p :: f(p) >= 0.0
    ensures Sum(points, f) >= 0.0
    ensures Sum(points, f) == 0.0 <==> forall i :: 0 <= i < |points| ==> f(points[i]) == 0.0
    decreases |points|
  {
    if points != [] {
      var init, p := points[..|points| - 1], points[|points| - 1];
      SumNonNegative(init, f);
      assert points == init + [p];
      assert f(p) >= 0.0;
    }
  }

  lemma {:induction false} SumConstant(points: seq<Point>, f: Term, c: real)
    requires forall i :: 0 <= i < |points| ==> f(points[i]) == c
    ensures Sum(points, f) == |points| as real * c
    decreases |points|
  {
    if points != [] {
      SumConstant(points[..|points| - 1], f, c);
      Distribute(c, (|points| - 1) as real, 1.0);
    }
  }

  lemma SquareNonNegative(t: real)
    ensures Square(t) >= 0.0
    ensures Square(t) == 0.0 <==> t == 0.0
  {
    if t != 0.0 {
      SameSign(t, t);
      assert Square(t) > 0.0;
    }
  }

  lemma SameSign(a: real, b: real)
    requires (a > 0.0 && b > 0.0) || (a < 0.0 && b < 0.0)
    ensures Times(a, b) > 0.0
  {
  }

  lemma Whole(sum: real, n: real)
    requires n != 0.0
    ensures sum / n * n == sum && n * (sum / n) == sum
  {
  }

  // ---- the normal equations ----

  /** A residual weighed by how far out it lies. */
  function Moment(slope: real, intercept: real): Term {
    (p: Point) => Residual(slope, intercept)(p) * p.x
  }

  function One(): Term {
    (p: Point) => 1.0
  }

  lemma CentredMoment(p: Point, slope: real, intercept: real, mx: real, my: real)
    requires intercept == Level(slope, mx, my)
    ensures Moment(slope, intercept)(p) == XY(mx, my)(p) + (-slope) * XX(mx)(p) + mx * Residual(slope, intercept)(p)
  {
    var r := Residual(slope, intercept)(p);
    assert r == (p.y - my) - slope * (p.x - mx);
    assert r * p.x == r * (p.x - mx) + mx * r;
    assert r * (p.x - mx) == (p.x - mx) * (p.y - my) - slope * ((p.x - mx) * (p.x - mx));
  }

  predicate Centred(points: seq<Point>, mx: real, my: real) {
    |points| as real * mx == Sum(points, X()) && |points| as real * my == Sum(points, Y())
  }

  predicate Balanced(points: seq<Point>, slope: real, mx: real, my: real) {
    slope * Sum(points, XX(mx)) == Sum(points, XY(mx, my))
  }

  lemma ResidualSum(points: seq<Point>, slope: real, intercept: real, mx: real, my: real)
    requires Centred(points, mx, my)
    requires intercept == Level(slope, mx, my)
    ensures Sum(points, Residual(slope, intercept)) == 0.0
  {
    var n := |points| as real;
    SumLinear(points, Residual(slope, intercept), Y(), One(), X(), -intercept, -slope);
    SumConstant(points, One(), 1.0);
    assert intercept * n == n * my - slope * (n * mx);
  }

  lemma MomentSum(points: seq<Point>, slope: real, intercept: real, mx: real, my: real)
    requires intercept == Level(slope, mx, my)
    requires Balanced(points, slope, mx, my)
    requires Sum(points, Residual(slope, intercept)) == 0.0
    ensures Sum(points, Moment(slope, intercept)) == 0.0
  {
    forall p
      ensures Moment(slope, intercept)(p) == XY(mx, my)(p) + (-slope) * XX(mx)(p) + mx * Residual(slope, intercept)(p)
    {
      CentredMoment(p, slope, intercept, mx, my);
    }
    SumLinear(points, Moment(slope, intercept), XY(mx, my), XX(mx), Residual(slope, intercept), -slope, mx);
  }

  lemma SlopeIs(points: seq<Point>)
    requires Fitted(points).Some?
    ensures Balanced(points, Fitted(points).value.slope, MeanX(points), MeanY(points))
  {
    Whole(Sum(points, XY(MeanX(points), MeanY(points))), Sum(points, XX(MeanX(points))));
  }

  lemma MeansAre(points: seq<Point>)
    requires points != []
    ensures Centred(points, MeanX(points), MeanY(points))
  {
    Whole(Sum(points, X()), |points| as real);
    Whole(Sum(points, Y()), |points| as real);
  }

  /** At the fit, the residuals and their moments cancel. */
  lemma NormalEquations(points: seq<Point>)
    requires Fitted(points).Some?
    ensures var fit := Fitted(points).value;
            Sum(points, Residual(fit.slope, fit.intercept)) == 0.0
            && Sum(points, Moment(fit.slope, fit.intercept)) == 0.0
  {
    var fit, mx, my := Fitted(points).value, MeanX(points), MeanY(points);
    MeansAre(points);
    ResidualSum(points, fit.slope, fit.intercept, mx, my);
    SlopeIs(points);
    MomentSum(points, fit.slope, fit.intercept, mx, my);
  }

  // ---- the fit against any other line ----

  /** The distance of two lines above a point. */
  function Gap(slope: real, intercept: real, slope': real, intercept': real): Term {
    (p: Point) => (intercept - intercept') + (slope - slope') * p.x
  }

  function SquaredGap(slope: real, intercept: real, slope': real, intercept': real): Term {
    (p: Point) => Square(Gap(slope, intercept, slope', intercept')(p))
  }

  function Mixed(slope: real, intercept: real, slope': real, intercept': real): Term {
    (p: Point) =>
      SquaredResidual(slope, intercept)(p)
      + 2.0 * (intercept - intercept') * Residual(slope, intercept)(p)
      + 2.0 * (slope - slope') * Moment(slope, intercept)(p)
  }

  lemma SquareOfSum(r: real, x: real, u: real, v: real)
    ensures Square(r + (u + v * x)) == Square(r) + 2.0 * u * r + 2.0 * v * (r * x) + Square(u + v * x)
  {
    var t := u + v * x;
    assert r * t == u * r + v * (r * x);
    assert (r + t) * (r + t) == r * r + 2.0 * (r * t) + t * t;
  }

  lemma OnePoint(p: Point, slope: real, intercept: real, slope': real, intercept': real)
    ensures SquaredResidual(slope', intercept')(p)
            == Mixed(slope, intercept, slope', intercept')(p) + SquaredGap(slope, intercept, slope', intercept')(p)
  {
    var r, u, v := Residual(slope, intercept)(p), intercept - intercept', slope - slope';
    assert Residual(slope', intercept')(p) == r + (u + v * p.x);
    SquareOfSum(r, p.x, u, v);
    assert Mixed(slope, intercept, slope', intercept')(p) == Square(r) + 2.0 * u * r + 2.0 * v * (r * p.x);
    assert Gap(slope, intercept, slope', intercept')(p) == u + v * p.x;
  }

  lemma MixedSum(points: seq<Point>, slope: real, intercept: real, slope': real, intercept': real)
    requires Sum(points, Residual(slope, intercept)) == 0.0 && Sum(points, Moment(slope, intercept)) == 0.0
    ensures Sum(points, Mixed(slope, intercept, slope', intercept')) == Error(points, slope, intercept)
  {
    SumLinear(points, Mixed(slope, intercept, slope', intercept'), SquaredResidual(slope, intercept),
      Residual(slope, intercept), Moment(slope, intercept), 2.0 * (intercept - intercept'), 2.0 * (slope - slope'));
  }

  lemma ErrorSplits(points: seq<Point>, slope: real, intercept: real, slope': real, intercept': real)
    ensures Error(points, slope', intercept')
            == Sum(points, Mixed(slope, intercept, slope', intercept'))
                + Sum(points, SquaredGap(slope, intercept, slope', intercept'))
  {
    forall p {
      OnePoint(p, slope, intercept, slope', intercept');
    }
    SumAdd(points, SquaredResidual(slope', intercept'), Mixed(slope, intercept, slope', intercept'),
      SquaredGap(slope, intercept, slope', intercept'));
  }

  /** Any other line's error exceeds the fit's by the squared distance between the two. */
  lemma Excess(points: seq<Point>, slope: real, intercept: real)
    requires Fitted(points).Some?
    ensures var fit := Fitted(points).value;
            Error(points, slope, intercept)
            == Error(points, fit.slope, fit.intercept)
                + Sum(points, SquaredGap(fit.slope, fit.intercept, slope, intercept))
  {
    var fit := Fitted(points).value;
    NormalEquations(points);
    MixedSum(points, fit.slope, fit.intercept, slope, intercept);
    ErrorSplits(points, fit.slope, fit.intercept, slope, intercept);
  }

  lemma GapsAre(points: seq<Point>, slope: real, intercept: real, slope': real, intercept': real)
    ensures var gaps := Sum(points, SquaredGap(slope, intercept, slope', intercept'));
            gaps >= 0.0 &&
            (gaps == 0.0 <==> forall i :: 0 <= i < |points| ==>
             Gap(slope, intercept, slope', intercept')(points[i]) == 0.0)
  {
    var f := SquaredGap(slope, intercept, slope', intercept');
    forall p
      ensures f(p) >= 0.0 && (f(p) == 0.0 <==> Gap(slope, intercept, slope', intercept')(p) == 0.0)
    {
      SquareNonNegative(Gap(slope, intercept, slope', intercept')(p));
    }
    SumNonNegative(points, f);
  }

  /** Two lines that agree at two cuts are one line. */
  lemma SameLine(p: Point, q: Point, slope: real, intercept: real, slope': real, intercept': real)
    requires p.x != q.x
    requires Gap(slope, intercept, slope', intercept')(p) == 0.0 && Gap(slope, intercept, slope', intercept')(q) == 0.0
    ensures slope == slope' && intercept == intercept'
  {
    var d, w := slope - slope', p.x - q.x;
    assert d * w == d * p.x - d * q.x;
    if d != 0.0 {
      NonZero(d, w);
    }
  }

  lemma NonZero(a: real, b: real)
    requires a != 0.0 && b != 0.0
    ensures a * b != 0.0
  {
  }

  /** The fitted line has the least squared error of all lines, and is the only one that has. */
  lemma LeastSquares(points: seq<Point>, slope: real, intercept: real)
    requires Fitted(points).Some?
    ensures var fit := Fitted(points).value;
            Error(points, fit.slope, fit.intercept) <= Error(points, slope, intercept)
    ensures var fit := Fitted(points).value;
            Error(points, fit.slope, fit.intercept) == Error(points, slope, intercept)
            <==> slope == fit.slope && intercept == fit.intercept
  {
    var fit := Fitted(points).value;
    Excess(points, slope, intercept);
    GapsAre(points, fit.slope, fit.intercept, slope, intercept);
    NoFitIff(points);
    var i, j :| 0 <= i < |points| && 0 <= j < |points| && points[i].x != points[j].x;
    if Error(points, fit.slope, fit.intercept) == Error(points, slope, intercept) {
      SameLine(points[i], points[j], fit.slope, fit.intercept, slope, intercept);
    }
  }

  /** The level line's error is the spread of the measurements. */
  lemma LevelError(points: seq<Point>, my: real)
    ensures Error(points, 0.0, my) == Sum(points, YY(my))
  {
    forall p: Point
      ensures SquaredResidual(0.0, my)(p) == YY(my)(p)
    {
      assert Residual(0.0, my)(p) == p.y - my;
    }
    SumSame(points, SquaredResidual(0.0, my), YY(my));
  }

  predicate OnLine(p: Point, slope: real, intercept: real) {
    p.y == intercept + slope * p.x
  }

  lemma NoError(points: seq<Point>, slope: real, intercept: real)
    ensures Error(points, slope, intercept) >= 0.0
    ensures Error(points, slope, intercept) == 0.0 <==>
            forall i :: 0 <= i < |points| ==> OnLine(points[i], slope, intercept)
  {
    var f := SquaredResidual(slope, intercept);
    forall p: Point
      ensures f(p) >= 0.0 && (f(p) == 0.0 <==> OnLine(p, slope, intercept))
    {
      SquareNonNegative(Residual(slope, intercept)(p));
    }
    SumNonNegative(points, f);
  }

  /** r2 is a proportion, and it is one exactly when all the points, not all level, lie on the line. */
  lemma R2IsProportion(points: seq<Point>)
    requires Fitted(points).Some?
    ensures 0.0 <= Fitted(points).value.r2 <= 1.0
    ensures var fit := Fitted(points).value;
            fit.r2 == 1.0 <==> Sum(points, YY(MeanY(points))) > 0.0 &&
                               forall i :: 0 <= i < |points| ==> OnLine(points[i], fit.slope, fit.intercept)
  {
    var fit, total := Fitted(points).value, Sum(points, YY(MeanY(points)));
    LeastSquares(points, 0.0, MeanY(points));
    LevelError(points, MeanY(points));
    NoError(points, fit.slope, fit.intercept);
    Share(Error(points, fit.slope, fit.intercept), total);
  }

  lemma Share(part: real, whole: real)
    requires 0.0 <= part <= whole
    ensures 0.0 <= Explained(part, whole) <= 1.0
    ensures Explained(part, whole) == 1.0 <==> whole > 0.0 && part == 0.0
  {
    if whole > 0.0 {
      Whole(part, whole);
    }
  }

  // ---- when there is no line to fit ----

  lemma NoSpread(points: seq<Point>, mx: real)
    ensures Sum(points, XX(mx)) == 0.0 <==> forall i :: 0 <= i < |points| ==> points[i].x == mx
  {
    var f := XX(mx);
    forall p: Point
      ensures f(p) >= 0.0 && (f(p) == 0.0 <==> p.x == mx)
    {
      SquareNonNegative(p.x - mx);
    }
    SumNonNegative(points, f);
  }

  /** There is no fit exactly for fewer than two points, or points all at one cut. */
  lemma NoFitIff(points: seq<Point>)
    ensures Fitted(points).None? <==>
            |points| < 2 || forall i, j :: 0 <= i < |points| && 0 <= j < |points| ==> points[i].x == points[j].x
  {
    if |points| >= 2 {
      NoSpread(points, MeanX(points));
      if forall i, j :: 0 <= i < |points| && 0 <= j < |points| ==> points[i].x == points[j].x {
        SumConstant(points, X(), points[0].x);
        assert MeanX(points) == points[0].x;
      }
    }
  }
}
