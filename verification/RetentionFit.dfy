/**
 The ordinary least-squares fit behind the memory-retention report
 (`scripts/perf/measure_retention.py`), over the reals.
 */
module RetentionFit {
  import opened Wrappers

  datatype Point = Point(x: real, y: real)

  datatype Fit = Fit(slope: real, intercept: real, rSquared: real)

  // ----- Sums over the points -----

  function Sum(ps: seq<Point>, f: Point -> real): real {
    if ps == [] then 0.0 else f(ps[0]) + Sum(ps[1..], f)
  }

  function Square(r: real): real { r * r }

  // The summands of the source's generator expressions.
  function X(): Point -> real { (p: Point) => p.x }
  function Y(): Point -> real { (p: Point) => p.y }
  function DevX(m: real): Point -> real { (p: Point) => Square(p.x - m) }
  function DevY(m: real): Point -> real { (p: Point) => Square(p.y - m) }
  function DevXY(mx: real, my: real): Point -> real { (p: Point) => (p.x - mx) * (p.y - my) }
  function One(): Point -> real { (_: Point) => 1.0 }
  function CentredX(m: real): Point -> real { (p: Point) => p.x - m }
  function CentredY(m: real): Point -> real { (p: Point) => p.y - m }
  function Residual(a: real, b: real): Point -> real { (p: Point) => Square(p.y - (a * p.x + b)) }

  function Points(xs: seq<real>, ys: seq<real>): (ps: seq<Point>)
    requires |xs| == |ys|
  {
    seq(|xs|, i requires 0 <= i < |xs| => Point(xs[i], ys[i]))
  }

  function Mean(ps: seq<Point>, f: Point -> real): real
    requires ps != []
  {
    Sum(ps, f) / |ps| as real
  }

  function Sxx(ps: seq<Point>): real
    requires ps != []
  {
    Sum(ps, DevX(Mean(ps, X())))
  }

  function Sxy(ps: seq<Point>): real
    requires ps != []
  {
    Sum(ps, DevXY(Mean(ps, X()), Mean(ps, Y())))
  }

  /** The source's `ss_tot`. */
  function Syy(ps: seq<Point>): real
    requires ps != []
  {
    Sum(ps, DevY(Mean(ps, Y())))
  }

  /** The sum of squared residuals of the line `y = a * x + b`. */
  function Loss(ps: seq<Point>, a: real, b: real): real {
    Sum(ps, Residual(a, b))
  }

  // ----- The fit and the projection made from it -----

  function Slope(ps: seq<Point>): real
    requires ps != [] && Sxx(ps) != 0.0
  {
    Sxy(ps) / Sxx(ps)
  }

  function Intercept(ps: seq<Point>): real
    requires ps != [] && Sxx(ps) != 0.0
  {
    Mean(ps, Y()) - Slope(ps) * Mean(ps, X())
  }

  function FitPoints(ps: seq<Point>): Option<Fit>
    requires ps != []
  {
    if Sxx(ps) == 0.0 then None
    else
      var slope, intercept, ssTot := Slope(ps), Intercept(ps), Syy(ps);
      Some(Fit(slope, intercept, if ssTot == 0.0 then 0.0 else 1.0 - Loss(ps, slope, intercept) / ssTot))
  }

  function LeastSquares(xs: seq<real>, ys: seq<real>): Option<Fit> {
    if |xs| < 2 || |xs| != |ys| then None else FitPoints(Points(xs, ys))
  }

  function Predict(fit: Fit, x: real): real { fit.intercept + fit.slope * x }

  /** One line of the report's projection: nothing when there is no fit or its R^2 is below 0.9. */
  function Project(fit: Option<Fit>, x: real): Option<real> {
    if fit.None? || fit.value.rSquared < 0.9 then None else Some(Predict(fit.value, x))
  }

  ghost predicate HasDistinct(s: seq<real>) {
    exists i, j :: 0 <= i < j < |s| && s[i] != s[j]
  }

  ghost predicate Hits(p: Point, a: real, b: real) {
    p.y == a * p.x + b
  }

  ghost predicate OnLine(xs: seq<real>, ys: seq<real>, a: real, b: real)
    requires |xs| == |ys|
  {
    forall i :: 0 <= i < |xs| ==> Hits(Point(xs[i], ys[i]), a, b)
  }

  // ----- Facts about sums -----

  lemma {:induction false} SumNonNegative(ps: seq<Point>, f: Point -> real)
    requires forall p :: p in ps ==> f(p) >= 0.0
    ensures Sum(ps, f) >= 0.0
    ensures Sum(ps, f) == 0.0 <==> forall p :: p in ps ==> f(p) == 0.0
  {
    if ps != [] {
      SumNonNegative(ps[1..], f);
      assert forall p :: p in ps <==> p == ps[0] || p in ps[1..];
    }
  }

  function Without(ps: seq<Point>, j: nat): seq<Point>
    requires j < |ps|
  {
    ps[..j] + ps[j + 1..]
  }

  lemma WithoutRemovesOne(ps: seq<Point>, j: nat)
    requires j < |ps|
    ensures |Without(ps, j)| == |ps| - 1 && multiset(Without(ps, j)) == multiset(ps) - multiset{ps[j]}
  {
    assert ps == ps[..j] + [ps[j]] + ps[j + 1..];
  }

  lemma {:induction false} SumWithout(ps: seq<Point>, j: nat, f: Point -> real)
    requires j < |ps|
    ensures Sum(ps, f) == f(ps[j]) + Sum(Without(ps, j), f)
  {
    if j == 0 {
      assert Without(ps, 0) == ps[1..];
    } else {
      SumWithout(ps[1..], j - 1, f);
      assert Without(ps, j)[1..] == Without(ps[1..], j - 1);
    }
  }

  lemma {:induction false} SumPermuted(ps: seq<Point>, qs: seq<Point>, f: Point -> real)
    requires multiset(ps) == multiset(qs)
    ensures Sum(ps, f) == Sum(qs, f)
    decreases |ps|
  {
    if ps == [] {
      assert |multiset(qs)| == 0;
    } else {
      assert ps[0] in multiset(qs);
      var j :| 0 <= j < |qs| && qs[j] == ps[0];
      hide Without;
      WithoutRemovesOne(ps, 0);
      WithoutRemovesOne(qs, j);
      SumPermuted(Without(ps, 0), Without(qs, j), f);
      hide Sum;
      SumWithout(ps, 0, f);
      SumWithout(qs, j, f);
    }
  }

  lemma {:induction false} SumEqual(ps: seq<Point>, f: Point -> real, g: Point -> real)
    requires forall p :: f(p) == g(p)
    ensures Sum(ps, f) == Sum(ps, g)
  {
    if ps != [] {
      SumEqual(ps[1..], f, g);
    }
  }

  function Plus(g: Point -> real, c: real, h: Point -> real): Point -> real {
    (p: Point) => g(p) + c * h(p)
  }

  lemma {:induction false} SumPlus(ps: seq<Point>, g: Point -> real, c: real, h: Point -> real)
    ensures Sum(ps, Plus(g, c, h)) == Sum(ps, g) + c * Sum(ps, h)
  {
    if ps != [] {
      SumPlus(ps[1..], g, c, h);
      assert c * (h(ps[0]) + Sum(ps[1..], h)) == c * h(ps[0]) + c * Sum(ps[1..], h);
    }
  }

  /** A mean centres its points: the deviations from it, and so their sum, cancel. */
  lemma {:induction false} SumCentred(ps: seq<Point>, mx: real, my: real)
    ensures Sum(ps, CentredX(mx)) == Sum(ps, X()) - |ps| as real * mx
    ensures Sum(ps, CentredY(my)) == Sum(ps, Y()) - |ps| as real * my
    ensures Sum(ps, One()) == |ps| as real
  {
    if ps != [] {
      SumCentred(ps[1..], mx, my);
      assert |ps| as real == 1.0 + |ps[1..]| as real;
      assert |ps| as real * mx == mx + |ps[1..]| as real * mx;
      assert |ps| as real * my == my + |ps[1..]| as real * my;
    }
  }

  /** The coefficients of `u * v`, `u * u`, `v`, `u` and one in a quadratic of two offsets. */
  datatype Coefficients = Coefficients(uv: real, uu: real, v: real, u: real, one: real)

  /** A quadratic in the offsets from the centre `(mx, my)`; every squared residual is one. */
  function Quadratic(mx: real, my: real, c: Coefficients): Point -> real {
    Plus(Plus(Plus(Plus(Plus(DevY(my), c.uv, DevXY(mx, my)), c.uu, DevX(mx)), c.v, CentredY(my)), c.u, CentredX(mx)),
         c.one, One())
  }

  ghost predicate ExpandsResidual(c: Coefficients, a: real, k: real) {
    && c.uv == -2.0 * a && c.uu == Square(a) && c.v == 2.0 * k
    && c.u == -2.0 * a * k && c.one == Square(k)
  }

  lemma QuadraticAt(p: Point, mx: real, my: real, c: Coefficients)
    ensures var u, v := p.x - mx, p.y - my;
            Quadratic(mx, my, c)(p) == Square(v) + c.uv * (u * v) + c.uu * Square(u) + c.v * v + c.u * u + c.one
  {
  }

  lemma SumQuadratic(ps: seq<Point>, mx: real, my: real, c: Coefficients)
    ensures Sum(ps, Quadratic(mx, my, c))
         == Sum(ps, DevY(my)) + c.uv * Sum(ps, DevXY(mx, my)) + c.uu * Sum(ps, DevX(mx))
            + c.v * Sum(ps, CentredY(my)) + c.u * Sum(ps, CentredX(mx)) + c.one * Sum(ps, One())
  {
    var f1 := Plus(DevY(my), c.uv, DevXY(mx, my));
    var f2 := Plus(f1, c.uu, DevX(mx));
    var f3 := Plus(f2, c.v, CentredY(my));
    var f4 := Plus(f3, c.u, CentredX(mx));
    SumPlus(ps, DevY(my), c.uv, DevXY(mx, my));
    SumPlus(ps, f1, c.uu, DevX(mx));
    SumPlus(ps, f2, c.v, CentredY(my));
    SumPlus(ps, f3, c.u, CentredX(mx));
    SumPlus(ps, f4, c.one, One());
  }

  lemma SquareOfSum(s: real, t: real)
    ensures Square(s + t) == Square(s) + 2.0 * (s * t) + Square(t)
    ensures Square(s - t) == Square(s) - 2.0 * (s * t) + Square(t)
    ensures Square(s * t) == Square(s) * Square(t)
  {
    assert (s * t) * (s * t) == (s * s) * (t * t);
  }

  lemma SquareCongruence(s: real, t: real)
    requires s == t
    ensures Square(s) == Square(t)
  {
  }

  lemma TrinomialSquare(u: real, v: real, a: real, k: real)
    ensures Square(v - a * u + k)
         == Square(v) + -2.0 * a * (u * v) + Square(a) * Square(u) + 2.0 * k * v + -2.0 * a * k * u + Square(k)
  {
    var t := a * u;
    SquareOfSum(v - t, k);
    SquareOfSum(v, t);
    SquareOfSum(a, u);
    assert v * t == a * (u * v);
    assert (v - t) * k == k * v - a * k * u;
  }

  lemma ResidualDefinition(p: Point, a: real, b: real)
    ensures Residual(a, b)(p) == Square(p.y - (a * p.x + b))
  {
  }

  lemma ResidualAt(p: Point, a: real, b: real, mx: real, my: real)
    ensures var u, v, k := p.x - mx, p.y - my, my - a * mx - b;
            Residual(a, b)(p) == Square(v - a * u + k)
  {
    var u, v, k := p.x - mx, p.y - my, my - a * mx - b;
    ResidualDefinition(p, a, b);
    assert p.y - (a * p.x + b) == v - a * u + k by {
      assert a * p.x == a * u + a * mx;
    }
    SquareCongruence(p.y - (a * p.x + b), v - a * u + k);
  }

  lemma ResidualIsQuadratic(p: Point, a: real, b: real, mx: real, my: real, c: Coefficients)
    requires ExpandsResidual(c, a, my - a * mx - b)
    ensures Residual(a, b)(p) == Quadratic(mx, my, c)(p)
  {
    ResidualAt(p, a, b, mx, my);
    TrinomialSquare(p.x - mx, p.y - my, a, my - a * mx - b);
    QuadraticAt(p, mx, my, c);
  }

  lemma MeansCentre(ps: seq<Point>)
    requires ps != []
    ensures Sum(ps, CentredX(Mean(ps, X()))) == 0.0
    ensures Sum(ps, CentredY(Mean(ps, Y()))) == 0.0
    ensures Sum(ps, One()) == |ps| as real
  {
    SumCentred(ps, Mean(ps, X()), Mean(ps, Y()));
  }

  lemma SumCentredQuadratic(ps: seq<Point>, c: Coefficients)
    requires ps != []
    ensures Sum(ps, Quadratic(Mean(ps, X()), Mean(ps, Y()), c))
         == Syy(ps) + c.uv * Sxy(ps) + c.uu * Sxx(ps) + c.one * |ps| as real
  {
    hide Sum, Mean, Square, Quadratic;
    SumQuadratic(ps, Mean(ps, X()), Mean(ps, Y()), c);
    MeansCentre(ps);
  }

  lemma LossExpands(ps: seq<Point>, a: real, b: real, c: Coefficients)
    requires ps != [] && ExpandsResidual(c, a, Mean(ps, Y()) - a * Mean(ps, X()) - b)
    ensures Loss(ps, a, b) == Syy(ps) + c.uv * Sxy(ps) + c.uu * Sxx(ps) + c.one * |ps| as real
  {
    var q := Quadratic(Mean(ps, X()), Mean(ps, Y()), c);
    forall p ensures Residual(a, b)(p) == q(p) {
      ResidualIsQuadratic(p, a, b, Mean(ps, X()), Mean(ps, Y()), c);
    }
    SumEqual(ps, Residual(a, b), q);
    SumCentredQuadratic(ps, c);
  }

  /**
   The completed square behind every result below: the loss of any line is the
   unexplained variation plus two squares that vanish together only at the fitted line.
   */
  lemma CompletedSquare(ps: seq<Point>, a: real, b: real, s: real, k: real)
    requires ps != [] && Sxx(ps) != 0.0
    requires s == Sxy(ps) / Sxx(ps) && k == Mean(ps, Y()) - a * Mean(ps, X()) - b
    ensures Loss(ps, a, b) == Syy(ps) - Square(s) * Sxx(ps) + Square(a - s) * Sxx(ps) + Square(k) * |ps| as real
  {
    hide Sum, Sxy, Sxx, Syy, Mean, Loss;
    LossExpands(ps, a, b, Coefficients(-2.0 * a, Square(a), 2.0 * k, -2.0 * a * k, Square(k)));
    SquareCompletion(a, s, Sxx(ps), Sxy(ps));
  }

  lemma SquareCompletion(a: real, s: real, sxx: real, sxy: real)
    requires sxx != 0.0 && s == sxy / sxx
    ensures -2.0 * a * sxy + Square(a) * sxx == Square(a - s) * sxx - Square(s) * sxx
  {
    assert sxy == s * sxx;
    SquareOfSum(a, s);
    assert 2.0 * (a * s) * sxx == 2.0 * a * sxy;
  }

  // ----- When there is a fit -----

  lemma ProductNonZero(r: real, w: real)
    requires r != 0.0 && w != 0.0
    ensures r * w != 0.0
  {
    assert (r * w) / w == r;
  }

  lemma ProductSign(r: real, w: real)
    requires r >= 0.0 && w > 0.0
    ensures r * w >= 0.0 && (r * w == 0.0 <==> r == 0.0)
  {
  }

  lemma SquareSign(r: real)
    ensures Square(r) >= 0.0 && (Square(r) == 0.0 <==> r == 0.0)
  {
    assert Square(r) == r * r;
    if r > 0.0 {
      ProductSign(r, r);
    } else if r < 0.0 {
      ProductSign(-r, -r);
      assert -r * -r == r * r;
    }
  }

  lemma RatioSign(part: real, whole: real)
    requires 0.0 <= part <= whole && whole > 0.0
    ensures 0.0 <= part / whole <= 1.0 && (part / whole == 0.0 <==> part == 0.0)
  {
    var q := part / whole;
    assert q * whole == part;
    if q < 0.0 {
      ProductSign(-q, whole);
    } else {
      assert (q - 1.0) * whole == part - whole;
      if q > 1.0 {
        ProductSign(q - 1.0, whole);
      }
    }
  }

  lemma {:induction false} SumOfConstant(ps: seq<Point>, f: Point -> real, c: real)
    requires forall p :: p in ps ==> f(p) == c
    ensures Sum(ps, f) == |ps| as real * c
  {
    if ps != [] {
      SumOfConstant(ps[1..], f, c);
      assert |ps| as real == 1.0 + |ps[1..]| as real;
    }
  }

  /** A sum of squared deviations from the mean vanishes exactly on constant data. */
  lemma DeviationsVanish(ps: seq<Point>, f: Point -> real, dev: Point -> real)
    requires ps != [] && forall p :: dev(p) >= 0.0 && (dev(p) == 0.0 <==> f(p) == Mean(ps, f))
    ensures Sum(ps, dev) >= 0.0
    ensures Sum(ps, dev) == 0.0 <==> forall p :: p in ps ==> f(p) == f(ps[0])
  {
    SumNonNegative(ps, dev);
    if forall p :: p in ps ==> f(p) == f(ps[0]) {
      SumOfConstant(ps, f, f(ps[0]));
      assert Mean(ps, f) == f(ps[0]);
    }
    if Sum(ps, dev) == 0.0 {
      forall p | p in ps ensures f(p) == f(ps[0]) {
        assert dev(p) == 0.0 && dev(ps[0]) == 0.0;
      }
    }
  }

  lemma SxxVanishes(xs: seq<real>, ys: seq<real>)
    requires |xs| == |ys| > 0
    ensures Sxx(Points(xs, ys)) >= 0.0
    ensures Sxx(Points(xs, ys)) == 0.0 <==> !HasDistinct(xs)
  {
    var ps := Points(xs, ys);
    forall p: Point { SquareSign(p.x - Mean(ps, X())); }
    DeviationsVanish(ps, X(), DevX(Mean(ps, X())));
    assert forall i :: 0 <= i < |xs| ==> ps[i] in ps && X()(ps[i]) == xs[i];
  }

  lemma SyyVanishes(xs: seq<real>, ys: seq<real>)
    requires |xs| == |ys| > 0
    ensures Syy(Points(xs, ys)) >= 0.0
    ensures Syy(Points(xs, ys)) == 0.0 <==> !HasDistinct(ys)
  {
    var ps := Points(xs, ys);
    forall p: Point { SquareSign(p.y - Mean(ps, Y())); }
    DeviationsVanish(ps, Y(), DevY(Mean(ps, Y())));
    assert forall i :: 0 <= i < |ys| ==> ps[i] in ps && Y()(ps[i]) == ys[i];
  }

  /** There is a fit exactly when the lists pair up and hold two distinct abscissae. */
  lemma FitDefined(xs: seq<real>, ys: seq<real>)
    ensures LeastSquares(xs, ys).Some? <==> |xs| == |ys| && HasDistinct(xs)
  {
    if |xs| == |ys| > 0 {
      SxxVanishes(xs, ys);
    }
  }

  // ----- What the fit is -----

  lemma FittedLoss(ps: seq<Point>, s: real, b: real)
    requires ps != [] && Sxx(ps) != 0.0 && s == Sxy(ps) / Sxx(ps) && b == Mean(ps, Y()) - s * Mean(ps, X())
    ensures Syy(ps) == Loss(ps, s, b) + Square(s) * Sxx(ps)
  {
    hide Sum, Sxy, Sxx, Syy, Mean, Loss;
    CompletedSquare(ps, s, b, s, 0.0);
    assert Square(s - s) == 0.0 && Square(0.0) == 0.0;
  }

  lemma BestLine(ps: seq<Point>, s: real, b: real, a': real, b': real)
    requires ps != [] && Sxx(ps) > 0.0 && s == Sxy(ps) / Sxx(ps) && b == Mean(ps, Y()) - s * Mean(ps, X())
    ensures Loss(ps, s, b) <= Loss(ps, a', b')
    ensures Loss(ps, s, b) == Loss(ps, a', b') <==> a' == s && b' == b
  {
    hide Sum, Square, Sxy, Sxx, Syy, Mean, Loss;
    var k := Mean(ps, Y()) - a' * Mean(ps, X()) - b';
    CompletedSquare(ps, a', b', s, k);
    FittedLoss(ps, s, b);
    SquareSign(a' - s);
    SquareSign(k);
    ProductSign(Square(a' - s), Sxx(ps));
    ProductSign(Square(k), |ps| as real);
  }

  /** The fitted line minimises the squared residuals over every line, and is the only minimiser. */
  lemma FitIsOptimal(xs: seq<real>, ys: seq<real>, a: real, b: real)
    requires |xs| == |ys| && HasDistinct(xs)
    ensures LeastSquares(xs, ys).Some?
    ensures var ps, fit := Points(xs, ys), LeastSquares(xs, ys).value;
            && Loss(ps, fit.slope, fit.intercept) <= Loss(ps, a, b)
            && (Loss(ps, fit.slope, fit.intercept) == Loss(ps, a, b) <==> a == fit.slope && b == fit.intercept)
  {
    hide Sum, Square, Sxy, Sxx, Syy, Mean, Loss;
    FitDefined(xs, ys);
    SxxVanishes(xs, ys);
    var fit := LeastSquares(xs, ys).value;
    BestLine(Points(xs, ys), fit.slope, fit.intercept, a, b);
  }

  lemma FitFields(xs: seq<real>, ys: seq<real>)
    requires |xs| == |ys| && HasDistinct(xs)
    ensures LeastSquares(xs, ys).Some?
    ensures var ps, fit := Points(xs, ys), LeastSquares(xs, ys).value;
            && Sxx(ps) != 0.0 && fit.slope == Sxy(ps) / Sxx(ps)
            && fit.intercept == Mean(ps, Y()) - fit.slope * Mean(ps, X())
  {
    hide Sum, Square, Sxy, Sxx, Syy, Mean, Loss;
    FitDefined(xs, ys);
  }

  /** The total variation splits into what the line leaves and what its slope explains. */
  lemma VariationSplits(xs: seq<real>, ys: seq<real>)
    requires |xs| == |ys| && HasDistinct(xs)
    ensures LeastSquares(xs, ys).Some?
    ensures var ps, fit := Points(xs, ys), LeastSquares(xs, ys).value;
            Syy(ps) == Loss(ps, fit.slope, fit.intercept) + Square(fit.slope) * Sxx(ps)
  {
    hide Sum, Square, Sxy, Sxx, Syy, Mean, Loss;
    FitFields(xs, ys);
    hide LeastSquares;
    var fit := LeastSquares(xs, ys).value;
    var ps, s, b := Points(xs, ys), fit.slope, fit.intercept;
    FittedLoss(ps, s, b);
  }

  lemma ResidualSign(p: Point, a: real, b: real)
    ensures Residual(a, b)(p) >= 0.0 && (Residual(a, b)(p) == 0.0 <==> Hits(p, a, b))
  {
    ResidualDefinition(p, a, b);
    SquareSign(p.y - (a * p.x + b));
  }

  lemma LossVanishes(xs: seq<real>, ys: seq<real>, a: real, b: real)
    requires |xs| == |ys|
    ensures Loss(Points(xs, ys), a, b) >= 0.0
    ensures Loss(Points(xs, ys), a, b) == 0.0 <==> OnLine(xs, ys, a, b)
  {
    hide Sum, Square, Residual, Hits;
    var ps := Points(xs, ys);
    forall p { ResidualSign(p, a, b); }
    SumNonNegative(ps, Residual(a, b));
    assert forall i :: 0 <= i < |xs| ==> ps[i] in ps && ps[i] == Point(xs[i], ys[i]);
  }

  /** R^2 is a proportion, and it is one exactly for varying ordinates that all lie on one line. */
  lemma RSquaredMeaning(xs: seq<real>, ys: seq<real>)
    requires |xs| == |ys| && HasDistinct(xs)
    ensures LeastSquares(xs, ys).Some?
    ensures var fit := LeastSquares(xs, ys).value;
            && 0.0 <= fit.rSquared <= 1.0
            && (fit.rSquared == 1.0 <==> HasDistinct(ys) && exists a, b :: OnLine(xs, ys, a, b))
            && (!HasDistinct(ys) ==> fit == Fit(0.0, ys[0], 0.0))
  {
    hide Sum, Square, Sxy, Sxx, Syy, Mean, Loss;
    FitDefined(xs, ys);
    var fit := LeastSquares(xs, ys).value;
    var ps := Points(xs, ys);
    var loss, syy := Loss(ps, fit.slope, fit.intercept), Syy(ps);
    SxxVanishes(xs, ys);
    SyyVanishes(xs, ys);
    VariationSplits(xs, ys);
    SquareSign(fit.slope);
    ProductSign(Square(fit.slope), Sxx(ps));
    LossVanishes(xs, ys, fit.slope, fit.intercept);
    if syy != 0.0 {
      RatioSign(loss, syy);
      forall a, b | OnLine(xs, ys, a, b) ensures loss == 0.0 {
        LossVanishes(xs, ys, a, b);
        FitIsOptimal(xs, ys, a, b);
      }
    } else {
      assert fit.slope == 0.0;
      SumOfConstant(ps, Y(), ys[0]);
    }
  }

  lemma RatioOf(part: real, whole: real, r: real)
    requires whole != 0.0 && r == 1.0 - part / whole
    ensures r * whole == whole - part
  {
    assert (part / whole) * whole == part;
    assert (1.0 - part / whole) * whole == whole - (part / whole) * whole;
  }

  lemma ScaledSquare(s: real, sxx: real, sxy: real)
    requires s * sxx == sxy
    ensures Square(s) * sxx * sxx == Square(sxy)
  {
    assert Square(s) * sxx * sxx == (s * sxx) * (s * sxx);
  }

  /** For varying ordinates, R^2 is the share of their variation that the slope explains: the squared correlation. */
  lemma RSquaredExact(xs: seq<real>, ys: seq<real>)
    requires |xs| == |ys| && HasDistinct(xs) && HasDistinct(ys)
    ensures LeastSquares(xs, ys).Some?
    ensures var ps, fit := Points(xs, ys), LeastSquares(xs, ys).value;
            && Syy(ps) > 0.0 && fit.rSquared * Syy(ps) == Syy(ps) - Loss(ps, fit.slope, fit.intercept)
            && fit.rSquared * Syy(ps) == Square(fit.slope) * Sxx(ps)
            && fit.rSquared * Syy(ps) * Sxx(ps) == Square(Sxy(ps))
  {
    hide Sum, Square, Sxy, Sxx, Syy, Mean, Loss;
    FitFields(xs, ys);
    SyyVanishes(xs, ys);
    VariationSplits(xs, ys);
    var ps, fit := Points(xs, ys), LeastSquares(xs, ys).value;
    RatioOf(Loss(ps, fit.slope, fit.intercept), Syy(ps), fit.rSquared);
    hide LeastSquares;
    assert fit.slope * Sxx(ps) == Sxy(ps);
    ScaledSquare(fit.slope, Sxx(ps), Sxy(ps));
  }

  /** The fitted slopes of either list over the other multiply to R^2, which is the same both ways round. */
  lemma SlopesMultiply(xs: seq<real>, ys: seq<real>)
    requires |xs| == |ys| && HasDistinct(xs) && HasDistinct(ys)
    ensures LeastSquares(xs, ys).Some? && LeastSquares(ys, xs).Some?
    ensures var (fit, back) := (LeastSquares(xs, ys).value, LeastSquares(ys, xs).value);
            fit.rSquared == back.rSquared == fit.slope * back.slope
  {
    hide Square, Sxy, Sxx, Syy, Mean, Loss;
    SwappedMoments(xs, ys);
    FitFields(xs, ys);
    FitFields(ys, xs);
    RSquaredExact(xs, ys);
    RSquaredExact(ys, xs);
    var (fit, back) := (LeastSquares(xs, ys).value, LeastSquares(ys, xs).value);
    var ps := Points(xs, ys);
    hide LeastSquares;
    SameProduct(fit.rSquared, back.rSquared, fit.slope, back.slope, Sxx(ps), Syy(ps), Sxy(ps));
  }

  lemma SameProduct(r: real, r': real, s: real, s': real, sxx: real, syy: real, sxy: real)
    requires sxx != 0.0 && syy != 0.0 && s == sxy / sxx && s' == sxy / syy
    requires r * syy * sxx == Square(sxy) && r' * sxx * syy == Square(sxy)
    ensures r == r' == s * s'
  {
    var w := syy * sxx;
    assert w != 0.0 by { ProductNonZero(syy, sxx); }
    assert r * w == r * syy * sxx && r' * w == r' * sxx * syy;
    assert (s * s') * w == (s * sxx) * (s' * syy) == Square(sxy);
    SameFactor(r, r', w);
    SameFactor(r, s * s', w);
  }

  lemma SameFactor(r: real, t: real, w: real)
    requires w != 0.0 && r * w == t * w
    ensures r == t
  {
    assert (r * w) / w == r && (t * w) / w == t;
  }

  function Swapped(ps: seq<Point>): (qs: seq<Point>) {
    seq(|ps|, i requires 0 <= i < |ps| => Point(ps[i].y, ps[i].x))
  }

  lemma {:induction false} SumSwapped(ps: seq<Point>, f: Point -> real, g: Point -> real)
    requires forall p: Point :: g(p) == f(Point(p.y, p.x))
    ensures Sum(Swapped(ps), f) == Sum(ps, g)
  {
    if ps != [] {
      SumSwapped(ps[1..], f, g);
      assert Swapped(ps)[1..] == Swapped(ps[1..]);
    }
  }

  lemma SwappedSums(ps: seq<Point>, mx: real, my: real)
    ensures Sum(Swapped(ps), X()) == Sum(ps, Y()) && Sum(Swapped(ps), Y()) == Sum(ps, X())
    ensures Sum(Swapped(ps), DevX(my)) == Sum(ps, DevY(my)) && Sum(Swapped(ps), DevY(mx)) == Sum(ps, DevX(mx))
    ensures Sum(Swapped(ps), DevXY(my, mx)) == Sum(ps, DevXY(mx, my))
  {
    hide Sum, Square, Swapped;
    SumSwapped(ps, X(), Y());
    SumSwapped(ps, Y(), X());
    SumSwapped(ps, DevX(my), DevY(my));
    SumSwapped(ps, DevY(mx), DevX(mx));
    forall p: Point ensures DevXY(mx, my)(p) == DevXY(my, mx)(Point(p.y, p.x)) {
      assert (p.x - mx) * (p.y - my) == (p.y - my) * (p.x - mx);
    }
    SumSwapped(ps, DevXY(my, mx), DevXY(mx, my));
  }

  lemma SwappedMoments(xs: seq<real>, ys: seq<real>)
    requires |xs| == |ys| > 0
    ensures var (ps, qs) := (Points(xs, ys), Points(ys, xs));
            Sxx(qs) == Syy(ps) && Syy(qs) == Sxx(ps) && Sxy(qs) == Sxy(ps)
  {
    var (ps, qs) := (Points(xs, ys), Points(ys, xs));
    assert qs == Swapped(ps);
    SwappedSums(ps, Mean(ps, X()), Mean(ps, Y()));
    hide Sum, Swapped, Points, X, Y, DevX, DevY, DevXY;
    assert Mean(qs, X()) == Mean(ps, Y()) && Mean(qs, Y()) == Mean(ps, X());
  }

  /** Points on a line give that line back. */
  lemma FitRecoversLine(xs: seq<real>, ys: seq<real>, a: real, b: real)
    requires |xs| == |ys| && HasDistinct(xs) && OnLine(xs, ys, a, b)
    ensures LeastSquares(xs, ys) == Some(Fit(a, b, if a == 0.0 then 0.0 else 1.0))
  {
    hide Sum, Square, Sxy, Sxx, Syy, Mean, Loss, LeastSquares, Hits;
    FitDefined(xs, ys);
    var fit := LeastSquares(xs, ys).value;
    LossVanishes(xs, ys, a, b);
    LossVanishes(xs, ys, fit.slope, fit.intercept);
    FitIsOptimal(xs, ys, a, b);
    RSquaredMeaning(xs, ys);
    var i, j :| 0 <= i < j < |xs| && xs[i] != xs[j];
    LineRises(Point(xs[i], ys[i]), Point(xs[j], ys[j]), a, b);
    if a == 0.0 {
      forall k | 0 <= k < |ys| ensures ys[k] == b {
        LevelLine(Point(xs[k], ys[k]), b);
      }
    }
  }

  lemma LevelLine(p: Point, b: real)
    requires Hits(p, 0.0, b)
    ensures p.y == b
  {
  }

  /** A line takes two abscissae to one ordinate exactly when it is level. */
  lemma LineRises(p: Point, q: Point, a: real, b: real)
    requires Hits(p, a, b) && Hits(q, a, b) && p.x != q.x
    ensures p.y == q.y <==> a == 0.0
  {
    assert q.y - p.y == a * (q.x - p.x);
    if a != 0.0 {
      ProductNonZero(a, q.x - p.x);
    }
  }

  // ----- What the fit does not depend on -----

  lemma {:induction false} MomentsPermuted(ps: seq<Point>, qs: seq<Point>)
    requires multiset(ps) == multiset(qs) && ps != []
    ensures |ps| == |qs| && Mean(ps, X()) == Mean(qs, X()) && Mean(ps, Y()) == Mean(qs, Y())
    ensures Sxx(ps) == Sxx(qs) && Sxy(ps) == Sxy(qs) && Syy(ps) == Syy(qs)
  {
    assert |ps| == |multiset(ps)| == |multiset(qs)| == |qs|;
    SumPermuted(ps, qs, X());
    SumPermuted(ps, qs, Y());
    SumPermuted(ps, qs, DevX(Mean(ps, X())));
    SumPermuted(ps, qs, DevY(Mean(ps, Y())));
    SumPermuted(ps, qs, DevXY(Mean(ps, X()), Mean(ps, Y())));
  }

  lemma FitPermuted(ps: seq<Point>, qs: seq<Point>)
    requires multiset(ps) == multiset(qs) && ps != []
    ensures |ps| == |qs| && FitPoints(ps) == FitPoints(qs)
  {
    hide Sum, Square, Sxy, Sxx, Syy, Mean, Residual;
    MomentsPermuted(ps, qs);
    if Sxx(ps) != 0.0 {
      assert Slope(ps) == Slope(qs) && Intercept(ps) == Intercept(qs);
      SumPermuted(ps, qs, Residual(Slope(ps), Intercept(ps)));
    }
  }

  /** The order of the runs does not change the fit, nor then any projection made from it. */
  lemma {:induction false} OrderIsIrrelevant(xs: seq<real>, ys: seq<real>, xs': seq<real>, ys': seq<real>)
    requires |xs| == |ys| && |xs'| == |ys'|
    requires multiset(Points(xs, ys)) == multiset(Points(xs', ys'))
    ensures LeastSquares(xs, ys) == LeastSquares(xs', ys')
  {
    hide Sum, Square, Sxy, Sxx, Syy, Mean, Loss, Slope, Intercept;
    var ps, qs := Points(xs, ys), Points(xs', ys');
    assert |ps| == |multiset(ps)| == |multiset(qs)| == |qs|;
    if ps != [] {
      FitPermuted(ps, qs);
    }
  }

  function Rescaled(xs: seq<real>, c: real, d: real): (r: seq<real>) {
    seq(|xs|, i requires 0 <= i < |xs| => c * xs[i] + d)
  }

  ghost predicate IsRescaled(p: Point, q: Point, c: real, d: real) {
    q.x == c * p.x + d && q.y == p.y
  }

  ghost predicate RescaledPoints(ps: seq<Point>, qs: seq<Point>, c: real, d: real) {
    |ps| == |qs| && forall i :: 0 <= i < |ps| ==> IsRescaled(ps[i], qs[i], c, d)
  }

  /** The line `(a, b)` in the new unit is the line `(a', b')` in the old one. */
  ghost predicate SameLine(a: real, b: real, a': real, b': real, c: real, d: real) {
    a' == a * c && b' == a * d + b
  }

  lemma ResidualRescaled(p: Point, q: Point, c: real, d: real, a: real, b: real, a': real, b': real)
    requires IsRescaled(p, q, c, d) && SameLine(a, b, a', b', c, d)
    ensures Residual(a, b)(q) == Residual(a', b')(p)
  {
    ResidualDefinition(q, a, b);
    ResidualDefinition(p, a', b');
    assert a * (c * p.x + d) == a' * p.x + a * d;
    SquareCongruence(q.y - (a * q.x + b), p.y - (a' * p.x + b'));
  }

  lemma {:induction false} LossRescaled(ps: seq<Point>, qs: seq<Point>, c: real, d: real,
                                        a: real, b: real, a': real, b': real)
    requires RescaledPoints(ps, qs, c, d) && SameLine(a, b, a', b', c, d)
    ensures Loss(qs, a, b) == Loss(ps, a', b')
  {
    hide Square, Residual, IsRescaled, SameLine;
    if ps != [] {
      LossRescaled(ps[1..], qs[1..], c, d, a, b, a', b');
      ResidualRescaled(ps[0], qs[0], c, d, a, b, a', b');
    }
  }

  lemma {:induction false} SumOfOrdinates(ps: seq<Point>, qs: seq<Point>, m: real)
    requires |ps| == |qs| && forall i :: 0 <= i < |ps| ==> ps[i].y == qs[i].y
    ensures Sum(ps, Y()) == Sum(qs, Y()) && Sum(ps, DevY(m)) == Sum(qs, DevY(m))
  {
    if ps != [] {
      SumOfOrdinates(ps[1..], qs[1..], m);
    }
  }

  lemma RescaledKeepsDistinct(xs: seq<real>, c: real, d: real)
    requires c != 0.0
    ensures HasDistinct(Rescaled(xs, c, d)) <==> HasDistinct(xs)
  {
    var zs := Rescaled(xs, c, d);
    forall i, j | 0 <= i < j < |xs| ensures zs[i] != zs[j] <==> xs[i] != xs[j] {
      assert zs[i] - zs[j] == c * (xs[i] - xs[j]);
      if xs[i] != xs[j] {
        ProductNonZero(c, xs[i] - xs[j]);
      }
    }
  }

  ghost predicate IsBest(ps: seq<Point>, s: real, b: real) {
    forall a', b' :: Loss(ps, s, b) <= Loss(ps, a', b') && (Loss(ps, s, b) == Loss(ps, a', b') <==> a' == s && b' == b)
  }

  /** Two lines, one read in each unit, that are each the only best fit are the same line. */
  lemma BestLineRescaled(ps: seq<Point>, qs: seq<Point>, c: real, d: real, s: real, b: real, s': real, b': real)
    requires c != 0.0 && RescaledPoints(ps, qs, c, d) && IsBest(ps, s, b) && IsBest(qs, s', b')
    ensures s' == s / c && b' == b - d * s'
    ensures Loss(qs, s', b') == Loss(ps, s, b)
  {
    var a := s / c;
    assert a * c == s;
    hide Sum, Loss, RescaledPoints;
    var k, a', k' := b - a * d, s' * c, s' * d + b';
    LossRescaled(ps, qs, c, d, a, k, s, b);
    LossRescaled(ps, qs, c, d, s', b', a', k');
    assert Loss(qs, s', b') <= Loss(qs, a, k) == Loss(ps, s, b) <= Loss(ps, a', k');
    assert s == a';
  }

  lemma UnitOfPoints(ps: seq<Point>, qs: seq<Point>, c: real, d: real)
    requires c != 0.0 && ps != [] && RescaledPoints(ps, qs, c, d)
    requires Sxx(ps) > 0.0 && Sxx(qs) > 0.0
    ensures Slope(qs) == Slope(ps) / c && Intercept(qs) == Intercept(ps) - d * Slope(qs)
    ensures Loss(qs, Slope(qs), Intercept(qs)) == Loss(ps, Slope(ps), Intercept(ps))
    ensures Syy(ps) == Syy(qs)
  {
    hide Sum, Square, Sxy, Sxx, Loss;
    var s, b, s', b' := Slope(ps), Intercept(ps), Slope(qs), Intercept(qs);
    assert IsBest(ps, s, b) by {
      forall a, k { BestLine(ps, s, b, a, k); }
    }
    assert IsBest(qs, s', b') by {
      forall a, k { BestLine(qs, s', b', a, k); }
    }
    BestLineRescaled(ps, qs, c, d, s, b, s', b');
    SumOfOrdinates(ps, qs, Mean(ps, Y()));
  }

  /** Measuring the axis in another unit, from another origin, moves the line and keeps R^2. */
  lemma UnitIsIrrelevant(xs: seq<real>, ys: seq<real>, c: real, d: real)
    requires c != 0.0
    ensures LeastSquares(Rescaled(xs, c, d), ys).Some? <==> LeastSquares(xs, ys).Some?
    ensures LeastSquares(xs, ys).Some? ==>
              var fit, fit' := LeastSquares(xs, ys).value, LeastSquares(Rescaled(xs, c, d), ys).value;
              && fit'.slope == fit.slope / c
              && fit'.intercept == fit.intercept - d * fit'.slope
              && fit'.rSquared == fit.rSquared
  {
    hide Sum, Square, Sxy, Sxx, Syy, Mean, Loss, Slope, Intercept;
    FitDefined(xs, ys);
    FitDefined(Rescaled(xs, c, d), ys);
    RescaledKeepsDistinct(xs, c, d);
    if LeastSquares(xs, ys).Some? {
      SxxVanishes(xs, ys);
      SxxVanishes(Rescaled(xs, c, d), ys);
      UnitOfPoints(Points(xs, ys), Points(Rescaled(xs, c, d), ys), c, d);
    }
  }

  lemma ProjectionOfLine(c: real, d: real, x: real, fit: Fit, fit': Fit)
    requires c != 0.0 && fit'.slope == fit.slope / c && fit'.intercept == fit.intercept - d * fit'.slope
    ensures Predict(fit', c * x + d) == Predict(fit, x)
  {
    var s' := fit'.slope;
    assert s' * c == fit.slope;
    assert s' * (c * x + d) == fit.slope * x + d * s';
  }

  /** So a projected peak is the same whichever unit and origin the axis is measured in. */
  lemma {:induction false} ProjectionIgnoresUnit(xs: seq<real>, ys: seq<real>, c: real, d: real, x: real)
    requires c != 0.0
    ensures Project(LeastSquares(Rescaled(xs, c, d), ys), c * x + d) == Project(LeastSquares(xs, ys), x)
  {
    hide Predict, LeastSquares;
    UnitIsIrrelevant(xs, ys, c, d);
    if LeastSquares(xs, ys).Some? {
      var fit, fit' := LeastSquares(xs, ys).value, LeastSquares(Rescaled(xs, c, d), ys).value;
      ProjectionOfLine(c, d, x, fit, fit');
    }
  }

  /**
   A projection is refused exactly when there is no line, the ordinates are constant, or the line leaves
   over a tenth of their variation; otherwise it is the ordinate of the one line that fits best.
   */
  lemma ProjectionMeaning(xs: seq<real>, ys: seq<real>, x: real, a: real, b: real)
    ensures var fit := LeastSquares(xs, ys);
            Project(fit, x).Some? <==>
            && |xs| == |ys| && fit.Some? && HasDistinct(ys)
            && 10.0 * Loss(Points(xs, ys), fit.value.slope, fit.value.intercept) <= Syy(Points(xs, ys))
    ensures var projected := Project(LeastSquares(xs, ys), x);
            projected.Some? && IsBest(Points(xs, ys), a, b) ==> projected.value == a * x + b
  {
    hide Sum, Square, Sxy, Sxx, Syy, Mean, Loss;
    FitDefined(xs, ys);
    if |xs| == |ys| && HasDistinct(xs) {
      var ps, fit := Points(xs, ys), LeastSquares(xs, ys).value;
      RSquaredMeaning(xs, ys);
      if HasDistinct(ys) {
        RSquaredExact(xs, ys);
        Threshold(fit.rSquared, Loss(ps, fit.slope, fit.intercept), Syy(ps));
      }
      FitIsOptimal(xs, ys, a, b);
      hide LeastSquares, HasDistinct;
      if IsBest(ps, a, b) {
        assert Loss(ps, a, b) <= Loss(ps, fit.slope, fit.intercept);
        Ordinate(fit, a, b, x);
      }
      hide Predict, IsBest;
    }
  }

  lemma Ordinate(fit: Fit, a: real, b: real, x: real)
    requires fit.slope == a && fit.intercept == b
    ensures Predict(fit, x) == a * x + b
  {
  }

  lemma Threshold(r: real, part: real, whole: real)
    requires whole > 0.0 && r * whole == whole - part
    ensures r < 0.9 <==> 10.0 * part > whole
  {
    assert (r - 0.9) * whole == 0.1 * whole - part;
    if r >= 0.9 {
      ProductSign(r - 0.9, whole);
    } else {
      ProductSign(0.9 - r, whole);
      assert (0.9 - r) * whole == part - 0.1 * whole;
    }
  }

  /** So on points of a rising or falling line it is that line's own ordinate. */
  lemma ProjectionContinuesLine(xs: seq<real>, ys: seq<real>, a: real, b: real, x: real)
    requires |xs| == |ys| && HasDistinct(xs) && OnLine(xs, ys, a, b)
    ensures Project(LeastSquares(xs, ys), x) == if a == 0.0 then None else Some(a * x + b)
  {
    FitRecoversLine(xs, ys, a, b);
    hide LeastSquares, OnLine, HasDistinct;
    Ordinate(Fit(a, b, 1.0), a, b, x);
    hide Predict;
  }
}
