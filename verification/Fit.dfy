/**
 The straight line through a sweep (benchmarks/vs-frameworks/fit.py), over the reals.
 */
module Fit {
  import opened Prelude

  datatype Fit = Fit(fixed: real, marginal: real, quality: real, points: nat)

  // ---------------------------------------------------------------------------------------------
  // Sums
  // ---------------------------------------------------------------------------------------------

  function Total(vs: seq<real>): real {
    Sum(vs, |vs|)
  }

  function Mean(vs: seq<real>): real
    requires |vs| > 0
  {
    Total(vs) / (|vs| as real)
  }

  function Square(v: real): (s: real)
    ensures s >= 0.0
  {
    v * v
  }

  function SquaredFrom(v: real, mean: real): (s: real)
    ensures s >= 0.0
  {
    Square(v - mean)
  }

  /** The squared distances from `mean`. */
  function Squares(vs: seq<real>, mean: real): seq<real> {
    seq(|vs|, i requires 0 <= i < |vs| => SquaredFrom(vs[i], mean))
  }

  function Product(x: real, y: real, meanX: real, meanY: real): real {
    (x - meanX) * (y - meanY)
  }

  function Products(xs: seq<real>, ys: seq<real>, meanX: real, meanY: real): seq<real>
    requires |xs| == |ys|
  {
    seq(|xs|, i requires 0 <= i < |xs| => Product(xs[i], ys[i], meanX, meanY))
  }

  function Error(x: real, y: real, fixed: real, marginal: real): real {
    y - (fixed + marginal * x)
  }

  /** How far the line `fixed + marginal * x` is from each point. */
  function Errors(xs: seq<real>, ys: seq<real>, fixed: real, marginal: real): seq<real>
    requires |xs| == |ys|
  {
    seq(|xs|, i requires 0 <= i < |xs| => Error(xs[i], ys[i], fixed, marginal))
  }

  function Residual(xs: seq<real>, ys: seq<real>, fixed: real, marginal: real): real
    requires |xs| == |ys|
  {
    Total(Squares(Errors(xs, ys, fixed, marginal), 0.0))
  }

  // ---------------------------------------------------------------------------------------------
  // The fit
  // ---------------------------------------------------------------------------------------------

  function FitLine(xs: seq<real>, ys: seq<real>): Option<Fit>
    requires |xs| == |ys|
  {
    var count := |xs|;
    if count < 2 then None
    else
      var meanX, meanY := Mean(xs), Mean(ys);
      var spread := Total(Squares(xs, meanX));
      if spread <= 0.0 then None
      else
        var marginal := Total(Products(xs, ys, meanX, meanY)) / spread;
        var fixed := meanY - marginal * meanX;
        var total := Total(Squares(ys, meanY));
        var residual := Residual(xs, ys, fixed, marginal);
        Some(Fit(fixed, marginal, if total <= 0.0 then 1.0 else 1.0 - residual / total, count))
  }

  // ---------------------------------------------------------------------------------------------
  // Sums of combinations
  // ---------------------------------------------------------------------------------------------

  lemma TimesNothing(k: real, zero: real)
    requires zero == 0.0
    ensures k * zero == 0.0
  {
  }

  function Combination(v: real, p: real, b: real, q: real, c: real): real {
    v + p * b + q * c
  }

  /** Each value of `zs` is the same combination of the others. */
  ghost predicate Combines(zs: seq<real>, vs: seq<real>, p: real, bs: seq<real>, q: real, cs: seq<real>) {
    |zs| == |vs| == |bs| == |cs| && forall i :: 0 <= i < |zs| ==> zs[i] == Combination(vs[i], p, bs[i], q, cs[i])
  }

  /** The sum of a combination is the combination of the sums. */
  lemma {:induction false} SumsCombine(zs: seq<real>, vs: seq<real>, p: real, bs: seq<real>, q: real, cs: seq<real>,
                                       n: nat)
    requires Combines(zs, vs, p, bs, q, cs) && n <= |zs|
    ensures Sum(zs, n) == Combination(Sum(vs, n), p, Sum(bs, n), q, Sum(cs, n))
  {
    if n > 0 {
      SumsCombine(zs, vs, p, bs, q, cs, n - 1);
      Distributes(Sum(bs, n), Sum(bs, n - 1), bs[n - 1], p);
      Distributes(Sum(cs, n), Sum(cs, n - 1), cs[n - 1], q);
    } else {
      TimesNothing(p, Sum(bs, 0));
      TimesNothing(q, Sum(cs, 0));
    }
  }

  lemma TotalsCombine(zs: seq<real>, vs: seq<real>, p: real, bs: seq<real>, q: real, cs: seq<real>)
    requires Combines(zs, vs, p, bs, q, cs)
    ensures Total(zs) == Combination(Total(vs), p, Total(bs), q, Total(cs))
  {
    SumsCombine(zs, vs, p, bs, q, cs, |zs|);
  }

  function Constant(v: real, n: nat): seq<real> {
    seq(n, i requires 0 <= i < n => v)
  }

  lemma {:induction false} SumOfEqual(vs: seq<real>, v: real, n: nat)
    requires n <= |vs| && forall i :: 0 <= i < n ==> vs[i] == v
    ensures Sum(vs, n) == (n as real) * v
  {
    if n > 0 {
      SumOfEqual(vs, v, n - 1);
      Distributes(n as real, (n - 1) as real, 1.0, v);
    }
  }

  lemma {:induction false} SumIsZeroWhenAllAre(vs: seq<real>, n: nat)
    requires n <= |vs| && forall i :: 0 <= i < n ==> vs[i] >= 0.0
    ensures Sum(vs, n) >= 0.0
    ensures Sum(vs, n) <= 0.0 <==> forall i :: 0 <= i < n ==> vs[i] == 0.0
  {
    if n > 0 {
      SumIsZeroWhenAllAre(vs, n - 1);
    }
  }

  lemma MeanTimesCount(vs: seq<real>)
    requires |vs| > 0
    ensures (|vs| as real) * Mean(vs) == Total(vs)
  {
    var n := |vs| as real;
    assert Total(vs) / n * n == Total(vs);
  }

  // ---------------------------------------------------------------------------------------------
  // The normal equations
  // ---------------------------------------------------------------------------------------------

  function Weight(e: real, x: real): real {
    e * x
  }

  /** The errors, each weighted by its x. */
  function Weighted(xs: seq<real>, es: seq<real>): seq<real>
    requires |xs| == |es|
  {
    seq(|xs|, i requires 0 <= i < |xs| => Weight(es[i], xs[i]))
  }

  lemma WeightedTerm(x: real, y: real, meanX: real, meanY: real, a: real, b: real, e: real)
    requires a == meanY - b * meanX && e == Error(x, y, a, b)
    ensures Weight(e, x) == Combination(Product(x, y, meanX, meanY), -b, SquaredFrom(x, meanX), meanX, e)
  {
    var u, v := x - meanX, y - meanY;
    Distributes(x, u, meanX, b);
    Distributes(v, e, b * u, u);
    Distributes(x, u, meanX, e);
    NegatedProduct(b, u);
  }

  lemma NegatedProduct(b: real, u: real)
    ensures (b * u) * u == b * Square(u) && (-b) * Square(u) == -(b * Square(u))
  {
  }

  lemma ErrorsCombine(xs: seq<real>, ys: seq<real>, a: real, b: real)
    requires |xs| == |ys|
    ensures Combines(Errors(xs, ys, a, b), ys, -b, xs, -a, Constant(1.0, |xs|))
  {
  }

  lemma WeightedCombine(xs: seq<real>, ys: seq<real>, meanX: real, meanY: real, a: real, b: real)
    requires |xs| == |ys| && a == meanY - b * meanX
    ensures Combines(Weighted(xs, Errors(xs, ys, a, b)), Products(xs, ys, meanX, meanY), -b, Squares(xs, meanX),
                     meanX, Errors(xs, ys, a, b))
  {
    var es := Errors(xs, ys, a, b);
    forall i | 0 <= i < |xs|
      ensures Weighted(xs, es)[i] ==
              Combination(Products(xs, ys, meanX, meanY)[i], -b, Squares(xs, meanX)[i], meanX, es[i])
    {
      WeightedTerm(xs[i], ys[i], meanX, meanY, a, b, es[i]);
    }
  }

  lemma MeansCancel(t: real, ones: real, n: real, meanX: real, meanY: real, sumX: real, sumY: real, a: real, b: real)
    requires t == Combination(sumY, -b, sumX, -a, ones) && ones == n
    requires n * meanX == sumX && n * meanY == sumY && a == meanY - b * meanX
    ensures t == 0.0
  {
    Distributes(meanY, a, b * meanX, n);
    assert n * (b * meanX) == b * sumX;
    assert (-a) * n == -(n * a) && (-b) * sumX == -(b * sumX);
  }

  lemma ErrorsCancel(xs: seq<real>, ys: seq<real>, a: real, b: real)
    requires |xs| == |ys| && |xs| > 0 && a == Mean(ys) - b * Mean(xs)
    ensures Total(Errors(xs, ys, a, b)) == 0.0
  {
    var ones := Constant(1.0, |xs|);
    ErrorsCombine(xs, ys, a, b);
    TotalsCombine(Errors(xs, ys, a, b), ys, -b, xs, -a, ones);
    SumOfEqual(ones, 1.0, |xs|);
    MeanTimesCount(xs);
    MeanTimesCount(ys);
    MeansCancel(Total(Errors(xs, ys, a, b)), Total(ones), |xs| as real, Mean(xs), Mean(ys), Total(xs), Total(ys), a, b);
  }

  lemma WeightedCancel(xs: seq<real>, ys: seq<real>, meanX: real, meanY: real, a: real, b: real)
    requires |xs| == |ys| && a == meanY - b * meanX && Total(Errors(xs, ys, a, b)) == 0.0
    requires Total(Squares(xs, meanX)) > 0.0 && b == Total(Products(xs, ys, meanX, meanY)) / Total(Squares(xs, meanX))
    ensures Total(Weighted(xs, Errors(xs, ys, a, b))) == 0.0
  {
    var es := Errors(xs, ys, a, b);
    WeightedCombine(xs, ys, meanX, meanY, a, b);
    TotalsCombine(Weighted(xs, es), Products(xs, ys, meanX, meanY), -b, Squares(xs, meanX), meanX, es);
    Quotient(Total(Products(xs, ys, meanX, meanY)), Total(Squares(xs, meanX)), b);
    TimesNothing(meanX, Total(es));
  }

  /** The fitted line leaves errors that add up to nothing, plain and weighted by x. */
  lemma NormalEquations(xs: seq<real>, ys: seq<real>)
    requires |xs| == |ys| && FitLine(xs, ys).Some?
    ensures var fit := FitLine(xs, ys).value;
            var es := Errors(xs, ys, fit.fixed, fit.marginal);
            Total(es) == 0.0 && Total(Weighted(xs, es)) == 0.0
  {
    var fit := FitLine(xs, ys).value;
    ErrorsCancel(xs, ys, fit.fixed, fit.marginal);
    WeightedCancel(xs, ys, Mean(xs), Mean(ys), fit.fixed, fit.marginal);
  }

  lemma Quotient(p: real, s: real, b: real)
    requires s > 0.0 && b == p / s
    ensures p + (-b) * s == 0.0
  {
    assert p / s * s == p;
    assert (-b) * s == -(b * s);
  }

  // ---------------------------------------------------------------------------------------------
  // Any other line
  // ---------------------------------------------------------------------------------------------

  function Gap(x: real, d: real, g: real): (s: real)
    ensures s >= 0.0
  {
    Square(d + g * x)
  }

  /** How far two lines are apart at each point. */
  function Gaps(xs: seq<real>, d: real, g: real): seq<real> {
    seq(|xs|, i requires 0 <= i < |xs| => Gap(xs[i], d, g))
  }

  lemma MovedTerm(x: real, y: real, a: real, b: real, d: real, g: real, e: real, moved: real, sum: real)
    requires e == Error(x, y, a, b) && moved == Error(x, y, a - d, b - g)
    requires sum == SquaredFrom(e, 0.0) + Gap(x, d, g)
    ensures SquaredFrom(moved, 0.0) == Combination(sum, 2.0 * d, e, 2.0 * g, Weight(e, x))
  {
    var s := d + g * x;
    Distributes(b, b - g, g, x);
    assert moved == e + s;
    SquareOfSum(e, s);
    Distributes(s, d, g * x, e);
    Doubled(d, g, e, x);
  }

  lemma SquareOfSum(e: real, s: real)
    ensures Square(e + s) == Square(e) + 2.0 * (e * s) + Square(s)
  {
    Distributes(e + s, e, s, e + s);
    Distributes(e + s, e, s, e);
    Distributes(e + s, e, s, s);
  }

  lemma Doubled(d: real, g: real, e: real, x: real)
    ensures (2.0 * d) * e == 2.0 * (e * d) && (2.0 * g) * (e * x) == 2.0 * (e * (g * x))
  {
    assert g * (e * x) == e * (g * x);
  }

  function Added(vs: seq<real>, ws: seq<real>): seq<real>
    requires |vs| == |ws|
  {
    seq(|vs|, i requires 0 <= i < |vs| => vs[i] + ws[i])
  }

  lemma MovedCombine(xs: seq<real>, ys: seq<real>, a: real, b: real, d: real, g: real)
    requires |xs| == |ys|
    ensures var es := Errors(xs, ys, a, b);
            Combines(Squares(Errors(xs, ys, a - d, b - g), 0.0), Added(Squares(es, 0.0), Gaps(xs, d, g)), 2.0 * d, es,
                     2.0 * g, Weighted(xs, es))
  {
    var es, moved := Errors(xs, ys, a, b), Errors(xs, ys, a - d, b - g);
    forall i | 0 <= i < |xs|
      ensures Squares(moved, 0.0)[i] ==
              Combination(Added(Squares(es, 0.0), Gaps(xs, d, g))[i], 2.0 * d, es[i], 2.0 * g, Weighted(xs, es)[i])
    {
      MovedTerm(xs[i], ys[i], a, b, d, g, es[i], moved[i], Added(Squares(es, 0.0), Gaps(xs, d, g))[i]);
    }
  }

  lemma TotalAdded(vs: seq<real>, ws: seq<real>)
    requires |vs| == |ws|
    ensures Total(Added(vs, ws)) == Total(vs) + Total(ws)
  {
    forall i | 0 <= i < |vs| ensures Added(vs, ws)[i] == Combination(vs[i], 1.0, ws[i], 0.0, ws[i]) {
    }
    TotalsCombine(Added(vs, ws), vs, 1.0, ws, 0.0, ws);
  }

  /** The residual of a moved line: the old one and the gap, but for the two sums of the normal equations. */
  lemma ResidualMoved(xs: seq<real>, ys: seq<real>, a: real, b: real, d: real, g: real)
    requires |xs| == |ys|
    ensures var es := Errors(xs, ys, a, b);
            Residual(xs, ys, a - d, b - g) ==
            Combination(Residual(xs, ys, a, b) + Total(Gaps(xs, d, g)), 2.0 * d, Total(es),
                        2.0 * g, Total(Weighted(xs, es)))
  {
    var es, gaps := Errors(xs, ys, a, b), Gaps(xs, d, g);
    TotalAdded(Squares(es, 0.0), gaps);
    MovedCombine(xs, ys, a, b, d, g);
    TotalsCombine(Squares(Errors(xs, ys, a - d, b - g), 0.0), Added(Squares(es, 0.0), gaps), 2.0 * d, es, 2.0 * g,
                  Weighted(xs, es));
  }

  lemma GapTerm(x: real, mean: real, d: real, g: real, c: real, k: real, dev: real)
    requires c == d + g * mean && k == 2.0 * (c * g) && dev == x - mean
    ensures Gap(x, d, g) == Combination(Square(c), k, dev, Square(g), SquaredFrom(x, mean))
  {
    var u := x - mean;
    Distributes(x, u, mean, g);
    assert d + g * x == c + g * u;
    SquareOfSum(c, g * u);
    SquareOfProduct(g, u);
    assert c * (g * u) == (c * g) * u;
    assert k * u == 2.0 * ((c * g) * u);
  }

  lemma SquareOfProduct(g: real, u: real)
    ensures Square(g * u) == Square(g) * Square(u)
  {
    assert (g * u) * (g * u) == g * (u * (g * u)) && u * (g * u) == g * (u * u);
    assert g * (g * (u * u)) == (g * g) * (u * u);
  }

  function Deviations(vs: seq<real>, mean: real): seq<real> {
    seq(|vs|, i requires 0 <= i < |vs| => vs[i] - mean)
  }

  lemma DeviationsCancel(vs: seq<real>)
    requires |vs| > 0
    ensures Total(Deviations(vs, Mean(vs))) == 0.0
  {
    var ones, mean := Constant(1.0, |vs|), Mean(vs);
    forall i | 0 <= i < |vs| ensures Deviations(vs, mean)[i] == Combination(vs[i], -mean, ones[i], 0.0, ones[i]) {
    }
    TotalsCombine(Deviations(vs, mean), vs, -mean, ones, 0.0, ones);
    SumOfEqual(ones, 1.0, |vs|);
    MeanTimesCount(vs);
  }

  lemma GapsCombine(xs: seq<real>, mean: real, d: real, g: real, c: real, k: real, level: real, slope: real)
    requires c == d + g * mean && k == 2.0 * (c * g) && level == Square(c) && slope == Square(g)
    ensures Combines(Gaps(xs, d, g), Constant(level, |xs|), k, Deviations(xs, mean), slope, Squares(xs, mean))
  {
    forall i | 0 <= i < |xs|
      ensures Gaps(xs, d, g)[i] ==
              Combination(Constant(level, |xs|)[i], k, Deviations(xs, mean)[i], slope, Squares(xs, mean)[i])
    {
      GapTerm(xs[i], mean, d, g, c, k, Deviations(xs, mean)[i]);
    }
  }

  lemma WithoutTheMiddle(t: real, v: real, p: real, zero: real, q: real, c: real)
    requires t == Combination(v, p, zero, q, c) && zero == 0.0
    ensures t == v + q * c
  {
    TimesNothing(p, zero);
  }

  lemma CombinedGaps(gaps: seq<real>, xs: seq<real>, k: real, level: real, slope: real)
    requires |xs| > 0 && Combines(gaps, Constant(level, |xs|), k, Deviations(xs, Mean(xs)), slope,
                                  Squares(xs, Mean(xs)))
    ensures Total(gaps) == (|xs| as real) * level + slope * Total(Squares(xs, Mean(xs)))
  {
    var devs, squares, levels := Deviations(xs, Mean(xs)), Squares(xs, Mean(xs)), Constant(level, |xs|);
    TotalsCombine(gaps, levels, k, devs, slope, squares);
    SumOfEqual(levels, level, |xs|);
    DeviationsCancel(xs);
    WithoutTheMiddle(Total(gaps), Total(levels), k, Total(devs), slope, Total(squares));
  }

  /** Two lines differ by their distance at the mean, and by their slopes over the spread. */
  lemma GapsAddUp(xs: seq<real>, d: real, g: real, c: real)
    requires |xs| > 0 && c == d + g * Mean(xs)
    ensures Total(Gaps(xs, d, g)) == (|xs| as real) * Square(c) + Square(g) * Total(Squares(xs, Mean(xs)))
  {
    var k := 2.0 * (c * g);
    GapsCombine(xs, Mean(xs), d, g, c, k, Square(c), Square(g));
    CombinedGaps(Gaps(xs, d, g), xs, k, Square(c), Square(g));
  }

  lemma SquareOfPositive(v: real)
    requires v > 0.0
    ensures Square(v) > 0.0
  {
    assert v / v == 1.0;
    assert Square(v) / v == v;
  }

  lemma SquareIsPositive(v: real)
    requires v != 0.0
    ensures Square(v) > 0.0
  {
    if v > 0.0 {
      SquareOfPositive(v);
    } else {
      SquareOfPositive(-v);
      assert Square(-v) == Square(v);
    }
  }

  lemma BothVanish(n: real, c: real, s: real, g: real)
    requires n > 0.0 && s > 0.0 && n * Square(c) + Square(g) * s <= 0.0
    ensures c == 0.0 && g == 0.0
  {
    NonNegative(n, Square(c));
    NonNegative(Square(g), s);
    if c != 0.0 {
      SquareIsPositive(c);
      Positive(n, Square(c));
    }
    if g != 0.0 {
      SquareIsPositive(g);
      Positive(Square(g), s);
    }
  }

  lemma NoGapNoDifference(xs: seq<real>, d: real, g: real)
    requires |xs| > 0 && Total(Squares(xs, Mean(xs))) > 0.0 && Total(Gaps(xs, d, g)) <= 0.0
    ensures d == 0.0 && g == 0.0
  {
    var c := d + g * Mean(xs);
    GapsAddUp(xs, d, g, c);
    BothVanish(|xs| as real, c, Total(Squares(xs, Mean(xs))), g);
  }

  /** Of all lines the fitted one, and no other, has the least squared residual. */
  lemma FitIsTheOnlyMinimiser(xs: seq<real>, ys: seq<real>, a: real, b: real)
    requires |xs| == |ys| && FitLine(xs, ys).Some?
    ensures var fit := FitLine(xs, ys).value;
            && Residual(xs, ys, a, b) >= Residual(xs, ys, fit.fixed, fit.marginal)
            && (Residual(xs, ys, a, b) == Residual(xs, ys, fit.fixed, fit.marginal) <==>
                a == fit.fixed && b == fit.marginal)
  {
    var fit := FitLine(xs, ys).value;
    var d, g := fit.fixed - a, fit.marginal - b;
    NormalEquations(xs, ys);
    OnlyTheGap(xs, ys, fit.fixed, fit.marginal, a, b, d, g);
    GapsAreNotNegative(xs, d, g);
    if Total(Gaps(xs, d, g)) <= 0.0 {
      NoGapNoDifference(xs, d, g);
    }
  }

  /** From a line that meets the normal equations another one is as much worse as the two are apart. */
  lemma OnlyTheGap(xs: seq<real>, ys: seq<real>, fixed: real, marginal: real, a: real, b: real, d: real, g: real)
    requires |xs| == |ys| && d == fixed - a && g == marginal - b
    requires Total(Errors(xs, ys, fixed, marginal)) == 0.0
    requires Total(Weighted(xs, Errors(xs, ys, fixed, marginal))) == 0.0
    ensures Residual(xs, ys, a, b) == Residual(xs, ys, fixed, marginal) + Total(Gaps(xs, d, g))
  {
    ResidualMoved(xs, ys, fixed, marginal, d, g);
    assert fixed - d == a && marginal - g == b;
    TimesNothing(2.0 * d, Total(Errors(xs, ys, fixed, marginal)));
    TimesNothing(2.0 * g, Total(Weighted(xs, Errors(xs, ys, fixed, marginal))));
  }

  lemma NoGap(x: real, d: real, g: real)
    ensures d == 0.0 && g == 0.0 ==> Gap(x, d, g) == 0.0
  {
    if g == 0.0 {
      TimesNothing(x, g);
    }
  }

  lemma GapsAreNotNegative(xs: seq<real>, d: real, g: real)
    ensures Total(Gaps(xs, d, g)) >= 0.0
    ensures d == 0.0 && g == 0.0 ==> Total(Gaps(xs, d, g)) <= 0.0
  {
    var gaps := Gaps(xs, d, g);
    forall i | 0 <= i < |xs| ensures gaps[i] >= 0.0 && (d == 0.0 && g == 0.0 ==> gaps[i] == 0.0) {
      assert gaps[i] == Gap(xs[i], d, g);
      NoGap(xs[i], d, g);
    }
    SumIsZeroWhenAllAre(gaps, |xs|);
  }

  // ---------------------------------------------------------------------------------------------
  // When there is a fit, and how good it is
  // ---------------------------------------------------------------------------------------------

  /** Nothing is spread exactly when every value is the mean. */
  lemma SpreadOfEqual(vs: seq<real>, mean: real)
    ensures Total(Squares(vs, mean)) >= 0.0
    ensures Total(Squares(vs, mean)) <= 0.0 <==> forall i :: 0 <= i < |vs| ==> vs[i] == mean
  {
    var squares := Squares(vs, mean);
    SumIsZeroWhenAllAre(squares, |vs|);
    forall i | 0 <= i < |vs| ensures squares[i] == 0.0 <==> vs[i] == mean {
      if vs[i] - mean != 0.0 {
        SquareIsPositive(vs[i] - mean);
      }
    }
  }

  lemma MeanOfEqual(vs: seq<real>)
    requires |vs| > 0 && forall i :: 0 <= i < |vs| ==> vs[i] == vs[0]
    ensures Mean(vs) == vs[0]
  {
    SumOfEqual(vs, vs[0], |vs|);
  }

  /** A line is fitted exactly when two points differ in x. */
  lemma FitsWhenXsDiffer(xs: seq<real>, ys: seq<real>)
    requires |xs| == |ys|
    ensures FitLine(xs, ys).Some? <==> exists i, j :: 0 <= i < j < |xs| && xs[i] != xs[j]
  {
    if |xs| >= 2 {
      SpreadOfEqual(xs, Mean(xs));
      if forall i, j :: 0 <= i < j < |xs| ==> xs[i] == xs[j] {
        assert forall i :: 0 <= i < |xs| ==> xs[i] == xs[0];
        MeanOfEqual(xs);
      }
    }
  }

  lemma ShareOf(part: real, whole: real)
    requires 0.0 <= part <= whole && whole > 0.0
    ensures 0.0 <= part / whole <= 1.0
  {
    var q := part / whole;
    assert q * whole == part;
    if q < 0.0 {
      GrowsStrictly(q, 0.0, whole);
    } else if q > 1.0 {
      GrowsStrictly(1.0, q, whole);
    }
  }

  /** The quality is a share: none of the total left unexplained is 1, all of it is 0. */
  lemma QualityIsAShare(xs: seq<real>, ys: seq<real>)
    requires |xs| == |ys| && FitLine(xs, ys).Some?
    ensures 0.0 <= FitLine(xs, ys).value.quality <= 1.0
  {
    var fit, meanY := FitLine(xs, ys).value, Mean(ys);
    FitIsTheOnlyMinimiser(xs, ys, meanY, 0.0);
    assert Squares(Errors(xs, ys, meanY, 0.0), 0.0) == Squares(ys, meanY);
    SpreadOfEqual(Errors(xs, ys, fit.fixed, fit.marginal), 0.0);
    if Total(Squares(ys, meanY)) > 0.0 {
      ShareOf(Residual(xs, ys, fit.fixed, fit.marginal), Total(Squares(ys, meanY)));
    }
  }

  /** It is the share of the total that the line explains, or 1 where there is nothing to explain; and the fit names
      the number of points. */
  lemma QualityIsTheShareExplained(xs: seq<real>, ys: seq<real>)
    requires |xs| == |ys| && FitLine(xs, ys).Some?
    ensures var fit, total := FitLine(xs, ys).value, Total(Squares(ys, Mean(ys)));
            && fit.points == |xs|
            && (total > 0.0 ==> fit.quality * total == total - Residual(xs, ys, fit.fixed, fit.marginal))
            && (total <= 0.0 ==> fit.quality == 1.0)
  {
    var fit, total := FitLine(xs, ys).value, Total(Squares(ys, Mean(ys)));
    if total > 0.0 {
      ShareTimesWhole(Residual(xs, ys, fit.fixed, fit.marginal), total);
    }
  }

  lemma ShareTimesWhole(part: real, whole: real)
    requires whole > 0.0
    ensures (1.0 - part / whole) * whole == whole - part
  {
    var q := part / whole;
    assert q * whole == part;
    Distributes(1.0, 1.0 - q, q, whole);
  }

  lemma NothingLeftOnTheLine(xs: seq<real>, ys: seq<real>, a: real, b: real)
    requires |xs| == |ys|
    ensures Residual(xs, ys, a, b) >= 0.0
    ensures Residual(xs, ys, a, b) == 0.0 <==> forall i :: 0 <= i < |xs| ==> ys[i] == a + b * xs[i]
  {
    var es := Errors(xs, ys, a, b);
    SpreadOfEqual(es, 0.0);
    assert forall i :: 0 <= i < |xs| ==> es[i] == Error(xs[i], ys[i], a, b);
  }

  /** Points on a line give that line back, with quality 1. */
  lemma RecoversTheLine(xs: seq<real>, ys: seq<real>, a: real, b: real)
    requires |xs| == |ys| && FitLine(xs, ys).Some?
    requires forall i :: 0 <= i < |xs| ==> ys[i] == a + b * xs[i]
    ensures var fit := FitLine(xs, ys).value; fit.fixed == a && fit.marginal == b && fit.quality == 1.0
  {
    var fit := FitLine(xs, ys).value;
    NothingLeftOnTheLine(xs, ys, a, b);
    NothingLeftOnTheLine(xs, ys, fit.fixed, fit.marginal);
    FitIsTheOnlyMinimiser(xs, ys, a, b);
  }
}
