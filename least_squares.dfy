/**
 * The degree-one least-squares fit the trend page asks of np.polyfit(x, y, 1),
 * with x = 0, 1, ..., n - 1, in exact real arithmetic.  The fit is given in
 * closed form and proved to be the unique solution of the normal equations and
 * the line of least squared error.
 *
 * Every sum is built from the front.  Dropping the first point moves the
 * remaining points one step to the left, so the sums of the tail weigh its
 * points one less, and a line seen from the tail is the line shifted by one
 * (Shifted).  With this, each recursive definition is linear in the sums of
 * the tail, and the algebra of each inductive step is done by a lemma over
 * plain reals.
 */
module LeastSquares {

  datatype Line = Line(slope: real, intercept: real) {
    /** The line's value at x, coeff[0] * x + coeff[1] in polyfit's terms. */
    function At(x: real): real { slope * x + intercept }

    /** The same line with the origin moved one step to the right. */
    function Shifted(): (s: Line)
      ensures s.slope == slope
    {
      Line(slope, intercept + slope)
    }
  }

  lemma ShiftedAt(l: Line, x: real)
    ensures l.Shifted().At(x) == l.At(x + 1.0)
  {
  }

  // Sums over a sample ys at the abscissae x = 0, 1, ..., |ys| - 1, counted in
  // reals.  For the tail t = ys[1..], the point ys[i + 1] sits at x = i, so
  // sum(x) = sum_t(x) + |t|, sum(x^2) = sum_t(x^2) + 2 sum_t(x) + |t| and
  // sum(x y) = sum_t(x y) + sum_t(y).

  function Len(ys: seq<real>): real {
    if ys == [] then 0.0 else 1.0 + Len(ys[1..])
  }

  function SumX(ys: seq<real>): real {
    if ys == [] then 0.0 else SumX(ys[1..]) + Len(ys[1..])
  }

  function SumXX(ys: seq<real>): real {
    if ys == [] then 0.0 else SumXX(ys[1..]) + 2.0 * SumX(ys[1..]) + Len(ys[1..])
  }

  function SumY(ys: seq<real>): real {
    if ys == [] then 0.0 else ys[0] + SumY(ys[1..])
  }

  function SumXY(ys: seq<real>): real {
    if ys == [] then 0.0 else SumXY(ys[1..]) + SumY(ys[1..])
  }

  function SumYY(ys: seq<real>): real {
    if ys == [] then 0.0 else Sq(ys[0]) + SumYY(ys[1..])
  }

  lemma {:induction false} LenIsLength(ys: seq<real>)
    ensures Len(ys) == |ys| as real
  {
    if ys != [] {
      LenIsLength(ys[1..]);
    }
  }

  lemma LenPositive(ys: seq<real>)
    requires |ys| >= 2
    ensures Len(ys) > 0.0
  {
    LenIsLength(ys);
  }

  lemma LenAtLeastOne(ys: seq<real>)
    requires ys != []
    ensures Len(ys) >= 1.0
  {
    LenIsLength(ys);
  }

  lemma {:induction false} SumsNonNegative(ys: seq<real>)
    ensures Len(ys) >= 0.0 && SumX(ys) >= 0.0 && SumXX(ys) >= 0.0
  {
    if ys != [] {
      SumsNonNegative(ys[1..]);
    }
  }

  /** n*sxx - sx^2, the determinant of the normal equations. */
  function Det(n: real, sx: real, sxx: real): real {
    n * sxx - sx * sx
  }

  /** The determinant of the normal equations of the sample ys. */
  function Determinant(ys: seq<real>): real {
    Det(Len(ys), SumX(ys), SumXX(ys))
  }

  /** Over plain reals: the determinant grows by sxx + 2 sx + n when a point
      is put in front of the sample. */
  lemma DeterminantStep(n: real, sx: real, sxx: real, n1: real, sx1: real, sxx1: real)
    requires n1 == 1.0 + n && sx1 == sx + n && sxx1 == sxx + 2.0 * sx + n
    ensures Det(n1, sx1, sxx1) == Det(n, sx, sxx) + sxx + 2.0 * sx + n
  {
  }

  lemma DeterminantGrows(ys: seq<real>)
    requires ys != []
    ensures var t := ys[1..];
            Determinant(ys) == Determinant(t) + SumXX(t) + 2.0 * SumX(t) + Len(t)
  {
    var t := ys[1..];
    DeterminantStep(Len(t), SumX(t), SumXX(t), Len(ys), SumX(ys), SumXX(ys));
  }

  lemma {:induction false} DeterminantNonNegative(ys: seq<real>)
    ensures Determinant(ys) >= 0.0
  {
    if ys != [] {
      var t := ys[1..];
      DeterminantNonNegative(t);
      SumsNonNegative(t);
      DeterminantGrows(ys);
    }
  }

  /** With at least two points the normal equations have a unique solution. */
  lemma DeterminantPositive(ys: seq<real>)
    requires |ys| >= 2
    ensures Determinant(ys) > 0.0
  {
    var t := ys[1..];
    DeterminantNonNegative(t);
    SumsNonNegative(t);
    LenAtLeastOne(t);
    DeterminantGrows(ys);
  }

  // Residuals y - l(x) of a line over the sample, and the two sums the
  // normal equations set to zero.  The first point sits at x = 0, so it adds
  // nothing to the moment sum(x e), and the tail's moment about the shifted
  // line counts every residual one time less.

  /** sum(y - l(x)). */
  function ResidualSum(ys: seq<real>, l: Line): real {
    if ys == [] then 0.0 else (ys[0] - l.At(0.0)) + ResidualSum(ys[1..], l.Shifted())
  }

  /** sum(x (y - l(x))). */
  function ResidualMoment(ys: seq<real>, l: Line): real {
    if ys == [] then 0.0
    else ResidualMoment(ys[1..], l.Shifted()) + ResidualSum(ys[1..], l.Shifted())
  }

  function Sq(e: real): real { e * e }

  /** sum((y - l(x))^2), the squared error of l over ys. */
  function SquaredError(ys: seq<real>, l: Line): real {
    if ys == [] then 0.0 else Sq(ys[0] - l.At(0.0)) + SquaredError(ys[1..], l.Shifted())
  }

  /** The first-order conditions of least squares: sum(e) = 0 and sum(x e) = 0. */
  predicate NormalEquations(ys: seq<real>, l: Line) {
    ResidualSum(ys, l) == 0.0 && ResidualMoment(ys, l) == 0.0
  }

  /** sy - slope*sx - n*intercept, zero when l satisfies the first normal equation. */
  function SumCondition(n: real, sx: real, sy: real, l: Line): real {
    sy - l.slope * sx - n * l.intercept
  }

  /** sxy - slope*sxx - intercept*sx, zero when l satisfies the second one. */
  function MomentCondition(sx: real, sxx: real, sxy: real, l: Line): real {
    sxy - l.slope * sxx - l.intercept * sx
  }

  /** Putting the point (0, y) in front of sums that satisfy the first expansion. */
  lemma SumStep(r0: real, r1: real, n0: real, n1: real, sx0: real, sx1: real, sy0: real, sy1: real,
                y: real, l: Line)
    requires r0 == SumCondition(n0, sx0, sy0, l.Shifted())
    requires r1 == (y - l.At(0.0)) + r0
    requires n1 == 1.0 + n0 && sx1 == sx0 + n0 && sy1 == y + sy0
    ensures r1 == SumCondition(n1, sx1, sy1, l)
  {
  }

  /** Putting a point in front of sums that satisfy both expansions. */
  lemma MomentStep(m0: real, m1: real, r0: real, n0: real, sx0: real, sx1: real,
                   sxx0: real, sxx1: real, sy0: real, sxy0: real, sxy1: real, l: Line)
    requires m0 == MomentCondition(sx0, sxx0, sxy0, l.Shifted())
    requires r0 == SumCondition(n0, sx0, sy0, l.Shifted())
    requires m1 == m0 + r0
    requires sx1 == sx0 + n0 && sxx1 == sxx0 + 2.0 * sx0 + n0 && sxy1 == sxy0 + sy0
    ensures m1 == MomentCondition(sx1, sxx1, sxy1, l)
  {
  }

  lemma {:induction false} ResidualSumExpanded(ys: seq<real>, l: Line)
    ensures ResidualSum(ys, l) == SumCondition(Len(ys), SumX(ys), SumY(ys), l)
  {
    if ys != [] {
      var t := ys[1..];
      ResidualSumExpanded(t, l.Shifted());
      SumStep(ResidualSum(t, l.Shifted()), ResidualSum(ys, l), Len(t), Len(ys),
              SumX(t), SumX(ys), SumY(t), SumY(ys), ys[0], l);
    }
  }

  lemma {:induction false} ResidualMomentExpanded(ys: seq<real>, l: Line)
    ensures ResidualMoment(ys, l) == MomentCondition(SumX(ys), SumXX(ys), SumXY(ys), l)
  {
    if ys != [] {
      var t := ys[1..];
      ResidualMomentExpanded(t, l.Shifted());
      ResidualSumExpanded(t, l.Shifted());
      MomentStep(ResidualMoment(t, l.Shifted()), ResidualMoment(ys, l), ResidualSum(t, l.Shifted()),
                 Len(t), SumX(t), SumX(ys), SumXX(t), SumXX(ys), SumY(t), SumXY(t), SumXY(ys), l);
    }
  }

  /** The normal equations, written through the sums of the sample. */
  lemma NormalEquationsBySums(ys: seq<real>, l: Line)
    ensures NormalEquations(ys, l) <==>
              (SumCondition(Len(ys), SumX(ys), SumY(ys), l) == 0.0
               && MomentCondition(SumX(ys), SumXX(ys), SumXY(ys), l) == 0.0)
  {
    ResidualSumExpanded(ys, l);
    ResidualMomentExpanded(ys, l);
  }

  /** The closed-form solution of the two normal equations
      slope*sx + n*intercept = sy and slope*sxx + intercept*sx = sxy:
      slope = (n*sxy - sx*sy) / (n*sxx - sx^2), intercept = (sy - slope*sx) / n. */
  function Solve(n: real, sx: real, sxx: real, sy: real, sxy: real): (l: Line)
    requires n > 0.0 && Det(n, sx, sxx) != 0.0
    ensures SumCondition(n, sx, sy, l) == 0.0
    ensures MomentCondition(sx, sxx, sxy, l) == 0.0
  {
    var det := Det(n, sx, sxx);
    var a := (n * sxy - sx * sy) / det;
    var b := (sy - a * sx) / n;
    assert n * b == sy - a * sx;
    assert a * det == n * sxy - sx * sy;
    calc {
      n * (sxy - a * sxx - b * sx);
      n * sxy - a * n * sxx - (n * b) * sx;
      n * sxy - a * n * sxx - (sy - a * sx) * sx;
      (n * sxy - sx * sy) - a * det;
      0.0;
    }
    Line(a, b)
  }

  /** The two normal equations have no other solution. */
  lemma SolveIsUnique(n: real, sx: real, sxx: real, sy: real, sxy: real, l: Line)
    requires n > 0.0 && Det(n, sx, sxx) != 0.0
    requires SumCondition(n, sx, sy, l) == 0.0
    requires MomentCondition(sx, sxx, sxy, l) == 0.0
    ensures l == Solve(n, sx, sxx, sy, sxy)
  {
    var det := Det(n, sx, sxx);
    var a, b := l.slope, l.intercept;
    assert b == (sy - a * sx) / n;
    calc {
      0.0;
      n * (sxy - a * sxx - b * sx);
      n * sxy - a * n * sxx - (n * b) * sx;
      n * sxy - a * n * sxx - (sy - a * sx) * sx;
      (n * sxy - sx * sy) - a * det;
    }
    assert a == (n * sxy - sx * sy) / det;
  }

  /** np.polyfit(x, y, 1) for x = 0..n-1, in closed form: the line whose
      residuals sum to zero and are orthogonal to x. */
  function Fit(ys: seq<real>): (l: Line)
    requires |ys| >= 2
    ensures NormalEquations(ys, l)
  {
    DeterminantPositive(ys);
    LenPositive(ys);
    var l := Solve(Len(ys), SumX(ys), SumXX(ys), SumY(ys), SumXY(ys));
    NormalEquationsBySums(ys, l);
    l
  }

  /** Fit is Solve applied to the sums of a sample whose system is regular. */
  lemma FitIsSolve(ys: seq<real>)
    requires |ys| >= 2
    requires Len(ys) > 0.0 && Determinant(ys) > 0.0
    ensures Fit(ys) == Solve(Len(ys), SumX(ys), SumXX(ys), SumY(ys), SumXY(ys))
  {
  }

  /** Fit is the only line that satisfies the normal equations. */
  lemma FitIsUnique(ys: seq<real>, l: Line)
    requires |ys| >= 2 && NormalEquations(ys, l)
    ensures l == Fit(ys)
  {
    LenPositive(ys);
    DeterminantPositive(ys);
    FitIsSolve(ys);
    NormalEquationsBySums(ys, l);
    SolveIsUnique(Len(ys), SumX(ys), SumXX(ys), SumY(ys), SumXY(ys), l);
  }

  /** Every point of ys lies on l. */
  predicate OnLine(ys: seq<real>, l: Line) {
    forall i :: 0 <= i < |ys| ==> ys[i] == l.At(i as real)
  }

  /** The tail of a sample on l lies on l shifted by one. */
  lemma TailOnShiftedLine(ys: seq<real>, l: Line)
    requires ys != [] && OnLine(ys, l)
    ensures ys[0] == l.At(0.0) && OnLine(ys[1..], l.Shifted())
  {
    assert ys[0] == l.At(0 as real);
    forall i | 0 <= i < |ys| - 1
      ensures ys[1..][i] == l.Shifted().At(i as real)
    {
      ShiftedAt(l, i as real);
      assert ys[1..][i] == ys[i + 1] == l.At((i + 1) as real);
    }
  }

  lemma {:induction false} ResidualsVanishOnLine(ys: seq<real>, l: Line)
    requires OnLine(ys, l)
    ensures NormalEquations(ys, l)
  {
    if ys != [] {
      TailOnShiftedLine(ys, l);
      ResidualsVanishOnLine(ys[1..], l.Shifted());
    }
  }

  /** Points that lie exactly on a line are fitted by that line. */
  lemma FitOfPointsOnLine(ys: seq<real>, l: Line)
    requires |ys| >= 2 && OnLine(ys, l)
    ensures Fit(ys) == l
  {
    ResidualsVanishOnLine(ys, l);
    FitIsUnique(ys, l);
  }

  // Least squares proper.

  /** The squared error of l written through the sums of the sample. */
  function Quadratic(n: real, sx: real, sxx: real, sy: real, sxy: real, syy: real, l: Line): real {
    syy - 2.0 * l.slope * sxy - 2.0 * l.intercept * sy
      + l.slope * l.slope * sxx + 2.0 * l.slope * l.intercept * sx + l.intercept * l.intercept * n
  }

  lemma QuadraticStep(n: real, sx: real, sxx: real, sy: real, sxy: real, syy: real,
                      n1: real, sx1: real, sxx1: real, sy1: real, sxy1: real, syy1: real,
                      e0: real, e1: real, y: real, l: Line)
    requires n1 == 1.0 + n && sx1 == sx + n && sxx1 == sxx + 2.0 * sx + n
    requires sy1 == y + sy && sxy1 == sxy + sy && syy1 == Sq(y) + syy
    requires e0 == Quadratic(n, sx, sxx, sy, sxy, syy, l.Shifted())
    requires e1 == Sq(y - l.At(0.0)) + e0
    ensures e1 == Quadratic(n1, sx1, sxx1, sy1, sxy1, syy1, l)
  {
    var a, b := l.slope, l.intercept;
    var c := b + a;
    assert e0 == syy - 2.0 * a * sxy - 2.0 * c * sy + a * a * sxx + 2.0 * a * c * sx + c * c * n;
    assert Sq(y - l.At(0.0)) == y * y - 2.0 * b * y + b * b;
  }

  lemma {:induction false} SquaredErrorExpanded(ys: seq<real>, l: Line)
    ensures SquaredError(ys, l) == Quadratic(Len(ys), SumX(ys), SumXX(ys), SumY(ys), SumXY(ys), SumYY(ys), l)
  {
    if ys != [] {
      var t := ys[1..];
      SquaredErrorExpanded(t, l.Shifted());
      QuadraticStep(Len(t), SumX(t), SumXX(t), SumY(t), SumXY(t), SumYY(t),
                    Len(ys), SumX(ys), SumXX(ys), SumY(ys), SumXY(ys), SumYY(ys),
                    SquaredError(t, l.Shifted()), SquaredError(ys, l), ys[0], l);
    }
  }

  /** da^2 sxx + 2 da db sx + db^2 n: how far a quadratic rises when its
      coefficients move by da and db away from the solution. */
  function Form(n: real, sx: real, sxx: real, da: real, db: real): real {
    da * da * sxx + 2.0 * da * db * sx + db * db * n
  }

  /** Over plain reals: under the normal equations the quadratic at g exceeds
      its value at f by the form of the coefficient differences. */
  lemma QuadraticGap(n: real, sx: real, sxx: real, sy: real, sxy: real, syy: real,
                     f: Line, g: Line, da: real, db: real)
    requires SumCondition(n, sx, sy, f) == 0.0 && MomentCondition(sx, sxx, sxy, f) == 0.0
    requires da == g.slope - f.slope && db == g.intercept - f.intercept
    ensures Quadratic(n, sx, sxx, sy, sxy, syy, g)
         == Quadratic(n, sx, sxx, sy, sxy, syy, f) + Form(n, sx, sxx, da, db)
  {
    var a, b := f.slope, f.intercept;
    assert sy == a * sx + n * b;
    assert sxy == a * sxx + b * sx;
    assert g.slope == a + da && g.intercept == b + db;
  }

  /** The form is non-negative when n > 0 and n sxx - sx^2 > 0: n times it is
      (n db + sx da)^2 + da^2 (n sxx - sx^2). */
  lemma FormNonNegative(n: real, sx: real, sxx: real, da: real, db: real)
    requires n > 0.0 && Det(n, sx, sxx) > 0.0
    ensures Form(n, sx, sxx, da, db) >= 0.0
  {
    var q := Form(n, sx, sxx, da, db);
    var u := n * db + sx * da;
    assert n * q == u * u + da * da * Det(n, sx, sxx);
    SquareNonNegative(u);
    SquareNonNegative(da);
  }

  lemma SquareNonNegative(e: real)
    ensures Sq(e) >= 0.0 && e * e >= 0.0
  {
  }

  lemma LeastOfTwo(ef: real, eg: real, qf: real, qg: real, form: real)
    requires ef == qf && eg == qg && qg == qf + form && form >= 0.0
    ensures ef <= eg
  {
  }

  /** The fitted line has the least squared error of all lines. */
  lemma FitMinimizesSquaredError(ys: seq<real>, g: Line)
    requires |ys| >= 2
    ensures SquaredError(ys, Fit(ys)) <= SquaredError(ys, g)
  {
    var f := Fit(ys);
    var da, db := g.slope - f.slope, g.intercept - f.intercept;
    NormalEquationsBySums(ys, f);
    LenPositive(ys);
    DeterminantPositive(ys);
    SquaredErrorExpanded(ys, f);
    SquaredErrorExpanded(ys, g);
    QuadraticGap(Len(ys), SumX(ys), SumXX(ys), SumY(ys), SumXY(ys), SumYY(ys), f, g, da, db);
    FormNonNegative(Len(ys), SumX(ys), SumXX(ys), da, db);
    LeastOfTwo(SquaredError(ys, f), SquaredError(ys, g),
               Quadratic(Len(ys), SumX(ys), SumXX(ys), SumY(ys), SumXY(ys), SumYY(ys), f),
               Quadratic(Len(ys), SumX(ys), SumXX(ys), SumY(ys), SumXY(ys), SumYY(ys), g),
               Form(Len(ys), SumX(ys), SumXX(ys), da, db));
  }
}
