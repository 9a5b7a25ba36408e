/** The cubic path y = a*x^3 + b*x^2 from the origin to (L, D) with end slope A. */
module Geometry {
  import opened Errors
  import opened RealArith

  /** java.lang.Math.sqrt and java.lang.Math.atan. The path calls them but they
      are not part of it, so they are passed in as values. */
  datatype MathLib = MathLib(sqrt: real -> real, atan: real -> real)
  {
    /** The only facts about the two routines the model relies on. */
    ghost predicate Sound() {
      (forall y: real :: 0.0 <= y ==> 0.0 <= sqrt(y) && sqrt(y) * sqrt(y) == y)
      && atan(0.0) == 0.0
    }

    /** sqrt(1 + v*v): the secant of the heading whose tangent is v. */
    function Secant(v: real): real { sqrt(1.0 + v * v) }

    /** What the sampling loop needs of sqrt: it can divide by any secant. */
    ghost predicate SecantsAtLeastOne() { forall v: real :: 1.0 <= Secant(v) }
  }

  /** The square root of 1 + v*v is at least one, so it can be divided by. */
  lemma SqrtOfOnePlusSquare(m: MathLib, v: real)
    requires m.Sound()
    ensures 1.0 <= m.Secant(v)
  {
    var r := m.Secant(v);
    assert 0.0 <= r && r * r == 1.0 + v * v;
    if v < 0.0 {
      MulLeft(-v, 0.0, -v);
    } else {
      MulLeft(v, 0.0, v);
    }
    AtLeastOne(r);
  }

  /** A sound sqrt gives secants of at least one. */
  lemma SoundSecants(m: MathLib)
    requires m.Sound()
    ensures m.SecantsAtLeastOne()
  {
    forall v: real ensures 1.0 <= m.Secant(v) {
      SqrtOfOnePlusSquare(m, v);
    }
  }

  /** The fields L, D, A, a, b of a CubicPath. */
  datatype Cubic = Cubic(L: real, D: real, A: real, a: real, b: real)
  {
    /** The cubic itself. */
    function Value(x: real): real { a * x * x * x + b * x * x }

    /** Its derivative, the slope the trajectory sampler uses. */
    function Slope(x: real): real { 3.0 * a * x * x + 2.0 * b * x }

    /** interpolate: zero left of the origin, the tangent at the end point from
        L onward, the cubic in between. */
    function Interpolate(x: real): real {
      if x <= 0.0 then 0.0
      else if x >= L then D + A * (x - L)
      else Value(x)
    }

    /** The end conditions: the cubic reaches (L, D), right of the origin,
        with slope A. */
    ghost predicate Fitted() { 0.0 < L && Value(L) == D && Slope(L) == A }
  }

  /** The coefficients of the end conditions hold: the cubic passes through (L, D)
      with slope A. */
  lemma EndConditions(L: real, D: real, A: real, a: real, b: real)
    requires 0.0 < L
    requires a == -2.0 * D / (L * L * L) + A / (L * L)
    requires b == 3.0 * D / (L * L) - A / L
    ensures a * L * L * L + b * L * L == D
    ensures 3.0 * a * L * L + 2.0 * b * L == A
  {
    var L2 := L * L;
    var L3 := L2 * L;
    assert a * L3 == -2.0 * D + A * L by {
      assert (-2.0 * D / L3) * L3 == -2.0 * D;
      assert (A / L2) * L2 == A;
    }
    assert b * L2 == 3.0 * D - A * L by {
      assert (3.0 * D / L2) * L2 == 3.0 * D;
      assert (A / L) * L == A;
    }
    assert a * L * L * L == a * L3;
    assert b * L * L == b * L2;
    assert 3.0 * a * L * L * L == 3.0 * (a * L3);
    assert 2.0 * b * L * L == 2.0 * (b * L2);
    assert (3.0 * a * L * L + 2.0 * b * L) * L == A * L;
  }

  /** The constructor's validation and coefficient solve: it refuses an end point
      that is not strictly right of the origin, and otherwise returns the cubic
      that starts flat at the origin and ends at (x, y) with the given slope. */
  function Fit(x: real, y: real, slope: real): (r: Result<Cubic>)
    ensures r.Success? <==> 0.0 < x
    ensures r.Failure? ==> r.error.IllegalArgument?
    ensures r.Success? ==> r.value.L == x && r.value.D == y && r.value.A == slope
    ensures r.Success? ==> r.value.Value(0.0) == 0.0 && r.value.Slope(0.0) == 0.0
    ensures r.Success? ==> r.value.Value(x) == y && r.value.Slope(x) == slope
    ensures r.Success? ==> r.value.Fitted()
  {
    if x <= 0.0 then
      Failure(IllegalArgument("The end point has to be strictly positive"))
    else
      var a := -2.0 * y / (x * x * x) + slope / (x * x);
      var b := 3.0 * y / (x * x) - slope / x;
      EndConditions(x, y, slope, a, b);
      Success(Cubic(x, y, slope, a, b))
  }

  /** The end conditions determine the coefficients: any fitted cubic is the one
      Fit returns for its end point and slope. */
  lemma FitIsUnique(c: Cubic)
    requires c.Fitted()
    ensures Fit(c.L, c.D, c.A) == Success(c)
  {
    var L, D, A := c.L, c.D, c.A;
    CoefficientsFromEnds(L, D, A, c.a, c.b);
    FitSolves(L, D, A);
    var a', b' := -2.0 * D / (L * L * L) + A / (L * L), 3.0 * D / (L * L) - A / L;
    assert c.a == a' && c.b == b';
    assert c == Cubic(L, D, A, a', b');
  }

  /** What Fit returns for a valid end point. */
  lemma FitSolves(L: real, D: real, A: real)
    requires 0.0 < L
    ensures Fit(L, D, A) == Success(Cubic(L, D, A, -2.0 * D / (L * L * L) + A / (L * L), 3.0 * D / (L * L) - A / L))
  {
  }

  /** Solves a*L^3 + b*L^2 == D, 3*a*L^2 + 2*b*L == A for a and b. */
  lemma CoefficientsFromEnds(L: real, D: real, A: real, a: real, b: real)
    requires 0.0 < L
    requires a * L * L * L + b * L * L == D
    requires 3.0 * a * L * L + 2.0 * b * L == A
    ensures a == -2.0 * D / (L * L * L) + A / (L * L)
    ensures b == 3.0 * D / (L * L) - A / L
  {
    ScaledSlope(a, b, L, A);
    PowersPositive(L);
    assert a * L * L * L == a * (L * L * L);
    assert b * L * L == b * (L * L);
    SolveEndConditions(L, D, A, a * (L * L * L), b * (L * L));
    DivideBack(a, L * L * L, -2.0 * D, A * L);
    DivideBack(b, L * L, 3.0 * D, -(A * L));
    assert (A * L) / (L * L * L) == A / (L * L);
    assert (-(A * L)) / (L * L) == -(A / L);
  }

  /** The end slope condition multiplied through by L. */
  lemma ScaledSlope(a: real, b: real, L: real, A: real)
    requires 3.0 * a * L * L + 2.0 * b * L == A
    ensures 3.0 * (a * (L * L * L)) + 2.0 * (b * (L * L)) == A * L
  {
    assert (3.0 * a * L * L + 2.0 * b * L) * L == A * L;
    assert (3.0 * a * L * L + 2.0 * b * L) * L == 3.0 * a * L * L * L + 2.0 * b * L * L;
    assert 3.0 * a * L * L * L == 3.0 * (a * (L * L * L));
    assert 2.0 * b * L * L == 2.0 * (b * (L * L));
  }

  /** The square and cube of a positive L are positive. */
  lemma PowersPositive(L: real)
    requires 0.0 < L
    ensures 0.0 < L * L && 0.0 < L * L * L
  {
    assert 0.0 < L * L;
  }

  /** The linear system p + q == D, 3p + 2q == A*L in p = a*L^3, q = b*L^2. */
  lemma SolveEndConditions(L: real, D: real, A: real, p: real, q: real)
    requires p + q == D && 3.0 * p + 2.0 * q == A * L
    ensures p == -2.0 * D + A * L && q == 3.0 * D - A * L
  {
  }

  /** Interpolate is continuous where its pieces meet: each piece holds on the
      closed interval, so the cubic gives 0 at the origin and D at L. */
  lemma InterpolatePieces(c: Cubic, x: real)
    requires c.Fitted()
    ensures x <= 0.0 ==> c.Interpolate(x) == 0.0
    ensures 0.0 <= x <= c.L ==> c.Interpolate(x) == c.Value(x)
    ensures c.L <= x ==> c.Interpolate(x) == c.D + c.A * (x - c.L)
  {
  }

  /** The path's stored length: the X extent times sqrt(1 + s^2), the secant
      of the heading at the end point, where s is the cubic's slope there. */
  function NominalLength(c: Cubic, m: MathLib): real {
    c.L * m.Secant(c.Slope(c.L))
  }

  /** For a fitted cubic the slope at L is A, so the stored length is
      L * sqrt(1 + A^2), never shorter than L. */
  lemma NominalLengthCollapses(c: Cubic, m: MathLib)
    requires c.Fitted() && m.SecantsAtLeastOne()
    ensures NominalLength(c, m) == c.L * m.Secant(c.A)
    ensures 0.0 < c.L <= NominalLength(c, m)
  {
    assert 1.0 <= m.Secant(c.A);
    MulLeft(c.L, 1.0, m.Secant(c.A));
  }
}
