/** The CubicPath object: the fitted cubic and its length, fixed at
    construction, and the three sample lists that generate appends to. */
module Path {
  import opened Errors
  import opened RealArith
  import opened Geometry
  import opened Profile
  import opened Sampling

  class CubicPath {
    const a: real
    const b: real
    const L: real
    const D: real
    const A: real
    const destination: real
    const enterVelocity: real
    const exitVelocity: real
    const cruiseVelocity: real
    const maxAcceleration: real
    /** The sqrt and atan routines the object calls. */
    const math: MathLib
    var mmPosition: seq<real>
    var mmVelocity: seq<real>
    var mmAlpha: seq<real>
    var dt: real

    /** The path's geometry fields as a cubic. */
    function Curve(): Cubic { Cubic(L, D, A, a, b) }

    /** The path's kinematic fields. */
    function Bounds(): Limits { Limits(enterVelocity, exitVelocity, cruiseVelocity, maxAcceleration) }

    /** What the constructor establishes and nothing changes afterwards: the
        fitted cubic, a path at rest at both ends, and its stored length. */
    ghost predicate Configured() {
      Curve().Fitted() && math.SecantsAtLeastOne() && math.atan(0.0) == 0.0
      && enterVelocity == 0.0 && exitVelocity == 0.0
      && destination == NominalLength(Curve(), math)
    }

    /** Configured, and the three sample lists have one entry per sample. */
    ghost predicate Valid()
      reads this
    {
      Configured() && |mmVelocity| == |mmPosition| && |mmAlpha| == |mmPosition|
    }

    /** The constructor after its argument check: fits the cubic through (x, y)
        with the given end slope and stores L * sqrt(1 + slope^2) as the length. */
    constructor (x: real, y: real, slope: real, maxAcceleration: real, cruiseVelocity: real, math: MathLib)
      requires 0.0 < x && math.Sound()
      ensures Valid()
      ensures Success(Curve()) == Fit(x, y, slope)
      ensures Bounds() == Limits(0.0, 0.0, cruiseVelocity, maxAcceleration)
      ensures this.math == math
      ensures destination == x * math.Secant(slope)
      ensures mmPosition == [] && mmVelocity == [] && mmAlpha == []
    {
      var fitted := Fit(x, y, slope).value;
      L, D, A := x, y, slope;
      a, b := fitted.a, fitted.b;
      this.maxAcceleration := maxAcceleration;
      this.cruiseVelocity := cruiseVelocity;
      enterVelocity, exitVelocity := 0.0, 0.0;
      this.math := math;
      destination := NominalLength(fitted, math);
      mmPosition, mmVelocity, mmAlpha := [], [], [];
      new;
      SoundSecants(math);
      assert Curve() == fitted;
      NominalLengthCollapses(fitted, math);
    }

    /** new CubicPath(x, y, slope, maxAcceleration, cruiseVelocity): throws
        IllegalArgumentException exactly when x is not positive. */
    static method Create(x: real, y: real, slope: real, maxAcceleration: real, cruiseVelocity: real, math: MathLib)
      returns (r: Result<CubicPath>)
      requires math.Sound()
      ensures r.Success? <==> 0.0 < x
      ensures r.Failure? ==> r.error == Fit(x, y, slope).error
      ensures r.Success? ==> fresh(r.value) && r.value.Valid()
      ensures r.Success? ==> Success(r.value.Curve()) == Fit(x, y, slope)
      ensures r.Success? ==> r.value.Bounds() == Limits(0.0, 0.0, cruiseVelocity, maxAcceleration)
      ensures r.Success? ==> r.value.math == math && r.value.destination == x * math.Secant(slope)
      ensures r.Success? ==> r.value.mmPosition == [] && r.value.mmVelocity == [] && r.value.mmAlpha == []
    {
      if x <= 0.0 {
        return Failure(IllegalArgument("The end point has to be strictly positive"));
      }
      var path := new CubicPath(x, y, slope, maxAcceleration, cruiseVelocity, math);
      return Success(path);
    }

    /** The phase plan generate computes for this path. */
    function Schedule(): Plan
      requires Bounds().Admissible()
    {
      MakePlan(Bounds(), destination)
    }

    /** Everything the sampling loop of generate(deltaTime) reads. */
    function Trajectory(deltaTime: real): Setting
      requires Bounds().Admissible()
    {
      Setting(Curve(), Bounds(), Schedule(), deltaTime, math)
    }

    /** generate(deltaTime): stores the time step, refuses a non-positive
        acceleration or cruise velocity with the lists untouched, and otherwise
        plans the phases and appends one sample per time step 0, dt, 2*dt, ...
        up to the planned total time. */
    method Generate(deltaTime: real) returns (r: Outcome)
      requires Valid() && (Bounds().Admissible() ==> 0.0 < deltaTime)
      modifies this
      ensures Valid() && dt == deltaTime
      ensures r.Pass? <==> Bounds().Admissible()
      ensures r.Fail? ==> r.error.IllegalArgument?
      ensures r.Fail? ==> mmPosition == old(mmPosition) && mmVelocity == old(mmVelocity) && mmAlpha == old(mmAlpha)
      ensures r.Pass? ==>
        var tr := Samples(Trajectory(deltaTime), Passes(Trajectory(deltaTime), Schedule().totalTime, 0));
        mmPosition == old(mmPosition) + tr.position
        && mmVelocity == old(mmVelocity) + tr.velocity
        && mmAlpha == old(mmAlpha) + tr.alpha
    {
      dt := deltaTime;
      if maxAcceleration <= 0.0 || cruiseVelocity <= 0.0 {
        return Fail(IllegalArgument("Max acceleration and cruise velocity must be positive"));
      }
      var plan := MakePlan(Bounds(), destination);
      Sweep(plan, Trajectory(deltaTime));
      return Pass;
    }

    /** The sampling loop of generate for a computed plan: starting at the
        origin at time 0, each pass records the distance travelled, the
        profile's velocity and the heading change, then moves velocity * dt
        along the path and the matching step along x, until the time passes
        totalTime. */
    method Sweep(plan: Plan, ghost st: Setting)
      requires st == Setting(Curve(), Bounds(), plan, dt, math)
      requires math.SecantsAtLeastOne() && 0.0 < dt
      modifies this
      ensures dt == old(dt)
      ensures var tr := Samples(st, Passes(st, plan.totalTime, 0));
        mmPosition == old(mmPosition) + tr.position
        && mmVelocity == old(mmVelocity) + tr.velocity
        && mmAlpha == old(mmAlpha) + tr.alpha
    {
      var totalTime := plan.totalTime;
      ghost var p0, v0, a0 := mmPosition, mmVelocity, mmAlpha;
      ghost var k: nat := 0;
      var s, x, oldTheta := 0.0, 0.0, 0.0;
      var t := 0.0;
      while t <= totalTime
        invariant t == SampleTime(st, k)
        invariant k + Passes(st, totalTime, k) == Passes(st, totalTime, 0)
        invariant Run(st, k) == Cursor(s, x, oldTheta)
        invariant mmPosition == p0 + Samples(st, k).position
        invariant mmVelocity == v0 + Samples(st, k).velocity
        invariant mmAlpha == a0 + Samples(st, k).alpha
        invariant dt == old(dt)
        decreases Passes(st, totalTime, k)
      {
        var velocity, dS, dx, theta := Step(plan, st, t, x);
        var alpha := theta - oldTheta;
        LoopStep(st, k, s, x, oldTheta, p0, v0, a0, mmPosition, mmVelocity, mmAlpha, velocity, dS, dx, theta, alpha);
        mmPosition := mmPosition + [s];
        mmVelocity := mmVelocity + [velocity];
        mmAlpha := mmAlpha + [alpha];
        oldTheta := theta;
        s := s + dS;
        x := x + dx;
        t := t + dt;
        k := k + 1;
      }
    }

    /** The arithmetic of one pass of the sampling loop at time t and position
        x: the velocity of the phase t falls in, the distance dS = velocity * dt
        moved along the path, its projection dx onto the x axis through the
        slope dydx of the cubic at x, and the heading atan(dydx). */
    method Step(plan: Plan, ghost st: Setting, t: real, x: real) returns (velocity: real, dS: real, dx: real, theta: real)
      requires st == Setting(Curve(), Bounds(), plan, dt, math)
      requires math.SecantsAtLeastOne()
      ensures velocity == Velocity(st.limits, plan, t)
      ensures dS == Stride(st, t)
      ensures dx == Project(dS, st.curve.Slope(x), math)
      ensures theta == Heading(st, x)
    {
      if t < plan.upTime {
        velocity := enterVelocity + maxAcceleration * t;
      } else if t > plan.dnTime {
        velocity := exitVelocity + maxAcceleration * (plan.totalTime - t);
      } else {
        velocity := cruiseVelocity;
      }
      dS := velocity * dt;
      var dydx := 3.0 * a * x * x + 2.0 * b * x;
      dx := dS / math.Secant(dydx);
      theta := math.atan(dydx);
      StrideIs(st, t, velocity, dS);
      SlopeIs(st, x, dydx);
    }

    /** What generate appends on a configured path with positive limits: at
        least one sample; the first at distance 0 with velocity 0 and heading
        change 0; every velocity between 0 and cruise; distances that never
        decrease. */
    lemma GeneratedShape(deltaTime: real)
      requires Configured() && Bounds().Admissible() && 0.0 < deltaTime
      ensures var st := Trajectory(deltaTime);
        var tr := Samples(st, Passes(st, Schedule().totalTime, 0));
        0 < |tr.position|
        && tr.position[0] == 0.0 && tr.velocity[0] == 0.0 && tr.alpha[0] == 0.0
        && (forall i :: 0 <= i < |tr.velocity| ==> 0.0 <= tr.velocity[i] <= cruiseVelocity)
        && (forall i, j :: 0 <= i <= j < |tr.position| ==> tr.position[i] <= tr.position[j])
    {
      var st := Trajectory(deltaTime);
      NominalLengthCollapses(Curve(), math);
      RestToRestTime(Bounds(), destination);
      PassesCount(st, st.plan.totalTime, 0);
      RestToRestSamples(st);
    }

    /** size(): the number of samples, the same for all three lists. */
    function Size(): (n: nat)
      reads this
      ensures Valid() ==> n == |mmVelocity| && n == |mmAlpha|
    {
      |mmPosition|
    }

    /** length(): the stored path length, L * sqrt(1 + A^2), never shorter
        than the X extent L. */
    function Length(): (d: real)
      requires Configured()
      ensures d == L * math.Secant(A)
      ensures 0.0 < L <= d
    {
      NominalLengthCollapses(Curve(), math);
      destination
    }

    /** getPosition(i): sample i's distance along the path, or the
        IndexOutOfBoundsException of List.get. */
    function GetPosition(i: int): (r: Result<real>)
      reads this
      ensures r.Success? <==> 0 <= i < Size()
      ensures r.Success? ==> r.value == mmPosition[i]
      ensures r.Failure? ==> r.error == IndexOutOfBounds(i)
    {
      if 0 <= i < |mmPosition| then Success(mmPosition[i]) else Failure(IndexOutOfBounds(i))
    }

    /** getAlpha(i): sample i's heading change, in range exactly when
        getPosition(i) is. */
    function GetAlpha(i: int): (r: Result<real>)
      requires Valid()
      reads this
      ensures r.Success? <==> 0 <= i < Size()
      ensures r.Success? ==> r.value == mmAlpha[i]
      ensures r.Failure? ==> r.error == IndexOutOfBounds(i)
    {
      if 0 <= i < |mmAlpha| then Success(mmAlpha[i]) else Failure(IndexOutOfBounds(i))
    }

    /** getVelocity(i): sample i's velocity, in range exactly when
        getPosition(i) is. */
    function GetVelocity(i: int): (r: Result<real>)
      requires Valid()
      reads this
      ensures r.Success? <==> 0 <= i < Size()
      ensures r.Success? ==> r.value == mmVelocity[i]
      ensures r.Failure? ==> r.error == IndexOutOfBounds(i)
    {
      if 0 <= i < |mmVelocity| then Success(mmVelocity[i]) else Failure(IndexOutOfBounds(i))
    }
  }
}
