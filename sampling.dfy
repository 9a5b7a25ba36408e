/** The sampling loop of CubicPath.generate as a specification: the cursor
    after n steps of dt, and the three sample lists of a run of n steps. */
module Sampling {
  import opened RealArith
  import opened Geometry
  import opened Profile

  /** Everything one run of the loop reads: the curve, the kinematic limits, the
      phase plan, the time step and the math library. */
  datatype Setting = Setting(curve: Cubic, limits: Limits, plan: Plan, dt: real, math: MathLib)

  /** The loop's running variables besides time: distance along the path, x,
      and the heading of the previous sample. */
  datatype Cursor = Cursor(s: real, x: real, theta: real)

  /** The three lists a run appends to, one entry per sample. */
  datatype Trace = Trace(position: seq<real>, velocity: seq<real>, alpha: seq<real>)

  /** The step along x for a step dS along the path where the slope is dydx. */
  function Project(dS: real, dydx: real, m: MathLib): real
    requires m.SecantsAtLeastOne()
  {
    dS / m.Secant(dydx)
  }

  /** Project divides dS by the secant of the heading: scaled back up it gives
      dS, and it is never longer than a non-negative dS. */
  lemma ProjectShrinks(dS: real, dydx: real, m: MathLib)
    requires m.SecantsAtLeastOne()
    ensures Project(dS, dydx, m) * m.Secant(dydx) == dS
    ensures 0.0 <= dS ==> 0.0 <= Project(dS, dydx, m) <= dS
  {
    ShrinkBy(dS, m.Secant(dydx));
  }

  /** Dividing by a factor of at least one shrinks a non-negative number. */
  lemma ShrinkBy(u: real, r: real)
    requires 1.0 <= r
    ensures (u / r) * r == u
    ensures 0.0 <= u ==> 0.0 <= u / r <= u
  {
    DivSign(u, r);
    if 0.0 <= u {
      MulLeft(u / r, 1.0, r);
    }
  }

  /** The time of sample k: the loop starts at 0 and adds dt per iteration. */
  function SampleTime(st: Setting, k: nat): real {
    if k == 0 then 0.0 else SampleTime(st, k - 1) + st.dt
  }

  /** Sample k is taken at time k * dt. */
  lemma {:induction false} SampleTimeIsMultiple(st: Setting, k: nat)
    ensures SampleTime(st, k) == k as real * st.dt
  {
    if 0 < k {
      SampleTimeIsMultiple(st, k - 1);
      NextMultiple(k - 1, st.dt);
    }
  }

  /** The heading of the curve at x. */
  function Heading(st: Setting, x: real): real { st.math.atan(st.curve.Slope(x)) }

  /** The distance dS = velocity * dt moved along the path in the step at
      time t. */
  function Stride(st: Setting, t: real): real { Velocity(st.limits, st.plan, t) * st.dt }

  /** One iteration of the loop at time t: move dS along the path and its
      projection along x, and remember the heading at the old x. */
  function Next(st: Setting, t: real, c: Cursor): Cursor
    requires st.math.SecantsAtLeastOne()
  {
    var dS := Stride(st, t);
    var dydx := st.curve.Slope(c.x);
    Cursor(c.s + dS, c.x + Project(dS, dydx, st.math), st.math.atan(dydx))
  }

  /** The cursor after n iterations, starting from the origin with heading 0. */
  function Run(st: Setting, n: nat): Cursor
    requires st.math.SecantsAtLeastOne()
  {
    if n == 0 then Cursor(0.0, 0.0, 0.0) else Next(st, SampleTime(st, n - 1), Run(st, n - 1))
  }

  /** The lists of a run of n iterations, one entry per iteration. */
  function Samples(st: Setting, n: nat): (tr: Trace)
    requires st.math.SecantsAtLeastOne()
    ensures |tr.position| == n && |tr.velocity| == n && |tr.alpha| == n
  {
    if n == 0 then Trace([], [], [])
    else
      var prev := Samples(st, n - 1);
      var c := Run(st, n - 1);
      Trace(prev.position + [c.s],
            prev.velocity + [Velocity(st.limits, st.plan, SampleTime(st, n - 1))],
            prev.alpha + [Heading(st, c.x) - c.theta])
  }

  /** Sample i of a run records the distance travelled before step i, the
      profile's velocity at the time of sample i, and the heading at its x
      minus the heading of the sample before. */
  lemma {:induction false} SampleEntries(st: Setting, n: nat)
    requires st.math.SecantsAtLeastOne()
    ensures forall i :: 0 <= i < n ==> Samples(st, n).position[i] == Run(st, i).s
    ensures forall i :: 0 <= i < n ==> Samples(st, n).velocity[i] == Velocity(st.limits, st.plan, SampleTime(st, i))
    ensures forall i :: 0 <= i < n ==> Samples(st, n).alpha[i] == Heading(st, Run(st, i).x) - Run(st, i).theta
  {
    if 0 < n {
      SampleEntries(st, n - 1);
    }
  }

  /** A run of k + 1 iterations appends one entry to each list of a run of k. */
  lemma SamplesStep(st: Setting, k: nat)
    requires st.math.SecantsAtLeastOne()
    ensures var prev, c := Samples(st, k), Run(st, k);
      Samples(st, k + 1) == Trace(prev.position + [c.s],
                                  prev.velocity + [Velocity(st.limits, st.plan, SampleTime(st, k))],
                                  prev.alpha + [Heading(st, c.x) - c.theta])
  {
  }

  /** Appending one entry after a prefix. */
  lemma AppendAfter(prefix: seq<real>, xs: seq<real>, v: real)
    ensures prefix + (xs + [v]) == (prefix + xs) + [v]
  {
  }

  /** How many times the loop runs: the times 0, dt, 2*dt, ... up to totalTime. */
  function SampleCount(totalTime: real, dt: real): (n: nat)
    requires 0.0 < dt
    ensures totalTime < n as real * dt
    ensures n == 0 || (n - 1) as real * dt <= totalTime
  {
    if totalTime < 0.0 then 0
    else
      FloorStep(totalTime, dt);
      (totalTime / dt).Floor + 1
  }

  /** The whole number of steps of dt that fit into a non-negative time. */
  lemma FloorStep(total: real, dt: real)
    requires 0.0 < dt && 0.0 <= total
    ensures 0 <= (total / dt).Floor
    ensures ((total / dt).Floor as real) * dt <= total
    ensures total < ((total / dt).Floor + 1) as real * dt
  {
    var q := total / dt;
    var f := q.Floor;
    DivSign(total, dt);
    assert f as real <= q < f as real + 1.0;
    BelowBy(total, dt, q, f as real);
    AboveBy(total, dt, q, f as real + 1.0);
    assert (f + 1) as real == f as real + 1.0;
  }

  /** A multiple g <= q of dt stays within q * dt. */
  lemma BelowBy(total: real, dt: real, q: real, g: real)
    requires 0.0 < dt && q * dt == total && g <= q
    ensures g * dt <= total
  {
    MulLeft(dt, g, q);
  }

  /** A multiple h > q of dt lies beyond q * dt. */
  lemma AboveBy(total: real, dt: real, q: real, h: real)
    requires 0.0 < dt && q * dt == total && q < h
    ensures total < h * dt
  {
    MulStrict(dt, q, h);
  }

  /** Sample k of a full run is taken at a time within [0, totalTime]. */
  lemma SampleTimeWithin(total: real, dt: real, k: nat)
    requires 0.0 < dt && k < SampleCount(total, dt)
    ensures 0.0 <= k as real * dt <= total
  {
    var n := SampleCount(total, dt);
    MulLeft(dt, 0.0, k as real);
    MulLeft(dt, k as real, (n - 1) as real);
  }

  /** The loop's guard: the time of sample k is within totalTime exactly
      when k is below SampleCount. */
  lemma GuardCounts(st: Setting, total: real, k: nat)
    requires 0.0 < st.dt
    ensures SampleTime(st, k) <= total <==> k < SampleCount(total, st.dt)
  {
    var n := SampleCount(total, st.dt);
    SampleTimeIsMultiple(st, k);
    if k < n {
      StepsWithin(st.dt, k, n, total);
    } else {
      StepsBeyond(st.dt, k, n, total);
    }
  }

  /** Any pass before the last one that fits is within the total time. */
  lemma StepsWithin(dt: real, k: nat, n: nat, total: real)
    requires 0.0 < dt && k < n && (n - 1) as real * dt <= total
    ensures k as real * dt <= total
  {
    MulLeft(dt, k as real, (n - 1) as real);
  }

  /** Any pass from the first one that does not fit on is beyond the total time. */
  lemma StepsBeyond(dt: real, k: nat, n: nat, total: real)
    requires 0.0 < dt && n <= k && total < n as real * dt
    ensures total < k as real * dt
  {
    MulLeft(dt, n as real, k as real);
  }

  /** The passes the loop still makes from sample k on, one for each sample
      time from k on that is within totalTime. */
  function Passes(st: Setting, total: real, k: nat): nat
    requires 0.0 < st.dt
    decreases SampleCount(total, st.dt) - k
  {
    if SampleTime(st, k) <= total then
      GuardCounts(st, total, k);
      1 + Passes(st, total, k + 1)
    else 0
  }

  /** Counted pass by pass, the loop runs SampleCount(totalTime, dt) times in
      all: from sample k on it makes the passes that remain up to that count. */
  lemma {:induction false} PassesCount(st: Setting, total: real, k: nat)
    requires 0.0 < st.dt && k <= SampleCount(total, st.dt)
    ensures Passes(st, total, k) == SampleCount(total, st.dt) - k
    decreases SampleCount(total, st.dt) - k
  {
    GuardCounts(st, total, k);
    if k < SampleCount(total, st.dt) {
      PassesCount(st, total, k + 1);
    }
  }

  /** (k + 1) * dt == k * dt + dt. */
  lemma NextMultiple(k: nat, dt: real)
    ensures (k + 1) as real * dt == k as real * dt + dt
  {
  }

  /** One iteration that moves forward keeps x between 0 and the distance. */
  lemma NextAdvances(st: Setting, t: real, c: Cursor)
    requires st.math.SecantsAtLeastOne() && 0.0 <= st.dt
    requires 0.0 <= c.x <= c.s && 0.0 <= Velocity(st.limits, st.plan, t)
    ensures 0.0 <= Next(st, t, c).x <= Next(st, t, c).s && c.s <= Next(st, t, c).s
  {
    var v := Velocity(st.limits, st.plan, t);
    var dS := Stride(st, t);
    var dydx := st.curve.Slope(c.x);
    MulLeft(v, 0.0, st.dt);
    ProjectShrinks(dS, dydx, st.math);
    var p := Project(dS, dydx, st.math);
    assert Next(st, t, c) == Cursor(c.s + dS, c.x + p, st.math.atan(dydx));
  }

  /** One pass of the loop body moves the cursor after k iterations by Next:
      the step dS along the path at the time of sample k, the step dx along x
      that it projects to at the cursor's x, and the heading there. */
  lemma BodyIsNext(st: Setting, k: nat, s: real, x: real, theta: real, dS: real, dx: real)
    requires st.math.SecantsAtLeastOne()
    requires Run(st, k) == Cursor(s, x, theta)
    requires dS == Stride(st, SampleTime(st, k))
    requires dx == Project(dS, st.curve.Slope(x), st.math)
    ensures Run(st, k + 1) == Cursor(s + dS, x + dx, Heading(st, x))
    ensures SampleTime(st, k + 1) == SampleTime(st, k) + st.dt
  {
    RunUnfold(st, k + 1);
  }

  /** One pass of the sampling loop keeps it in step with the specification:
      from the state after k iterations, with the pass's velocity, steps and
      heading as the profile and the curve give them, the cursor and the three
      lists become those after k + 1 iterations. */
  lemma LoopStep(st: Setting, k: nat, s: real, x: real, oldTheta: real,
                                     p0: seq<real>, v0: seq<real>, a0: seq<real>,
                                     positions: seq<real>, velocities: seq<real>, alphas: seq<real>,
                                     velocity: real, dS: real, dx: real, theta: real, alpha: real)
    requires st.math.SecantsAtLeastOne()
    requires Run(st, k) == Cursor(s, x, oldTheta)
    requires positions == p0 + Samples(st, k).position
    requires velocities == v0 + Samples(st, k).velocity
    requires alphas == a0 + Samples(st, k).alpha
    requires velocity == Velocity(st.limits, st.plan, SampleTime(st, k))
    requires dS == Stride(st, SampleTime(st, k))
    requires dx == Project(dS, st.curve.Slope(x), st.math)
    requires theta == Heading(st, x) && alpha == theta - oldTheta
    ensures Run(st, k + 1) == Cursor(s + dS, x + dx, theta)
    ensures SampleTime(st, k + 1) == SampleTime(st, k) + st.dt
    ensures positions + [s] == p0 + Samples(st, k + 1).position
    ensures velocities + [velocity] == v0 + Samples(st, k + 1).velocity
    ensures alphas + [alpha] == a0 + Samples(st, k + 1).alpha
  {
    BodyIsNext(st, k, s, x, oldTheta, dS, dx);
    SamplesStep(st, k);
    AppendAfter(p0, Samples(st, k).position, s);
    AppendAfter(v0, Samples(st, k).velocity, velocity);
    AppendAfter(a0, Samples(st, k).alpha, alpha);
  }

  /** The loop's dS is the stride at the sample's time. */
  lemma StrideIs(st: Setting, t: real, v: real, dS: real)
    requires v == Velocity(st.limits, st.plan, t) && dS == v * st.dt
    ensures dS == Stride(st, t)
  {
  }

  /** The loop's dydx is the curve's slope. */
  lemma SlopeIs(st: Setting, x: real, dydx: real)
    requires dydx == 3.0 * st.curve.a * x * x + 2.0 * st.curve.b * x
    ensures dydx == st.curve.Slope(x)
  {
  }

  /** With non-negative velocities and time step the cursor never moves back
      along the path, and x stays between 0 and the distance travelled. */
  lemma {:induction false} CursorAdvances(st: Setting, n: nat)
    requires st.math.SecantsAtLeastOne() && 0.0 <= st.dt
    requires forall i :: 0 <= i < n ==> 0.0 <= Velocity(st.limits, st.plan, SampleTime(st, i))
    ensures 0.0 <= Run(st, n).x <= Run(st, n).s
    ensures forall k :: 0 <= k <= n ==> Run(st, k).s <= Run(st, n).s
  {
    if 0 < n {
      CursorAdvances(st, n - 1);
      NextAdvances(st, SampleTime(st, n - 1), Run(st, n - 1));
    }
  }

  /** With non-negative velocities and time step the recorded positions never
      decrease. */
  lemma PositionsNondecreasing(st: Setting, n: nat)
    requires st.math.SecantsAtLeastOne() && 0.0 <= st.dt
    requires forall i :: 0 <= i < n ==> 0.0 <= Samples(st, n).velocity[i]
    ensures forall i, j :: 0 <= i <= j < n ==> Samples(st, n).position[i] <= Samples(st, n).position[j]
  {
    SampleEntries(st, n);
    forall i, j | 0 <= i <= j < n
      ensures Samples(st, n).position[i] <= Samples(st, n).position[j]
    {
      CursorAdvances(st, j);
    }
  }

  /** The cursor after n > 0 passes is one Next from the cursor after n - 1. */
  lemma RunUnfold(st: Setting, n: nat)
    requires st.math.SecantsAtLeastOne() && 0 < n
    ensures Run(st, n) == Next(st, SampleTime(st, n - 1), Run(st, n - 1))
  {
  }

  /** Each recorded position is the previous one plus the step taken at the
      previous sample's time. */
  lemma PositionStep(st: Setting, n: nat, i: nat)
    requires st.math.SecantsAtLeastOne() && 0 < i < n
    ensures Samples(st, n).position[i] == Samples(st, n).position[i - 1] + Stride(st, SampleTime(st, i - 1))
  {
    SampleEntries(st, n);
    RunUnfold(st, i);
  }

  /** The first sample sits at distance 0 with heading change 0, since the cubic
      starts flat and atan(0) == 0, and carries the profile's velocity at time 0. */
  lemma FirstSample(st: Setting, n: nat)
    requires st.math.SecantsAtLeastOne() && st.math.atan(0.0) == 0.0 && 0 < n
    ensures Samples(st, n).position[0] == 0.0
    ensures Samples(st, n).alpha[0] == 0.0
    ensures Samples(st, n).velocity[0] == Velocity(st.limits, st.plan, 0.0)
  {
    SampleEntries(st, n);
    assert st.curve.Slope(0.0) == 0.0;
  }

  /** The sum of a list of reals, added from the front. */
  function Sum(xs: seq<real>): real {
    if xs == [] then 0.0 else Sum(xs[..|xs| - 1]) + xs[|xs| - 1]
  }

  /** The recorded heading changes add up to the heading of the last sample. */
  lemma {:induction false} HeadingTelescopes(st: Setting, n: nat)
    requires st.math.SecantsAtLeastOne()
    ensures Sum(Samples(st, n).alpha) == Run(st, n).theta
  {
    if 0 < n {
      HeadingTelescopes(st, n - 1);
      var alpha := Samples(st, n).alpha;
      assert alpha[..n - 1] == Samples(st, n - 1).alpha;
    }
  }

  /** Every sample of a full run of a timed plan is taken within [0, totalTime],
      so its velocity is at most cruise and at least the smallest of the enter,
      exit and cruise velocities. */
  lemma VelocityBounds(st: Setting, n: nat)
    requires st.math.SecantsAtLeastOne() && st.limits.Admissible() && Timed(st.limits, st.plan) && 0.0 < st.dt
    requires n <= SampleCount(st.plan.totalTime, st.dt)
    ensures forall i :: 0 <= i < n ==>
      Min(Min(st.limits.enter, st.limits.exit), st.limits.cruise) <= Samples(st, n).velocity[i] <= st.limits.cruise
  {
    SampleEntries(st, n);
    forall i | 0 <= i < n
      ensures Min(Min(st.limits.enter, st.limits.exit), st.limits.cruise) <= Samples(st, n).velocity[i] <= st.limits.cruise
    {
      var t := SampleTime(st, i);
      SampleTimeIsMultiple(st, i);
      SampleTimeWithin(st.plan.totalTime, st.dt, i);
      VelocityBelowCruise(st.limits, st.plan, t);
      VelocityAboveFloor(st.limits, st.plan, t);
    }
  }

  /** A full run of a motion from rest to rest with a non-negative total time:
      there is at least one sample; the first is at distance 0 with velocity 0
      and heading change 0; every velocity lies between 0 and cruise; and the
      recorded distances never decrease. */
  lemma RestToRestSamples(st: Setting)
    requires st.math.SecantsAtLeastOne() && st.math.atan(0.0) == 0.0
    requires st.limits.Admissible() && Timed(st.limits, st.plan)
    requires st.limits.enter == 0.0 && st.limits.exit == 0.0
    requires 0.0 < st.dt && 0.0 <= st.plan.totalTime
    ensures var tr := Samples(st, SampleCount(st.plan.totalTime, st.dt));
      0 < |tr.position|
      && tr.position[0] == 0.0 && tr.velocity[0] == 0.0 && tr.alpha[0] == 0.0
      && (forall i :: 0 <= i < |tr.velocity| ==> 0.0 <= tr.velocity[i] <= st.limits.cruise)
      && (forall i, j :: 0 <= i <= j < |tr.position| ==> tr.position[i] <= tr.position[j])
  {
    var n := SampleCount(st.plan.totalTime, st.dt);
    assert 0 < n;
    FirstSample(st, n);
    NonNegativeFactor(st.limits.maxAcc, st.plan.upTime);
    assert Velocity(st.limits, st.plan, 0.0) == 0.0;
    VelocityBounds(st, n);
    PositionsNondecreasing(st, n);
  }
}
