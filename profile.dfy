/** The time-phased trapezoid velocity profile of CubicPath.generate: accelerate
    from the enter velocity to cruise, hold cruise, decelerate to the exit
    velocity, each phase timed in advance from the path length. */
module Profile {
  import opened RealArith

  /** The kinematic fields of a CubicPath. */
  datatype Limits = Limits(enter: real, exit: real, cruise: real, maxAcc: real)
  {
    /** What generate accepts before it plans anything. */
    predicate Admissible() { 0.0 < maxAcc && 0.0 < cruise }
  }

  /** The phase times and distances generate computes before sampling. */
  datatype Plan = Plan(
    upTime: real, dnPeriod: real,
    upDistance: real, dnDistance: real,
    cruiseDistance: real, cruisePeriod: real,
    dnTime: real, totalTime: real)

  /** The two ramps are timed to meet cruise: the ramp up from the enter
      velocity reaches it at upTime, and the ramp down that starts at dnTime
      reaches the exit velocity at totalTime. */
  predicate Timed(lim: Limits, p: Plan) {
    lim.enter + lim.maxAcc * p.upTime == lim.cruise
    && lim.exit + lim.maxAcc * (p.totalTime - p.dnTime) == lim.cruise
  }

  /** The area under the two ramps of a plan: the distance covered while
      accelerating to cruise and while decelerating from it. */
  function RampArea(lim: Limits, p: Plan): real {
    p.upTime * (lim.enter + lim.cruise) / 2.0 + (p.totalTime - p.dnTime) * (lim.exit + lim.cruise) / 2.0
  }

  /** The plan for a path of the given length: its ramps are timed, the area
      under the trapezoid they form with the cruise phase is the whole length,
      and the phases are in order exactly when the two ramps fit into it. */
  function MakePlan(lim: Limits, destination: real): (p: Plan)
    requires lim.Admissible()
    ensures Timed(lim, p)
    ensures RampArea(lim, p) + lim.cruise * (p.dnTime - p.upTime) == destination
    ensures p.upTime <= p.dnTime <==> RampArea(lim, p) <= destination
  {
    var upTime := (lim.cruise - lim.enter) / lim.maxAcc;
    var dnPeriod := (lim.cruise - lim.exit) / lim.maxAcc;
    var upDistance := upTime * (lim.enter + lim.cruise) / 2.0;
    var dnDistance := dnPeriod * (lim.exit + lim.cruise) / 2.0;
    var cruiseDistance := destination - upDistance - dnDistance;
    var cruisePeriod := cruiseDistance / lim.cruise;
    var dnTime := upTime + cruisePeriod;
    var totalTime := upTime + cruisePeriod + dnPeriod;
    DivSign(lim.cruise - lim.enter, lim.maxAcc);
    DivSign(lim.cruise - lim.exit, lim.maxAcc);
    DivSign(cruiseDistance, lim.cruise);
    Plan(upTime, dnPeriod, upDistance, dnDistance, cruiseDistance, cruisePeriod, dnTime, totalTime)
  }

  /** Starting and ending at rest, the motion takes cruise/maxAcc (the two
      half-ramps) plus destination/cruise, which is positive for a path of
      positive length. */
  lemma RestToRestTime(lim: Limits, destination: real)
    requires lim.Admissible() && lim.enter == 0.0 && lim.exit == 0.0
    ensures var p := MakePlan(lim, destination);
      p.totalTime == lim.cruise / lim.maxAcc + destination / lim.cruise
      && (0.0 < destination ==> 0.0 < p.totalTime)
  {
    var c, acc := lim.cruise, lim.maxAcc;
    var u := c / acc;
    var cruiseDistance := destination - u * c;
    var p := MakePlan(lim, destination);
    assert p.upTime == u && p.dnPeriod == u;
    assert p.upDistance == u * c / 2.0 && p.dnDistance == u * c / 2.0;
    assert p.cruiseDistance == cruiseDistance;
    CruisePeriodSplits(destination, u, c);
    DivSign(c, acc);
    DivSign(destination, c);
  }

  /** (destination - u*c) / c == destination / c - u for a positive c. */
  lemma CruisePeriodSplits(destination: real, u: real, c: real)
    requires 0.0 < c
    ensures (destination - u * c) / c == destination / c - u
  {
    DivideBack(destination / c - u, c, destination, -(u * c));
  }

  /** The velocity commanded at time t. */
  function Velocity(lim: Limits, p: Plan, t: real): real {
    if t < p.upTime then lim.enter + lim.maxAcc * t
    else if t > p.dnTime then lim.exit + lim.maxAcc * (p.totalTime - t)
    else lim.cruise
  }

  /** The smaller of two reals. */
  function Min(x: real, y: real): real { if x <= y then x else y }

  /** No velocity of a timed plan exceeds cruise: the ramp up is used only
      before it reaches cruise, and the ramp down only after it has left
      cruise, so on either ramp the velocity is strictly below cruise. */
  lemma VelocityBelowCruise(lim: Limits, p: Plan, t: real)
    requires lim.Admissible() && Timed(lim, p)
    ensures Velocity(lim, p, t) <= lim.cruise
    ensures t < p.upTime || p.dnTime < t ==> Velocity(lim, p, t) < lim.cruise
  {
    if t < p.upTime {
      MulStrict(lim.maxAcc, t, p.upTime);
    } else if t > p.dnTime {
      MulStrict(lim.maxAcc, p.totalTime - t, p.totalTime - p.dnTime);
    }
  }

  /** Within [0, totalTime] no velocity falls below the smallest of the enter,
      exit and cruise velocities. */
  lemma VelocityAboveFloor(lim: Limits, p: Plan, t: real)
    requires lim.Admissible()
    requires 0.0 <= t <= p.totalTime
    ensures Min(Min(lim.enter, lim.exit), lim.cruise) <= Velocity(lim, p, t)
  {
    if t < p.upTime {
      MulLeft(lim.maxAcc, 0.0, t);
    } else if t > p.dnTime {
      MulLeft(lim.maxAcc, 0.0, p.totalTime - t);
    }
  }

  /** With enter and exit velocities not above cruise and the phases in order,
      a timed profile is a trapezoid: it starts at the enter velocity, joins
      cruise without a jump at both ends of the cruise phase and ends at the
      exit velocity. */
  lemma TrapezoidJoins(lim: Limits, p: Plan)
    requires lim.Admissible() && Timed(lim, p)
    requires lim.enter <= lim.cruise && lim.exit <= lim.cruise
    requires p.upTime <= p.dnTime
    ensures 0.0 <= p.upTime <= p.dnTime <= p.totalTime
    ensures Velocity(lim, p, 0.0) == lim.enter
    ensures Velocity(lim, p, p.upTime) == lim.cruise
    ensures Velocity(lim, p, p.dnTime) == lim.cruise
    ensures Velocity(lim, p, p.totalTime) == lim.exit
  {
    NonNegativeFactor(lim.maxAcc, p.upTime);
    NonNegativeFactor(lim.maxAcc, p.totalTime - p.dnTime);
    if p.upTime == 0.0 {
      assert lim.enter == lim.cruise;
    }
    if p.totalTime == p.dnTime {
      assert lim.exit == lim.cruise;
    }
  }

  /** On a path too short to cruise the ramp down starts before the ramp up
      ends: at upTime, where the ramp up has just reached cruise, the profile
      is already on the ramp down, strictly below cruise. */
  lemma ShortPathDrops(lim: Limits, destination: real)
    requires lim.Admissible()
    requires destination < RampArea(lim, MakePlan(lim, destination))
    ensures var p := MakePlan(lim, destination);
      p.dnTime < p.upTime
      && lim.enter + lim.maxAcc * p.upTime == lim.cruise
      && Velocity(lim, p, p.upTime) == lim.exit + lim.maxAcc * (p.totalTime - p.upTime)
      && Velocity(lim, p, p.upTime) < lim.cruise
  {
    var p := MakePlan(lim, destination);
    VelocityBelowCruise(lim, p, p.upTime);
  }
}
