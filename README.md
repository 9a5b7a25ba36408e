# CubicPath in Dafny

A model of `CubicPath`, the path and trajectory generator of a mobile platform. The model covers three parts:

- **The cubic.** `CubicPath` fits the cubic `y = a*x^3 + b*x^2` from the origin to the end point `(L, D)`. The cubic leaves the origin flat and reaches the end point with slope `A`. The path stores `L * sqrt(1 + A^2)` as its length.
- **`interpolate`.** It evaluates the cubic, clamped to 0 left of the origin and extended along the end tangent past `L`.
- **`generate(dt)`.** It plans a time-phased trapezoid velocity profile: ramp up from the enter velocity, cruise, then ramp down to the exit velocity. It then samples the path every `dt` seconds. Each sample appends the distance travelled, the velocity and the heading change to three lists.

Numbers are Dafny `real`, standing for Java's `double`. `Math.sqrt` and `Math.atan` are not part of the path. They are passed in as a `MathLib` value, and `MathLib.Sound` states the only facts used about them:

- `sqrt(y) >= 0` and `sqrt(y)^2 == y` for every `y >= 0`;
- `atan(0) == 0`.

Modules:

- `Errors`: the exceptions the class throws, as values (`Result`, `Outcome`).
- `RealArith`: small facts about real multiplication and division.
- `Geometry`: the cubic, its fit, `interpolate`, and the stored length.
- `Profile`: the phase plan and the velocity at a given time.
- `Sampling`: the sampling loop as functions. `Run` gives the cursor after `n` passes and `Samples` gives the lists after `n` passes. The lemmas about them are here too.
- `Path`: the class `CubicPath`. Its three lists are `seq<real>` fields, and `Generate` appends to them in a `while` loop. The loop is proved against `Sampling.Samples`.

`enterVelocity` and `exitVelocity` are fields fixed at 0, as in `src/CubicPath.java:34-35`. The general profile lemmas do not assume this.

The profile times all three phases in advance (`src/CubicPath.java:93-107`). It does not decide when to brake from the distance still to go. On a path too short to reach cruise, the planned cruise period is negative. The ramp down then starts before the ramp up ends, so at `upTime` the velocity drops straight from cruise to the ramp-down value (`Profile.ShortPathDrops`). The model keeps this behaviour.

The first sample is recorded before the first step, at distance 0 (`Sampling.FirstSample`).

## Model

| member | source | states |
|---|---|---|
| Geometry.Fit | src/CubicPath.java:53-63 | fails with IllegalArgument exactly when x <= 0; otherwise the cubic has value 0 and slope 0 at the origin, value y and slope `slope` at x |
| Geometry.EndConditions | src/CubicPath.java:62-63 | the coefficient formulas give a*L^3 + b*L^2 == D and 3*a*L^2 + 2*b*L == A |
| Geometry.FitIsUnique | src/CubicPath.java:62-63 | any cubic through (L, D) with end slope A is the one Fit computes, so the end conditions determine a and b |
| Geometry.CoefficientsFromEnds | src/CubicPath.java:62-63 | solving the two end conditions for a and b gives exactly the constructor's formulas |
| Geometry.InterpolatePieces | src/CubicPath.java:74-86 | interpolate, modelled as `Geometry.Cubic.Interpolate`, is 0 for x <= 0, the cubic on [0, L] and the end tangent D + A*(x - L) from L on; the closed intervals overlap at 0 and L, so the pieces meet there |
| Geometry.NominalLengthCollapses | src/CubicPath.java:64 | the stored length `Geometry.NominalLength`, L*sqrt(1 + f'(L)^2), equals L*sqrt(1 + A^2) and is at least L > 0 |
| Geometry.SqrtOfOnePlusSquare | src/CubicPath.java:64 | sqrt(1 + v*v) >= 1, so the loop's division by it is defined and the stored length is at least L |
| Profile.MakePlan | src/CubicPath.java:93-100 | the ramp up reaches cruise at upTime; the ramp down from dnTime reaches the exit velocity at totalTime; the area under the trapezoid (the two ramp areas plus cruise times the cruise period) equals the path length; upTime <= dnTime exactly when the two ramp areas fit into the path length |
| Profile.RestToRestTime | src/CubicPath.java:93-100 | starting and ending at rest, totalTime == cruise/maxAcc + destination/cruise, which is positive for a positive length |
| Profile.VelocityBelowCruise | src/CubicPath.java:104-107 | no velocity of the branch chain, modelled as `Profile.Velocity`, exceeds cruise, and on either ramp it is strictly below cruise |
| Profile.VelocityAboveFloor | src/CubicPath.java:104-107 | within [0, totalTime] `Profile.Velocity` is never below the least of the enter, exit and cruise velocities |
| Profile.TrapezoidJoins | src/CubicPath.java:93-107 | when the phases are in order, the profile starts at the enter velocity, meets cruise at upTime and dnTime, and ends at the exit velocity |
| Profile.ShortPathDrops | src/CubicPath.java:93-107 | on a path too short to cruise (shorter than the two ramp areas), dnTime < upTime and the velocity at upTime is already on the ramp down, below cruise |
| Sampling.ProjectShrinks | src/CubicPath.java:110-112 | dx times sqrt(1 + dydx^2) gives back dS, and 0 <= dx <= dS for dS >= 0 |
| Sampling.SampleTimeIsMultiple | src/CubicPath.java:103 | the loop variable t of pass k is k*dt |
| Sampling.Samples | src/CubicPath.java:114-116 | after n passes each of the three lists holds exactly n entries |
| Sampling.SampleEntries | src/CubicPath.java:104-118 | entry i is the distance before pass i, the profile velocity at time i*dt, and the heading at pass i's x minus the previous heading |
| Sampling.SampleCount | src/CubicPath.java:103 | the number of times 0, dt, 2*dt, ... up to totalTime: the last is within totalTime and the next is beyond it |
| Sampling.GuardCounts | src/CubicPath.java:103 | the loop guard t <= totalTime holds at pass k exactly when k < SampleCount(totalTime, dt) |
| Sampling.PassesCount | src/CubicPath.java:103 | the loop makes SampleCount(totalTime, dt) passes in all |
| Sampling.BodyIsNext | src/CubicPath.java:108-120 | one pass of the body moves the cursor (s, x, oldTheta) from pass k to pass k + 1 and t from k*dt to (k+1)*dt |
| Sampling.LoopStep | src/CubicPath.java:104-120 | one pass appends pass k's entries to the three lists and keeps them equal to the specification's lists after k + 1 passes |
| Sampling.CursorAdvances | src/CubicPath.java:108-120 | with non-negative velocities the distance never decreases, and x stays between 0 and the distance |
| Sampling.PositionsNondecreasing | src/CubicPath.java:114-119 | with non-negative velocities the recorded positions are non-decreasing |
| Sampling.PositionStep | src/CubicPath.java:108-119 | each recorded position is the previous one plus velocity*dt of the previous pass |
| Sampling.FirstSample | src/CubicPath.java:101-116 | the first sample has position 0 and heading change atan(0) - 0 == 0, and carries the velocity at time 0 |
| Sampling.HeadingTelescopes | src/CubicPath.java:113-118 | the heading changes add up to the heading of the last sample |
| Sampling.VelocityBounds | src/CubicPath.java:103-107 | every sampled velocity of a full run is at most cruise and at least the least of the enter, exit and cruise velocities |
| Sampling.RestToRestSamples | src/CubicPath.java:101-121 | a full run from rest to rest has at least one sample; the first is at position 0 with velocity 0 and heading change 0; all velocities lie in [0, cruise]; positions never decrease |
| Path.CubicPath.constructor | src/CubicPath.java:57-64 | the fields hold the cubic Fit returns, the limits given, enter and exit at 0, the given sqrt and atan, the stored length x*sqrt(1 + slope^2), and empty lists |
| Path.CubicPath.Create | src/CubicPath.java:53-65 | throws IllegalArgument exactly when x <= 0; otherwise a fresh, valid path with the fitted cubic, the given limits, sqrt and atan, the stored length x*sqrt(1 + slope^2), and empty lists |
| Path.CubicPath.Generate | src/CubicPath.java:88-124 | dt becomes deltaTime; fails exactly when maxAcceleration or cruiseVelocity is not positive, with the lists unchanged; otherwise appends the lists of a full sampling run to the old lists, which stay the same length |
| Path.CubicPath.Sweep | src/CubicPath.java:101-121 | the sampling loop appends Samples(st, n) to the three lists, where n is the number of passes the guard allows |
| Path.CubicPath.Step | src/CubicPath.java:104-113 | one pass's velocity is the profile's at t, dS is velocity*dt, dx is dS projected through the cubic's slope at x, and theta is the heading there |
| Path.CubicPath.GeneratedShape | src/CubicPath.java:88-121 | what generate appends on a valid path: at least one sample, the first at position 0 with velocity 0 and heading change 0, velocities in [0, cruise], positions non-decreasing |
| Path.CubicPath.Size | src/CubicPath.java:126-128 | size() is the length of every one of the three lists |
| Path.CubicPath.Length | src/CubicPath.java:130-132 | length() is L*sqrt(1 + A^2), and L <= length() |
| Path.CubicPath.GetPosition | src/CubicPath.java:134-136 | returns entry i when 0 <= i < size(), and otherwise IndexOutOfBounds(i) |
| Path.CubicPath.GetAlpha | src/CubicPath.java:138-140 | returns entry i of the heading changes when 0 <= i < size(), and otherwise IndexOutOfBounds(i) |
| Path.CubicPath.GetVelocity | src/CubicPath.java:142-144 | returns entry i of the velocities when 0 <= i < size(), and otherwise IndexOutOfBounds(i) |

## Left out

- src/Main.java is not part of this model. It is a plotting demonstration, and it calls a constructor and setters that `CubicPath` does not have.
- The `System.out.println` tracing in `generate` (`src/CubicPath.java:102, 117, 122`) changes no state and is left out.
- NaN and other IEEE-754 behaviour is not modelled, because reals have no NaN. This covers the NaN checks of the constructor and of `generate`, and the NaN return of `interpolate`. Rounding is not modelled either, so `t` is exactly `k*dt` on pass `k`.
- `Math.pow`, `Math.sqrt` and `Math.atan` are modelled only through the `MathLib.Sound` facts. `pow(v, 2)` is written as `v*v`.
- Path.CubicPath.Generate: it requires `deltaTime > 0` when both limits are positive. `generate` never checks `deltaTime`, and with positive limits and `deltaTime <= 0` its loop never ends. With a non-positive limit it throws before the loop, whatever `deltaTime` is, and the model covers that case.
- Path.CubicPath.Create: a Dafny constructor cannot throw, so the check of `x` is in `Create`, which calls the constructor only for `x > 0`. Both require the `MathLib.Sound` facts.
- Path.CubicPath.Sweep and Path.CubicPath.Step are the loop of `generate` and one pass of its body, split out of `Generate` as methods. `Generate` keeps its own argument check and phase plan.
- Interpolation is modelled on the fitted cubic (`Geometry.Cubic.Interpolate`) and not as a method of the class, because it reads only the fields fixed at construction.
- `generate` returns `this` for chaining. `Generate` returns only the `Outcome` of its argument check.
