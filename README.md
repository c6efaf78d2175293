# slip-ratio: a verified model of the vehicle physics core

slip-ratio is a small 2-D car physics toy. A car is a *beam body*: an array of mass points
braced by distance constraints. Four of the points are *wheels*. A tire model drives each wheel
along its heading, using the speed difference between the tire surface and the ground and a
slip curve. The body's solver then pulls the points back towards their rest distances.

This project models that core in Dafny and proves its properties.

- **Constraints** (`constraints.dfy`): `computeConstraintLengths`, which the velocity solver and
  the position-nudge solver carry in identical form. It is a loop that fails on the first index
  with no point. Otherwise it records one constraint per pair, with the pair's starting distance
  as rest length.
- **Beam** (`beam.dfy`): the velocity solver of `src/lib/beam.ts`, as a class over an
  `array<BeamPoint>`. `Update` runs the constraint loop in place and then `updatePositions`. Its
  contract ties the array to `Tick`, a function on the point sequence.
- **Kine** (`kine.dfy`): the position-nudge solver of `src/lib/kine.ts`, in the same form. Its
  contract ties the array to `Relax`.
- **Util** (`util.dfy`): the clamp `limitValue`.
- **Wheels** (`wheel.dfy`): the tire model of `src/lib/wheel.ts`.
  - The slip curve and the slip ratio are pure functions.
  - `Wheel` is a class whose mass point *is* `points[index]` of the body's array, so the tire
    update and the body solver write the same point, as the source's shared objects do.
  - `Wheel.Update` is proved equal to `Step`, a function on a `WheelState` value. `Step` takes
    the readings (`Measure`) first and then performs the writes (`Apply`).
- **Vehicles** (`vehicle.dfy`): `Vehicle` from `src/lib/vehicles/index.ts`.
  - It holds the inputs, with `applyInput` as a field-wise merge.
  - `update` runs every wheel's update once, in list order, and then one body tick. On values
    this is `WheelPass` followed by `Tick`.
- **Cars** (`car.dfy`): `Car` from `src/lib/vehicles/car.ts`.
  - It fixes the starting geometry, the 15-pair bracing and the steering in front of the
    vehicle update.
  - It is built by composition: a `Car` has a `Vehicle` where the source has `Car extends
    Vehicle`.
- **Prototype** (`prototype.dfy`): the older one-dimensional wheel of `src/main.tsx`, as a class
  with its own position. It is proved equal to its own `Step`, and lemmas compare its slip
  helpers with those of the library.

`Math.sqrt`, `Math.cos`, `Math.sin`, `Math.atan2` and `Math.PI` are a parameter of type
`Maths.MathLib`. Where a proof needs a fact about them, it is a precondition of that lemma only:
`SqrtLaw` (a non-negative square root) or `HeadingLaw` (the side direction's unit vector is
`(-sin, cos)`). All arithmetic is over `real`. The source has one global `Math`, so the model assumes that the same `MathLib` is passed to every operation: to the one that computes the rest lengths and to the ones that run the ticks. Each contract holds for any single `MathLib`.

## Model

| member | source | states |
|---|---|---|
| Maths.Dist | src/lib/beam.ts:15-20 | the value `dist` computes: the square root of the summed squared coordinate differences of the two positions |
| Maths.DistSymmetric | src/lib/beam.ts:15-20 | the distance between two points does not depend on their order |
| Maths.DistTranslationInvariant | src/lib/beam.ts:15-20 | shifting both points by the same vector keeps their distance |
| Maths.DistZeroIffSame | src/lib/beam.ts:15-20 | the distance is non-negative, and zero exactly when the positions coincide |
| Maths.SqrtOfSquare | src/lib/beam.ts:17-19 | with a lawful square root, `sqrt(x*x) == |x|` |
| Util.LimitValue | src/lib/util.ts:1-2 | the value `limitValue` computes: `max(-limit, min(limit, value))` |
| Util.LimitValueBounds | src/lib/util.ts:1-2 | for `limit >= 0` the result is in `[-limit, limit]`; a value in range is returned unchanged, and one outside is cut to the nearer end; a negative limit yields `-limit` |
| Util.LimitValueIdempotent | src/lib/util.ts:1-2 | clamping twice equals clamping once |
| Util.LimitValueOdd | src/lib/util.ts:1-2 | for `limit >= 0`, `limitValue(-v) == -limitValue(v)` |
| Util.LimitValueMonotone | src/lib/util.ts:1-2 | the clamp is non-decreasing in the value |
| Util.LimitValueMagnitude | src/lib/util.ts:1-2 | the result's magnitude is at most the limit and at most the value's magnitude |
| Constraints.RestLengths | src/lib/beam.ts:23-34 | the list a successful `computeConstraintLengths` returns: one `[i, j, dist]` per pair, in order |
| Constraints.ComputeConstraintLengths | src/lib/beam.ts:23-34 | it succeeds exactly when every index of every pair has a point; on success, one constraint per pair, in order, with the same indices and the starting distance as rest length; on failure, the error names the missing index (the first of the pair) of the first bad pair, with the point count |
| Beam.NewBeamPoint | src/lib/beam.ts:10-13 | a new point is still, at the given position or the origin, with the given mass or mass 1 |
| Beam.Share | src/lib/beam.ts:54-55 | the value the source computes at line 54: `s1`, A's inverse mass over the sum of both inverse masses |
| Beam.Correction | src/lib/beam.ts:50-59 | the value the source computes at lines 50-59: the vector `(vx, vy)`, the separation scaled by `(len - dist)/dist` and by `D = 0.5` |
| Beam.PushA | src/lib/beam.ts:60-61 | the value the source computes at lines 60-61: A's velocity less `v * s1` |
| Beam.PushB | src/lib/beam.ts:62-63 | the value the source computes at lines 62-63: B's velocity plus `v * s2` |
| Beam.Integrated | src/lib/beam.ts:74-79 | the points `updatePositions` leaves: each position plus its velocity |
| Beam.Translated | src/lib/beam.ts:96-101 | the points `translate(x, y)` leaves: each position plus `(x, y)` |
| Beam.CenterOf | src/lib/beam.ts:81-94 | the value `centerOfMass` returns: the mass-weighted position sums over the total mass |
| Beam.ShareProperties | src/lib/beam.ts:54-55 | for positive masses `0 < s1 < 1`, `s1 == mB/(mA+mB)`, `mA*s1 == mB*s2`, `s1 > s2` exactly when `mA < mB`, and equal masses give 1/2 each |
| Beam.ApplicableOnSameFrame | src/lib/beam.ts:47-57 | a correction reads only positions and masses, so any point sequence with the same frame can take it and gives the same correction vector |
| Beam.ApplyConstraint | src/lib/beam.ts:47-63 | one iteration of the constraint loop keeps every position and mass, and writes only velocities |
| Beam.Relax | src/lib/beam.ts:46-69 | the whole constraint loop keeps every position and mass |
| Beam.Tick | src/lib/beam.ts:45-79 | after `update`, each point keeps its mass and has the relaxed velocity, and its position is the old position plus that velocity |
| Beam.ApplyConservesMomentum | src/lib/beam.ts:54-63 | each correction leaves the total momentum `sum m*v` unchanged |
| Beam.SelfPairExcluded | src/lib/beam.ts:51-54 | with a lawful square root, `Applicable` excludes every self-pair: its distance is 0, where the source divides 0 by 0 |
| Beam.PairMomentum | src/lib/beam.ts:60-63 | pushes of equal, opposite momentum on two distinct points keep the total momentum |
| Beam.PairMomentumX | src/lib/beam.ts:60-63 | the x component of that |
| Beam.PairMomentumY | src/lib/beam.ts:60-63 | the y component of that |
| Beam.PushMomentum | src/lib/beam.ts:60-63 | a push by share `s` changes a point's momentum by `v * (m*s)` |
| Beam.RelaxConservesMomentum | src/lib/beam.ts:46-69 | the constraint loop conserves linear momentum |
| Beam.TickConservesMomentum | src/lib/beam.ts:45-79 | `update` conserves linear momentum |
| Beam.MomentumOfMotion | src/lib/beam.ts:74-79 | momentum reads only masses and velocities, so integrating positions keeps it |
| Beam.ApplyAtRest | src/lib/beam.ts:52-63 | a constraint whose points are exactly rest length apart changes nothing |
| Beam.TickAtRest | src/lib/beam.ts:45-79 | a still body with every constraint at rest length is left unchanged by `update` |
| Beam.ApplyIsDelta | src/lib/beam.ts:54-63 | a correction adds to each point's velocity a delta computed from positions and masses only |
| Beam.RelaxIsTotalDelta | src/lib/beam.ts:46-69 | after the loop, each velocity is its start velocity plus the sum of every constraint's delta, each computed on start-of-tick positions |
| Beam.RelaxOrderIndependent | src/lib/beam.ts:46-72 | any reordering of the constraints gives the same velocities and the same tick |
| Beam.TranslatedKeepsShape | src/lib/beam.ts:96-101 | `translate` keeps every velocity, every mass and every pairwise distance |
| Beam.TranslatedMass | src/lib/beam.ts:96-101 | `translate` keeps the total mass |
| Beam.TranslatedMomentX | src/lib/beam.ts:81-101 | translation by `d` adds `d.x` times the total mass to the x moment |
| Beam.TranslatedMomentY | src/lib/beam.ts:81-101 | translation by `d` adds `d.y` times the total mass to the y moment |
| Beam.TranslatedSums | src/lib/beam.ts:81-101 | both sums the centre of mass divides are shifted accordingly |
| Beam.TranslatedCenter | src/lib/beam.ts:81-101 | the centre of mass moves by exactly `(x, y)` under `translate(x, y)` |
| Beam.BeamBody.constructor | src/lib/beam.ts:40-43 | the body holds the given points and constraints |
| Beam.BeamBody.Build | src/lib/beam.ts:40-43 | construction fails exactly when a pair index has no point; otherwise the body shares the given array and holds the pairs' rest lengths |
| Beam.BeamBody.Update | src/lib/beam.ts:45-72 | the array afterwards is `Tick` of the array before |
| Beam.BeamBody.ApplyAt | src/lib/beam.ts:47-63 | one loop iteration, in place, equals `ApplyConstraint` |
| Beam.BeamBody.UpdatePositions | src/lib/beam.ts:74-79 | every position advances by its velocity; nothing else changes |
| Beam.BeamBody.CenterOfMass | src/lib/beam.ts:81-94 | the accumulating loop returns the mass-weighted mean position |
| Beam.BeamBody.Translate | src/lib/beam.ts:96-101 | every position moves by `(x, y)`; nothing else changes |
| Kine.NewPhyPoint | src/lib/kine.ts:6-11 | a new point is still, at the given position or the origin |
| Kine.Correction | src/lib/kine.ts:49-55 | the value the source computes at lines 49-55: the vector `(vx, vy)`, the separation scaled by `(len - dist)/dist` and by 0.75 |
| Kine.MoveA | src/lib/kine.ts:57-62 | the value the source computes at lines 57-58 and 61-62: A loses `v` from its velocity and `v * 0.25` from its position |
| Kine.MoveB | src/lib/kine.ts:59-64 | the value the source computes at lines 59-60 and 63-64: B gains `v` in its velocity and `v * 0.25` in its position |
| Kine.Translated | src/lib/kine.ts:76-81 | the points `translate(x, y)` leaves: each position plus `(x, y)` |
| Kine.SelfPairExcluded | src/lib/kine.ts:49-52 | with a lawful square root, `Applicable` excludes every self-pair: its distance is 0, where the source divides 0 by 0 |
| Kine.ApplyConstraint | src/lib/kine.ts:45-64 | one iteration keeps the number of points |
| Kine.Relax | src/lib/kine.ts:43-74 | the loop keeps the number of points |
| Kine.RelaxablePrefix | src/lib/kine.ts:45-65 | if the whole loop can run, so can every prefix of it |
| Kine.RelaxStep | src/lib/kine.ts:45-65 | iteration `k` applies constraint `k` to the points the first `k` iterations left |
| Kine.ApplyConserves | src/lib/kine.ts:54-64 | each correction keeps the body's velocity sum and position sum |
| Kine.RelaxConserves | src/lib/kine.ts:43-74 | `update` keeps the velocity sum, the position sum and the centroid |
| Kine.RelaxKeepsAnchors | src/lib/kine.ts:43-74 | a point's position always moves by a quarter of its velocity change, so velocities are never integrated into positions |
| Kine.ApplyAtRest | src/lib/kine.ts:52-64 | a pair exactly at rest length is left completely unchanged |
| Kine.RelaxAtRest | src/lib/kine.ts:43-74 | a body with every constraint at rest length is left unchanged |
| Kine.ApplyAt2 | src/lib/kine.ts:57-64 | one correction moves A by minus the correction and B by plus it; every other point is kept |
| Kine.AxisCorrection | src/lib/kine.ts:49-55 | for rest length 1, two points on the x axis 2 apart get the correction `(-0.75, 0)`, and 2.1875 apart `(-0.890625, 0)` |
| Kine.LeftThenRight | src/lib/kine.ts:45-65 | on three points in a row, the order (0,1) then (1,2) leaves the middle velocity at 0.140625 |
| Kine.RightThenLeft | src/lib/kine.ts:45-65 | the order (1,2) then (0,1) leaves it at -0.140625 |
| Kine.OrderMatters | src/lib/kine.ts:45-65 | the two orders give different results, so `update` depends on constraint order |
| Kine.ApplyTranslated | src/lib/kine.ts:43-81 | a correction commutes with translation |
| Kine.RelaxTranslated | src/lib/kine.ts:43-81 | `update` commutes with `translate` |
| Kine.TranslatedKeepsShape | src/lib/kine.ts:76-81 | `translate` shifts every position, keeps velocities and keeps every pairwise distance |
| Kine.BeamBody.constructor | src/lib/kine.ts:38-41 | the body holds the given points and constraints |
| Kine.BeamBody.Build | src/lib/kine.ts:38-41 | construction fails exactly on an out-of-range index; otherwise the body holds the pairs' rest lengths |
| Kine.BeamBody.Update | src/lib/kine.ts:43-74 | the array afterwards is `Relax` of the array before |
| Kine.BeamBody.ApplyAt | src/lib/kine.ts:46-64 | one loop iteration, in place, equals `ApplyConstraint` |
| Kine.BeamBody.Translate | src/lib/kine.ts:76-81 | every position moves by `(x, y)`; nothing else changes |
| Wheels.SlipGrip | src/lib/wheel.ts:27-28 | the value `compuleSlipProfile` computes: 1 below the profile's slip ratio, otherwise `1 - slope*(value - slipRatio)^2` clamped to `[0, 1]` |
| Wheels.MaxGrip | src/lib/wheel.ts:83 | the value the source computes at line 83: `grip * surfaceGrip * contactPercent` |
| Wheels.GroundSpeed | src/lib/wheel.ts:61-64 | the value `wheelGroundSpeed` computes: the velocity's component along the heading |
| Wheels.SideDirection | src/lib/wheel.ts:57-59 | the value `directionSide` computes: the heading plus `pi/2` |
| Wheels.SidewaysSpeed | src/lib/wheel.ts:66-69 | the value `wheelSidewaysSpeed` computes: the velocity's component along the side direction |
| Wheels.SurfaceSpeed | src/lib/wheel.ts:76-78 | the value `wheelSurfaceSpeed` computes: radius times spin |
| Wheels.MoveSpeed | src/lib/wheel.ts:93-94 | the value the source computes at lines 93-94: the grip-scaled speed difference clamped to `MAX_ACC * slipGrip` |
| Wheels.SpinFactor | src/lib/wheel.ts:100 | the value the source computes at line 100: the spin damping `angularFriction - brakePressure * brakeFrictionIncrease` |
| Wheels.Spin | src/lib/wheel.ts:99-100 | the value the source computes at lines 99-100: the spin less `moveSpeed/radius`, times the damping |
| Wheels.Drive | src/lib/wheel.ts:96-97 | the value the source computes at lines 96-97: the velocity plus the drive along the heading, scaled by the grip |
| Wheels.VelFriction | src/lib/wheel.ts:102 | the value the source computes at line 102: `(1 - contactFriction) * maxGrip * slipGrip` |
| Wheels.Shed | src/lib/wheel.ts:103 | the value the source computes at line 103: `sideways`, the sideways speed after the drive times `velFriction * (1 - slipRatio)` |
| Wheels.Scrubbed | src/lib/wheel.ts:104-105 | the value the source computes at lines 104-105: the velocity less `sideways` along the side direction |
| Wheels.Scrub | src/lib/wheel.ts:103-105 | the value the source computes at lines 103-105: the velocity after the sideways scrub |
| Wheels.Measure | src/lib/wheel.ts:81-94 | the readings the source computes at lines 81-94 before it writes: grip, ground and surface speed, slip ratio, slip grip and drive |
| Wheels.Apply | src/lib/wheel.ts:96-106 | the state the source writes at lines 96-106 for given readings: drive, spin, then scrub, then the rotation angle |
| Wheels.Step | src/lib/wheel.ts:80-107 | the state `update(payload)` leaves: the readings taken first, then the writes |
| Wheels.SlipGripBounds | src/lib/wheel.ts:27-28 | the grip fraction is in `[0, 1]`, and 1 below the threshold |
| Wheels.SlipGripAtThreshold | src/lib/wheel.ts:27-28 | the grip fraction is 1 at the threshold |
| Wheels.SlipGripNonIncreasing | src/lib/wheel.ts:27-28 | for `slope >= 0` the grip fraction never rises as the slip grows |
| Wheels.SlipRatio | src/lib/wheel.ts:30-36 | the slip ratio is always a finite number (never NaN nor infinite) |
| Wheels.SlipRatioBounds | src/lib/wheel.ts:30-36 | it lies in `[0, 1]`, is 0 when both speeds are 0, and 1 when exactly one is |
| Wheels.SlipRatioGuards | src/lib/wheel.ts:31-34 | each quotient is NaN exactly when both speeds are zero, and the two are never both infinite, so the Infinity guard never fires |
| Wheels.AbsQuotientOf | src/lib/wheel.ts:31-32 | a quotient with a non-zero denominator is the finite `|num| / |den|` |
| Wheels.SlipRatioClosedForm | src/lib/wheel.ts:30-36 | for non-zero speeds it is `min(1, |s - g| / max(|s|, |g|))` |
| Wheels.SlipRatioSymmetric | src/lib/wheel.ts:30-36 | it is symmetric in its two speeds |
| Wheels.SlipRatioEqualSpeeds | src/lib/wheel.ts:30-36 | it is 0 when the two speeds are equal |
| Wheels.MoveSpeedCases | src/lib/wheel.ts:93-94 | the drive is the grip-scaled speed difference when within `MAX_ACC * slipGrip`, otherwise that cap with the difference's sign |
| Wheels.MeasureBounds | src/lib/wheel.ts:38-94 | slip ratio and grip fraction are in `[0, 1]`, and `|moveSpeed| <= MAX_ACC * slipGrip` with `MAX_ACC = 0.2` |
| Wheels.MeasureWithoutGrip | src/lib/wheel.ts:83-94 | with zero `maxGrip` there is no drive |
| Wheels.MeasureAtRest | src/lib/wheel.ts:85-94 | a wheel at rest and not spinning reads slip 0 and drive 0 |
| Wheels.ApplySpin | src/lib/wheel.ts:99-106 | `w' = (w - moveSpeed/radius) * (angularFriction - brakePressure*brakeFrictionIncrease)` and `rotationAngle' = rotationAngle + w'` |
| Wheels.ApplyWithoutGrip | src/lib/wheel.ts:83-105 | with zero grip the point, and so its velocity, is unchanged |
| Wheels.StepWithoutGrip | src/lib/wheel.ts:80-107 | with zero grip the update keeps the point and only damps the spin |
| Wheels.StepAtRest | src/lib/wheel.ts:80-107 | a wheel at rest and not spinning is left unchanged |
| Wheels.DriveAlongHeading | src/lib/wheel.ts:96-97 | the drive adds `moveSpeed * maxGrip` to the speed along the heading and nothing sideways |
| Wheels.ScrubAcrossHeading | src/lib/wheel.ts:103-105 | the scrub removes exactly `sideways` from the sideways speed and keeps the speed along the heading |
| Wheels.ApplyGroundSpeed | src/lib/wheel.ts:96-105 | after the update the speed along the heading has gained exactly `moveSpeed * maxGrip` |
| Wheels.ApplySidewaysSpeed | src/lib/wheel.ts:96-105 | after the update the sideways speed has been scaled by `1 - velFriction * (1 - slipRatio)` |
| Wheels.StepAlongHeading | src/lib/wheel.ts:80-107 | the two facts above for the full update, with the readings it takes |
| Wheels.Wheel.constructor | src/lib/wheel.ts:47-50 | the wheel's point becomes a still point of the configured mass at the given position, heading 0, not turned and not spinning; the other points are kept |
| Wheels.Wheel.Measurements | src/lib/wheel.ts:81-94 | the readings the update takes before it writes |
| Wheels.Wheel.DriveStep | src/lib/wheel.ts:96-97 | only the wheel's point velocity changes, by the drive |
| Wheels.Wheel.SpinStep | src/lib/wheel.ts:99-100 | only the spin changes, to `Spin` |
| Wheels.Wheel.ScrubStep | src/lib/wheel.ts:102-105 | only the wheel's point velocity changes, by the scrub |
| Wheels.Wheel.Update | src/lib/wheel.ts:80-107 | the wheel's state afterwards is `Step` of its state before; no other point of the array changes, and the heading, position and mass are kept |
| Vehicles.Merge | src/lib/vehicles/index.ts:46-48 | the value `applyInput` stores: `{ ...inputs, ...input }`, field by field |
| Vehicles.MergeFields | src/lib/vehicles/index.ts:46-48 | `applyInput` overwrites exactly the fields given and keeps every omitted field |
| Vehicles.MergeNothing | src/lib/vehicles/index.ts:46-48 | `applyInput({})` changes nothing |
| Vehicles.MergeIdempotent | src/lib/vehicles/index.ts:46-48 | applying the same partial input twice equals applying it once |
| Vehicles.MergeSequential | src/lib/vehicles/index.ts:46-48 | two calls equal one call with the later fields laid over the earlier |
| Vehicles.MergeWhole | src/lib/vehicles/index.ts:46-48 | a complete input replaces the inputs outright |
| Vehicles.TireUpdate | src/lib/vehicles/index.ts:51 | the value the source computes for one wheel at line 51: `wheel.update(callback(wheel))` as a function of the wheel's state |
| Vehicles.TiresAfter | src/lib/vehicles/index.ts:51 | the wheels the loop at line 51 leaves: each with the spin, rotation angle and velocity its update wrote |
| Vehicles.TireUpdateKeepsFrame | src/lib/vehicles/index.ts:51 | a wheel update writes neither its point's position, its mass nor its heading |
| Vehicles.WheelPass | src/lib/vehicles/index.ts:51 | the wheel loop keeps every position and mass |
| Vehicles.WheelPassUntouched | src/lib/vehicles/index.ts:51 | a point that is no wheel is not changed by the loop |
| Vehicles.OnBodyConcat | src/lib/vehicles/index.ts:51 | a wheel list lies on the body exactly when both its parts do |
| Vehicles.WheelPassConcat | src/lib/vehicles/index.ts:51 | the loop over `a + b` is the loop over `a` followed by the loop over `b` |
| Vehicles.WheelsIndependent | src/lib/vehicles/index.ts:51 | with distinct wheels, each wheel reads its own point as the tick began |
| Vehicles.WheelPassParallel | src/lib/vehicles/index.ts:51 | with distinct wheels, each wheel's point afterwards is its own update of its starting state |
| Vehicles.WheelLoopIsParallel | src/lib/vehicles/index.ts:51 | the tire update of each wheel, as the loop runs it, is `Step` of its starting state with the payload the callback gives |
| Vehicles.TiresAfterKeepHeadings | src/lib/vehicles/index.ts:51 | the loop keeps every wheel's index, configuration and heading |
| Vehicles.WheelPassKeepsTickReady | src/lib/vehicles/index.ts:51-52 | the body tick can still run after the wheel loop |
| Vehicles.Vehicle.constructor | src/lib/vehicles/index.ts:34-44 | the vehicle holds the given body and wheels, with inputs throttle 0, brake 0, steer 0, driveTrain RWD |
| Vehicles.Vehicle.ApplyInput | src/lib/vehicles/index.ts:46-48 | the inputs become the merge of the old inputs and the partial input |
| Vehicles.Vehicle.Update | src/lib/vehicles/index.ts:50-53 | each wheel is updated once, in list order, with the callback's payload; then the body ticks once on the points the wheels left; the inputs are not touched |
| Vehicles.Vehicle.RunWheels | src/lib/vehicles/index.ts:51 | the wheel loop, in place, equals `WheelPass` and `TiresAfter` |
| Vehicles.Vehicle.WheelAt | src/lib/vehicles/index.ts:51 | one iteration of the wheel loop extends the loop by that wheel |
| Cars.MaxSteer | src/lib/vehicles/car.ts:19 | the value of `maxSteer`: `pi/3` |
| Cars.Layout | src/lib/vehicles/car.ts:22-37 | the six starting positions the constructor computes: FL, FR, RL, RR, then the two frame points at `y = -10` |
| Cars.InitialPoints | src/lib/vehicles/car.ts:22-38 | the points the constructor builds: still, at the layout positions, with the front and rear wheel masses and mass 1 for the frame points |
| Cars.InitialTires | src/lib/vehicles/car.ts:22-32 | the four wheels the constructor builds: on points 0 to 3, with their configurations, heading 0, not turned and not spinning |
| Cars.CarConstraints | src/lib/vehicles/car.ts:40-56 | the constraints the constructor's body holds: the 15 pairs at their starting distances |
| Cars.AxleAngle | src/lib/vehicles/car.ts:66-71 | the value `axelAngle` computes: `atan2` of the rear-right minus rear-left offset, less `pi/2` |
| Cars.FrontHeading | src/lib/vehicles/car.ts:76-77 | the value the source computes at lines 76-77: the axle angle plus `steer * maxSteer` |
| Cars.Steered | src/lib/vehicles/car.ts:74-77 | the wheels after lines 74-77: the rear two headed along the axle, the front two along the front heading |
| Cars.CarPairsFit | src/lib/vehicles/car.ts:40-56 | every one of the 15 indices lies in 0..5, so building the body never fails |
| Cars.CarPairsComplete | src/lib/vehicles/car.ts:40-56 | the 15 pairs are exactly the distinct unordered pairs of the 6 points: no self-pair, each pair present, none repeated |
| Cars.LayoutMirror | src/lib/vehicles/car.ts:22-37 | the left and right wheel of each axle, and the two frame points, mirror each other about `x = 0` |
| Cars.AxleLengths | src/lib/vehicles/car.ts:22-46 | pair (2,3) rests at `|width|` and pair (0,1) at `|width - 2*dip|` |
| Cars.SideBySide | src/lib/vehicles/car.ts:22-25 | two points on the same row lie their x separation apart |
| Cars.CarReady | src/lib/vehicles/car.ts:21-64 | a new car's body can tick exactly when both wheel masses are positive and no two starting points coincide |
| Cars.CarConstraintAt | src/lib/vehicles/car.ts:34-56 | constraint `k` joins the two points of pair `k`, which are different points of the layout, at their starting distance |
| Cars.ReadyIsApart | src/lib/vehicles/car.ts:21-64 | one direction of `CarReady` |
| Cars.ApartIsReady | src/lib/vehicles/car.ts:21-64 | the other direction of `CarReady` |
| Cars.SteeredHeadings | src/lib/vehicles/car.ts:74-77 | both rear wheels head along the axle angle, both front wheels are equal and lead by `steer * pi/3` (at most `pi/3` for steer in `[-1, 1]`) |
| Cars.Car.constructor | src/lib/vehicles/car.ts:21-64 | the points are FL, FR, RL, RR then the frame points, at their starting positions, with the wheel masses; the constraints are the 15 pairs at their starting distances; the wheels are the first four points, heading 0; the inputs are the defaults |
| Cars.Car.Parts | src/lib/vehicles/car.ts:22-38 | the six fresh points at their starting positions, and the four fresh wheels on the first four of them |
| Cars.Car.CurrentAxleAngle | src/lib/vehicles/car.ts:66-71 | the value the getter `axelAngle` computes on the car's current rear wheel positions |
| Cars.Car.Steer | src/lib/vehicles/car.ts:74-77 | the rear wheels take the axle angle, the front wheels the axle angle plus `steer * maxSteer` |
| Cars.Car.Update | src/lib/vehicles/car.ts:73-80 | the headings are set first, and the vehicle update then runs on the steered wheels |
| Prototype.SlipGrip | src/main.tsx:46-47 | the value this `compuleSlipProfile` computes: 1 below the profile's slip ratio, otherwise `1 - slope*(value - slipRatio)^2` clamped to at least 0 |
| Prototype.MaxGrip | src/main.tsx:108 | the value the source computes at line 108: `grip * surfaceGrip * contactPercent` |
| Prototype.GroundSpeed | src/main.tsx:88-90 | the value `wheelGroundSpeed` returns: `velocity.x` |
| Prototype.SurfaceSpeed | src/main.tsx:101-103 | the value `wheelSurfaceSpeed` computes: radius times spin |
| Prototype.MoveSpeed | src/main.tsx:117-121 | the value the source computes at lines 117-121: the grip-scaled speed difference clamped to `0.1 * slipGrip` |
| Prototype.SpinFactor | src/main.tsx:129 | the value the source computes at line 129: `angularFriction - brakePressure * 0.5` |
| Prototype.Spin | src/main.tsx:128-129 | the value the source computes at lines 128-129: the spin less `moveSpeed/radius`, times the damping |
| Prototype.VelFriction | src/main.tsx:132 | the value the source computes at line 132: `1 - (1 - contactFriction) * maxGrip` |
| Prototype.Friction | src/main.tsx:133-134 | the value the source computes at lines 133-134: both velocity components times the friction factor |
| Prototype.Measure | src/main.tsx:106-121 | the readings the source computes at lines 106-121 before it writes |
| Prototype.Apply | src/main.tsx:125-136 | the state the source writes at lines 125-136 for given readings |
| Prototype.Step | src/main.tsx:105-138 | the state `update(payload)` leaves: the readings taken first, then the writes |
| Prototype.SlipGripBounds | src/main.tsx:46-47 | the grip fraction is at least 0 and 1 below the threshold; for `slope >= 0` it is at most 1 and equals the library's |
| Prototype.SlipGripAboveOne | src/main.tsx:46-47 | for a negative slope, above the threshold it exceeds 1: there is no upper clamp |
| Prototype.LibrarySlipGrip | src/main.tsx:46-47 | the library's grip curve is this one clamped to 1 |
| Prototype.SlipRatio | src/main.tsx:49-55 | the slip ratio is always a finite number |
| Prototype.SlipRatioZeroSpeeds | src/main.tsx:49-55 | it is 0 when both speeds are 0 and 1 when exactly one is |
| Prototype.SlipRatioClosedForm | src/main.tsx:49-55 | for non-zero speeds it is `|s - g| / max(|s|, |g|)`, unclamped |
| Prototype.SlipRatioNonNegative | src/main.tsx:49-55 | it is never negative |
| Prototype.LibrarySlipRatio | src/main.tsx:49-55 | the library's slip ratio is this one clamped to 1 |
| Prototype.SlipRatioOppositeSigns | src/main.tsx:49-55 | when the two speeds have opposite signs it exceeds 1 |
| Prototype.SlipRatioReversed | src/main.tsx:49-55 | ground speed 1 against surface speed -1 gives 2 |
| Prototype.MeasureBounds | src/main.tsx:68-121 | slip ratio and grip fraction are non-negative, `|moveSpeed| <= 0.1 * slipGrip`, and for `slope >= 0` at most 0.1 |
| Prototype.MoveSpeedTowardsSurface | src/main.tsx:121 | with non-negative grip the drive pushes the ground speed towards the surface speed |
| Prototype.MoveSpeedNoOvershoot | src/main.tsx:121 | with `maxGrip <= 1` the drive is no larger than the speed difference |
| Prototype.ApplyMotion | src/main.tsx:125-136 | the drive goes only into `velocity.x`; both components are scaled by `1 - (1 - contactFriction)*maxGrip`; the spin is updated with the brake factor 0.5; the position advances by the final velocity; the heading is kept |
| Prototype.StepMotion | src/main.tsx:105-138 | the same for the full update, with the readings it takes |
| Prototype.StepIgnoresHeading | src/main.tsx:88-138 | the heading neither affects the update nor is changed by it |
| Prototype.ApplyLossless | src/main.tsx:125-133 | without damping or contact friction, ground speed plus surface speed is conserved |
| Prototype.StepLossless | src/main.tsx:105-138 | the same for the full update |
| Prototype.MeasureWithoutGrip | src/main.tsx:108-121 | with zero grip there is no drive |
| Prototype.ApplyWithoutDrive | src/main.tsx:125-136 | without drive and grip the velocity is kept and the position advances by it |
| Prototype.StepWithoutGrip | src/main.tsx:105-138 | with zero grip the velocity is kept, the position advances by it and the spin is only damped |
| Prototype.StepAtRest | src/main.tsx:105-138 | a wheel at rest and not spinning is left unchanged |
| Prototype.DemoFirstFrame | src/main.tsx:141-172 | the demo wheel (radius 10, grip 0.8, spin -2, velocity 2) reads slip 1.1, grip fraction 0.4 and drive -0.04 in its first frame, and ends it with velocity 1.945888 and spin -1.9461 |
| Prototype.Wheel.constructor | src/main.tsx:70-81 | a new wheel is at the origin, still, heading 0, not turned and not spinning |
| Prototype.Wheel.Measurements | src/main.tsx:105-121 | the readings the update takes before it writes |
| Prototype.Wheel.SpinStep | src/main.tsx:128-129 | only the spin changes |
| Prototype.Wheel.FrictionStep | src/main.tsx:132-134 | only the velocity changes, scaled by the friction factor |
| Prototype.Wheel.Update | src/main.tsx:105-138 | the wheel's state afterwards is `Step` of its state before |

## Left out

- The user interface and timers are I/O, so they are not modelled. This covers the React/DOM mounting, the canvas drawing and `setInterval` in `src/main.tsx`, and the `console.log` calls.
- The `test()` helpers of `src/lib/beam.ts:104-120` and `src/lib/kine.ts:84-100` only print. The three-point example used by `Kine.LeftThenRight` is built in the model's own terms.
- Transcendental functions are opaque parameters (`Maths.MathLib`), not computed. This covers `Math.sqrt`, `Math.cos`, `Math.sin`, `Math.atan2` and `Math.PI`. The value of `axelAngle` is therefore abstract.
- The getters `groundSpeed` and `velocityDirection` of both wheels are not modelled, because no update uses them.
- `areRadiansOverPI2Apart` (`src/main.tsx:57-67`) is not modelled. It is reached only from the unreachable lines `src/main.tsx:91-93`, which follow an unconditional `return`. Those lines are not modelled either.
- IEEE-754 rounding and overflow are not modelled. All arithmetic is over exact reals.
  - The NaN and infinite results of the slip-ratio quotients are kept, as the `Num` datatype.
  - `Wheels.SlipRatioGuards` proves what an explicit zero-speed case split would state. The 0/0 guard fires exactly when both speeds are zero, and the Infinity guard (`src/lib/wheel.ts:34`, `src/main.tsx:53`) can never fire.
- Unguarded divisions become preconditions instead of invented behaviour:
  - distinct endpoint positions and positive masses for a correction (`TickReady`, `Relaxable`). With a lawful square root this excludes every self-pair, a constraint from a point to itself, because its distance is 0: the source computes `(0 - 0) / 0`, which is NaN, and writes it into the velocities (in `src/lib/kine.ts`, into the positions too);
  - a non-zero total mass for `centerOfMass`;
  - a non-zero wheel radius for a wheel update.
- Wheels.Wheel.Update: shared position objects are modelled as one shared point array indexed by the wheels. Aliasing between separately built `Vector` objects is not modelled, and neither is a caller that passes the same `Vector` to two points.
- Vehicles.Vehicle.Update: it requires the wheels to be pairwise distinct points of the body. The source's `update` accepts any list, and a wheel listed twice would update twice. A `Car` always meets this requirement.
- Beam.BeamBody.Update: the source accepts the same `BeamPoint` object at two indices (`new BeamBody([p, p], ...)`), so that a write to one index shows at the other. An array of point values cannot express this; a `Car` never builds such a body.
- Vehicles.Vehicle.Update: the update callback is a pure function of the wheel's configuration and state. A callback with side effects is not modelled.
- Vehicles.TireUpdate: its zero-radius branch is never taken, because `Vehicles.Vehicle.Update` requires every radius to be non-zero.
- `Partial<VehicleInput>` is a record of optional fields. Only absent fields are modelled; a field explicitly set to `undefined` is not.
- Cars.Car.constructor: a `Car` holds a `Vehicle` instead of extending it. The `maxSteer` field is the function `MaxSteer`, since nothing reassigns it.
- Several source operations are split into helper methods so that each proof stays small:
  - the wheel loop (`RunWheels`, `WheelAt`);
  - the car's part construction (`Parts`);
  - the wheel update phases (`Measurements`, `DriveStep`, `SpinStep`, `ScrubStep`, `FrictionStep`).

  Each is proved against the same specification function as the whole operation.
- The `./types` module is not part of this model. `Vector` is a pair of reals, and the range aliases are plain reals.
