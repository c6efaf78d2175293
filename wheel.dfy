/** The tire model of src/lib/wheel.ts. A wheel is one of the body's mass points with a heading,
    a spin and a tire configuration. Each update drives the point along its heading by the
    difference between surface and ground speed, limited by the available grip and a slip
    curve, brakes and damps the spin, and scrubs off part of the sideways speed. */
module Wheels {
  import opened Types
  import opened Maths
  import opened Util
  import opened Beam

  datatype WheelConfig = WheelConfig(
    radius: real,
    width: real,
    grip: real,
    angularFriction: real,
    contactFriction: real,
    brakeFrictionIncrease: real,
    mass: real)

  /** `SurfaceSlipProfile`: full grip up to the slip ratio `slipRatio`, then a parabolic loss. */
  datatype SlipProfile = SlipProfile(slipRatio: real, slope: real)

  /** `WheelUpdatePayload`: what the surface under the wheel offers in one update. */
  datatype Payload = Payload(surfaceGrip: real, contactPercent: real, brakePressure: real, slipProfile: SlipProfile)

  /** Cap on the drive applied to the point in one update. */
  const MAX_ACC: real := 0.2

  // ---------------------------------------------------------------------------------------
  // Slip curve

  /** `compuleSlipProfile`: the fraction of grip left at slip ratio `value`. */
  function SlipGrip(value: real, profile: SlipProfile): real {
    if value < profile.slipRatio then 1.0
    else Max(0.0, Min(1.0, -profile.slope * Square(value - profile.slipRatio) + 1.0))
  }

  /** The grip fraction is in `[0, 1]`, and full below the threshold. */
  lemma SlipGripBounds(value: real, profile: SlipProfile)
    ensures 0.0 <= SlipGrip(value, profile) <= 1.0
    ensures value < profile.slipRatio ==> SlipGrip(value, profile) == 1.0
  {
  }

  /** At the threshold itself the grip is still full. */
  lemma SlipGripAtThreshold(profile: SlipProfile)
    ensures SlipGrip(profile.slipRatio, profile) == 1.0
  {
    assert Square(profile.slipRatio - profile.slipRatio) == 0.0;
  }

  lemma SquareMonotone(a: real, b: real)
    requires 0.0 <= a <= b
    ensures Square(a) <= Square(b)
  {
    assert Square(b) - Square(a) == (b - a) * (b + a);
  }

  /** With a non-negative slope, more slip never means more grip. */
  lemma SlipGripNonIncreasing(a: real, b: real, profile: SlipProfile)
    requires 0.0 <= profile.slope && a <= b
    ensures SlipGrip(b, profile) <= SlipGrip(a, profile)
  {
    var t := profile.slipRatio;
    if t <= a {
      SquareMonotone(a - t, b - t);
      assert profile.slope * Square(a - t) <= profile.slope * Square(b - t);
    }
  }

  // ---------------------------------------------------------------------------------------
  // Slip ratio

  /** The IEEE-754 values a quotient of reals can take here: a finite number, positive infinity
      (a non-zero divided by zero, after `Math.abs`) or NaN (zero divided by zero). */
  datatype Num = Finite(value: real) | Infinity | NaN

  /** `Math.abs(num / den)`. */
  function AbsQuotient(num: real, den: real): Num {
    if den != 0.0 then Finite(Abs(num / den))
    else if num != 0.0 then Infinity
    else NaN
  }

  /** `Math.min` on the values above. */
  function NumMin(a: Num, b: Num): Num {
    if a.NaN? || b.NaN? then NaN
    else if a.Infinity? then b
    else if b.Infinity? then a
    else Finite(Min(a.value, b.value))
  }

  /** `Math.max(0, x)` on the values above. */
  function NumMaxZero(a: Num): Num {
    match a
    case NaN => NaN
    case Infinity => Infinity
    case Finite(v) => Finite(Max(0.0, v))
  }

  /** `getSlipRatio`: the relative difference between ground and surface speed, measured
      against both. It is always a number in `[0, 1]`: 0 when both speeds are zero, 1 when
      exactly one of them is. */
  function SlipRatio(groundSpeed: real, surfaceSpeed: real): (r: Num)
    ensures r.Finite?
  {
    var wheel := AbsQuotient(surfaceSpeed - groundSpeed, surfaceSpeed);
    var ground := AbsQuotient(groundSpeed - surfaceSpeed, groundSpeed);
    if wheel.NaN? && ground.NaN? then Finite(0.0)
    else if wheel.Infinity? && ground.Infinity? then Finite(0.0)
    else NumMaxZero(NumMin(Finite(1.0), NumMin(wheel, ground)))
  }

  lemma SlipRatioBounds(groundSpeed: real, surfaceSpeed: real)
    ensures 0.0 <= SlipRatio(groundSpeed, surfaceSpeed).value <= 1.0
    ensures groundSpeed == 0.0 && surfaceSpeed == 0.0 ==> SlipRatio(groundSpeed, surfaceSpeed).value == 0.0
    ensures (groundSpeed == 0.0) != (surfaceSpeed == 0.0) ==> SlipRatio(groundSpeed, surfaceSpeed).value == 1.0
  {
    var g, s := groundSpeed, surfaceSpeed;
    if s == 0.0 && g != 0.0 {
      assert (g - s) / g == 1.0;
    } else if g == 0.0 && s != 0.0 {
      assert (s - g) / s == 1.0;
    }
  }

  /** The guards for NaN and infinity are only half needed: both quotients are NaN together,
      exactly when both speeds are zero, and they are never both infinite. */
  lemma SlipRatioGuards(groundSpeed: real, surfaceSpeed: real)
    ensures AbsQuotient(surfaceSpeed - groundSpeed, surfaceSpeed).NaN?
        <==> groundSpeed == 0.0 && surfaceSpeed == 0.0
    ensures AbsQuotient(groundSpeed - surfaceSpeed, groundSpeed).NaN?
        <==> groundSpeed == 0.0 && surfaceSpeed == 0.0
    ensures !(AbsQuotient(surfaceSpeed - groundSpeed, surfaceSpeed).Infinity?
              && AbsQuotient(groundSpeed - surfaceSpeed, groundSpeed).Infinity?)
  {
  }

  lemma AbsQuotientOf(num: real, den: real)
    requires den != 0.0
    ensures AbsQuotient(num, den) == Finite(Abs(num) / Abs(den))
  {
    if den < 0.0 {
      assert num / den == (-num) / (-den);
    }
  }

  /** A non-negative numerator over a larger positive denominator gives a smaller quotient. */
  lemma DivAntitone(n: real, x: real, y: real)
    requires 0.0 <= n && 0.0 < x <= y
    ensures n / y <= n / x
  {
    assert n / y * y == n;
    assert n / x * x == n;
    assert (n / x - n / y) * y == (n / x) * (y - x) + (n / x) * x - n;
    assert (n / x) * (y - x) >= 0.0;
  }

  /** For two non-zero speeds the slip ratio is `min(1, |s - g| / max(|s|, |g|))`. */
  lemma SlipRatioClosedForm(groundSpeed: real, surfaceSpeed: real)
    requires groundSpeed != 0.0 && surfaceSpeed != 0.0
    ensures SlipRatio(groundSpeed, surfaceSpeed).value
         == Min(1.0, Abs(surfaceSpeed - groundSpeed) / Max(Abs(surfaceSpeed), Abs(groundSpeed)))
  {
    var g, s := groundSpeed, surfaceSpeed;
    var d := Abs(s - g);
    assert Abs(g - s) == d;
    AbsQuotientOf(s - g, s);
    AbsQuotientOf(g - s, g);
    assert 0.0 <= d / Abs(s) && 0.0 <= d / Abs(g);
    if Abs(s) <= Abs(g) {
      DivAntitone(d, Abs(s), Abs(g));
    } else {
      DivAntitone(d, Abs(g), Abs(s));
    }
  }

  /** Swapping the two speeds does not change the slip ratio. */
  lemma SlipRatioSymmetric(a: real, b: real)
    ensures SlipRatio(a, b) == SlipRatio(b, a)
  {
    if a != 0.0 && b != 0.0 {
      SlipRatioClosedForm(a, b);
      SlipRatioClosedForm(b, a);
      assert Abs(b - a) == Abs(a - b);
    }
  }

  /** A wheel rolling exactly at ground speed does not slip. */
  lemma SlipRatioEqualSpeeds(speed: real)
    ensures SlipRatio(speed, speed).value == 0.0
  {
  }

  // ---------------------------------------------------------------------------------------
  // One update

  /** What `update` reads and writes: the wheel's own mass point, its heading, its rotation
      angle and its spin. */
  datatype WheelState = WheelState(point: BeamPoint, direction: real, rotationAngle: real, angularVelocity: real)

  /** `grip * surfaceGrip * contactPercent` */
  function MaxGrip(config: WheelConfig, payload: Payload): real {
    config.grip * payload.surfaceGrip * payload.contactPercent
  }

  /** `wheelGroundSpeed`: the velocity's component along the heading `d`. */
  function GroundSpeed(m: MathLib, v: Vec, d: real): real {
    v.x * m.cos(d) + v.y * m.sin(d)
  }

  /** `directionSide` */
  function SideDirection(m: MathLib, d: real): real { d + m.pi / 2.0 }

  /** `wheelSidewaysSpeed`: the velocity's component along the side direction. */
  function SidewaysSpeed(m: MathLib, v: Vec, d: real): real {
    v.x * m.cos(SideDirection(m, d)) + v.y * m.sin(SideDirection(m, d))
  }

  /** `wheelSurfaceSpeed` */
  function SurfaceSpeed(config: WheelConfig, angularVelocity: real): real {
    config.radius * angularVelocity
  }

  /** The drive of one update: the speed difference scaled by the grip, clamped to `MAX_ACC`
      times the grip the slip curve leaves. */
  function MoveSpeed(groundSpeed: real, surfaceSpeed: real, maxGrip: real, slipGrip: real): real {
    LimitValue((surfaceSpeed - groundSpeed) * maxGrip, MAX_ACC * slipGrip)
  }

  /** `velFriction` */
  function VelFriction(config: WheelConfig, maxGrip: real, slipGrip: real): real {
    ((1.0 - config.contactFriction) * maxGrip) * slipGrip
  }

  /** The spin damping factor `angularFriction - brakePressure * brakeFrictionIncrease`. */
  function SpinFactor(config: WheelConfig, payload: Payload): real {
    config.angularFriction - payload.brakePressure * config.brakeFrictionIncrease
  }

  /** Velocity `v` plus the drive `move` along heading `d`, scaled by the grip. */
  function Drive(m: MathLib, v: Vec, d: real, move: real, maxGrip: real): Vec {
    Vec(v.x + move * m.cos(d) * maxGrip, v.y + move * m.sin(d) * maxGrip)
  }

  /** Velocity `v` less `sideways` along the side direction of heading `d`. */
  function Scrubbed(m: MathLib, v: Vec, d: real, sideways: real): Vec {
    var side := SideDirection(m, d);
    Vec(v.x - sideways * m.cos(side), v.y - sideways * m.sin(side))
  }

  /** The sideways speed the scrub removes from velocity `v`: its sideways component, scaled by
      the friction and by the grip the slip leaves. */
  function Shed(m: MathLib, config: WheelConfig, v: Vec, d: real, q: Readings): real {
    SidewaysSpeed(m, v, d) * VelFriction(config, q.maxGrip, q.slipGrip) * (1.0 - q.slipRatio)
  }

  /** Velocity `v` after the scrub. */
  function Scrub(m: MathLib, config: WheelConfig, v: Vec, d: real, q: Readings): Vec {
    Scrubbed(m, v, d, Shed(m, config, v, d, q))
  }

  /** The spin after the drive's reaction and the damping. */
  function Spin(config: WheelConfig, payload: Payload, angularVelocity: real, move: real): real
    requires config.radius != 0.0
  {
    (angularVelocity - move / config.radius) * SpinFactor(config, payload)
  }

  /** The quantities an update derives from the state before it writes anything. */
  datatype Readings = Readings(
    maxGrip: real,
    groundSpeed: real,
    surfaceSpeed: real,
    slipRatio: real,
    slipGrip: real,
    moveSpeed: real)

  function Measure(m: MathLib, config: WheelConfig, payload: Payload, w: WheelState): Readings {
    var maxGrip := MaxGrip(config, payload);
    var groundSpeed := GroundSpeed(m, w.point.velocity, w.direction);
    var surfaceSpeed := SurfaceSpeed(config, w.angularVelocity);
    var slipRatio := SlipRatio(groundSpeed, surfaceSpeed).value;
    var slipGrip := SlipGrip(slipRatio, payload.slipProfile);
    Readings(maxGrip, groundSpeed, surfaceSpeed, slipRatio, slipGrip,
             MoveSpeed(groundSpeed, surfaceSpeed, maxGrip, slipGrip))
  }

  /** The writes of `update(payload)` for given readings: drive along the heading, update the
      spin, then scrub the sideways speed measured after the drive. */
  function Apply(m: MathLib, config: WheelConfig, payload: Payload, w: WheelState, q: Readings): WheelState
    requires config.radius != 0.0
  {
    var v1 := Drive(m, w.point.velocity, w.direction, q.moveSpeed, q.maxGrip);
    var spin := Spin(config, payload, w.angularVelocity, q.moveSpeed);
    WheelState(w.point.(velocity := Scrub(m, config, v1, w.direction, q)), w.direction, w.rotationAngle + spin, spin)
  }

  /** `update(payload)`: the readings taken first, then the writes. */
  function Step(m: MathLib, config: WheelConfig, payload: Payload, w: WheelState): WheelState
    requires config.radius != 0.0
  {
    Apply(m, config, payload, w, Measure(m, config, payload, w))
  }

  /** When the grip-scaled speed difference is within the cap the drive is exactly that
      difference; above the cap it is the cap itself, with the difference's sign; either way it
      is no larger than the cap or the difference. */
  lemma MoveSpeedCases(groundSpeed: real, surfaceSpeed: real, maxGrip: real, slipGrip: real)
    requires 0.0 <= slipGrip
    ensures var t, cap, r := (surfaceSpeed - groundSpeed) * maxGrip, MAX_ACC * slipGrip,
                             MoveSpeed(groundSpeed, surfaceSpeed, maxGrip, slipGrip);
      && (Abs(t) <= cap ==> r == t)
      && (t > cap ==> r == cap)
      && (t < -cap ==> r == -cap)
      && Abs(r) <= cap && Abs(r) <= Abs(t)
  {
    LimitValueBounds((surfaceSpeed - groundSpeed) * maxGrip, MAX_ACC * slipGrip);
    LimitValueMagnitude((surfaceSpeed - groundSpeed) * maxGrip, MAX_ACC * slipGrip);
  }

  /** The slip ratio and the grip fraction are in `[0, 1]`, and the drive is at most `MAX_ACC`
      times the grip fraction. */
  lemma MeasureBounds(m: MathLib, config: WheelConfig, payload: Payload, w: WheelState)
    ensures var q := Measure(m, config, payload, w);
      && 0.0 <= q.slipRatio <= 1.0
      && 0.0 <= q.slipGrip <= 1.0
      && Abs(q.moveSpeed) <= MAX_ACC * q.slipGrip
  {
    var q := Measure(m, config, payload, w);
    SlipRatioBounds(q.groundSpeed, q.surfaceSpeed);
    SlipGripBounds(q.slipRatio, payload.slipProfile);
    MoveSpeedCases(q.groundSpeed, q.surfaceSpeed, q.maxGrip, q.slipGrip);
  }

  /** Without grip there is no drive. */
  lemma MeasureWithoutGrip(m: MathLib, config: WheelConfig, payload: Payload, w: WheelState)
    requires MaxGrip(config, payload) == 0.0
    ensures Measure(m, config, payload, w).moveSpeed == 0.0
  {
    var q := Measure(m, config, payload, w);
    assert (q.surfaceSpeed - q.groundSpeed) * q.maxGrip == 0.0;
    MeasureBounds(m, config, payload, w);
  }

  /** A wheel that neither moves nor spins measures no slip and no drive. */
  lemma MeasureAtRest(m: MathLib, config: WheelConfig, payload: Payload, w: WheelState)
    requires w.point.velocity == Zero && w.angularVelocity == 0.0
    ensures Measure(m, config, payload, w).slipRatio == 0.0
    ensures Measure(m, config, payload, w).moveSpeed == 0.0
  {
    var q := Measure(m, config, payload, w);
    assert q.groundSpeed == 0.0 && q.surfaceSpeed == 0.0;
    SlipRatioBounds(q.groundSpeed, q.surfaceSpeed);
    MeasureBounds(m, config, payload, w);
  }

  /** The new spin is the old spin less the drive over the radius, damped by the friction and
      the brake; the rotation angle advances by the new spin; position, mass and heading are
      kept. */
  lemma ApplySpin(m: MathLib, config: WheelConfig, payload: Payload, w: WheelState, q: Readings)
    requires config.radius != 0.0
    ensures var r := Apply(m, config, payload, w, q);
      && r.angularVelocity == Spin(config, payload, w.angularVelocity, q.moveSpeed)
      && r.angularVelocity == (w.angularVelocity - q.moveSpeed / config.radius) * SpinFactor(config, payload)
      && r.rotationAngle == w.rotationAngle + r.angularVelocity
      && r.point.position == w.point.position && r.point.mass == w.point.mass
      && r.direction == w.direction
  {
  }

  /** Without drive and without grip the point's velocity is kept. */
  lemma ApplyWithoutGrip(m: MathLib, config: WheelConfig, payload: Payload, w: WheelState, q: Readings)
    requires config.radius != 0.0 && q.maxGrip == 0.0
    ensures Apply(m, config, payload, w, q).point == w.point
  {
    assert VelFriction(config, q.maxGrip, q.slipGrip) == 0.0;
    assert Drive(m, w.point.velocity, w.direction, q.moveSpeed, q.maxGrip) == w.point.velocity;
  }

  /** Without grip (no tire grip, no surface grip or no contact) the point's velocity is left
      exactly as it was and the spin only decays. */
  lemma StepWithoutGrip(m: MathLib, config: WheelConfig, payload: Payload, w: WheelState)
    requires config.radius != 0.0 && MaxGrip(config, payload) == 0.0
    ensures Step(m, config, payload, w).point == w.point
    ensures Step(m, config, payload, w).angularVelocity == w.angularVelocity * SpinFactor(config, payload)
  {
    var q := Measure(m, config, payload, w);
    MeasureWithoutGrip(m, config, payload, w);
    ApplyWithoutGrip(m, config, payload, w, q);
    ApplySpin(m, config, payload, w, q);
  }

  /** A wheel that neither moves nor spins stays as it is. */
  lemma StepAtRest(m: MathLib, config: WheelConfig, payload: Payload, w: WheelState)
    requires config.radius != 0.0 && w.point.velocity == Zero && w.angularVelocity == 0.0
    ensures Step(m, config, payload, w) == w
  {
    var q := Measure(m, config, payload, w);
    MeasureAtRest(m, config, payload, w);
    assert Drive(m, w.point.velocity, w.direction, q.moveSpeed, q.maxGrip) == Zero;
    assert SidewaysSpeed(m, Zero, w.direction) == 0.0;
    assert Scrubbed(m, Zero, w.direction, 0.0) == Zero;
  }

  /** With a true unit heading, the drive changes only the speed along the heading, by
      `move * maxGrip`. */
  lemma DriveAlongHeading(m: MathLib, v: Vec, d: real, move: real, maxGrip: real)
    requires HeadingLaw(m, d)
    ensures GroundSpeed(m, Drive(m, v, d, move, maxGrip), d) == GroundSpeed(m, v, d) + move * maxGrip
    ensures SidewaysSpeed(m, Drive(m, v, d, move, maxGrip), d) == SidewaysSpeed(m, v, d)
  {
    var c, s := m.cos(d), m.sin(d);
    var t := move * maxGrip;
    assert move * c * maxGrip == t * c && move * s * maxGrip == t * s;
    assert (v.x + t * c) * c + (v.y + t * s) * s == v.x * c + v.y * s + t * (c * c + s * s);
    assert (v.x + t * c) * -s + (v.y + t * s) * c == v.x * -s + v.y * c;
  }

  /** With a true unit heading, the scrub changes only the sideways speed, by `sideways`. */
  lemma ScrubAcrossHeading(m: MathLib, v: Vec, d: real, sideways: real)
    requires HeadingLaw(m, d)
    ensures GroundSpeed(m, Scrubbed(m, v, d, sideways), d) == GroundSpeed(m, v, d)
    ensures SidewaysSpeed(m, Scrubbed(m, v, d, sideways), d) == SidewaysSpeed(m, v, d) - sideways
  {
    var c, s, k := m.cos(d), m.sin(d), sideways;
    assert Scrubbed(m, v, d, sideways) == Vec(v.x - k * -s, v.y - k * c);
    assert (v.x - k * -s) * c + (v.y - k * c) * s == v.x * c + v.y * s;
    assert (v.x - k * -s) * -s + (v.y - k * c) * c == v.x * -s + v.y * c - k * (c * c + s * s);
  }

  /** Proof helper: `Shed` in terms of a known sideways component `sv`. */
  lemma ShedOf(m: MathLib, config: WheelConfig, v: Vec, d: real, q: Readings, sv: real)
    requires SidewaysSpeed(m, v, d) == sv
    ensures Shed(m, config, v, d, q) == sv * (VelFriction(config, q.maxGrip, q.slipGrip) * (1.0 - q.slipRatio))
  {
  }

  /** With a true unit heading, the writes add `moveSpeed * maxGrip` to the speed along the
      heading. */
  lemma ApplyGroundSpeed(m: MathLib, config: WheelConfig, payload: Payload, w: WheelState, q: Readings)
    requires config.radius != 0.0 && HeadingLaw(m, w.direction)
    ensures GroundSpeed(m, Apply(m, config, payload, w, q).point.velocity, w.direction)
         == GroundSpeed(m, w.point.velocity, w.direction) + q.moveSpeed * q.maxGrip
  {
    var d := w.direction;
    var v1 := Drive(m, w.point.velocity, d, q.moveSpeed, q.maxGrip);
    assert Apply(m, config, payload, w, q).point.velocity == Scrub(m, config, v1, d, q);
    DriveAlongHeading(m, w.point.velocity, d, q.moveSpeed, q.maxGrip);
    ScrubAcrossHeading(m, v1, d, Shed(m, config, v1, d, q));
  }

  /** With a true unit heading, the writes scale the sideways speed by
      `1 - velFriction * (1 - slipRatio)`. */
  lemma ApplySidewaysSpeed(m: MathLib, config: WheelConfig, payload: Payload, w: WheelState, q: Readings)
    requires config.radius != 0.0 && HeadingLaw(m, w.direction)
    ensures SidewaysSpeed(m, Apply(m, config, payload, w, q).point.velocity, w.direction)
         == SidewaysSpeed(m, w.point.velocity, w.direction)
            * (1.0 - VelFriction(config, q.maxGrip, q.slipGrip) * (1.0 - q.slipRatio))
  {
    var d := w.direction;
    var v1 := Drive(m, w.point.velocity, d, q.moveSpeed, q.maxGrip);
    var sv := SidewaysSpeed(m, w.point.velocity, d);
    var f := VelFriction(config, q.maxGrip, q.slipGrip) * (1.0 - q.slipRatio);
    assert Apply(m, config, payload, w, q).point.velocity == Scrub(m, config, v1, d, q);
    DriveAlongHeading(m, w.point.velocity, d, q.moveSpeed, q.maxGrip);
    ShedOf(m, config, v1, d, q, sv);
    ScrubAcrossHeading(m, v1, d, Shed(m, config, v1, d, q));
    assert sv - sv * f == sv * (1.0 - f);
  }

  /** With a true unit heading, one update changes the speed along the heading by the drive
      times the grip, and the sideways speed only by the scrub. */
  lemma StepAlongHeading(m: MathLib, config: WheelConfig, payload: Payload, w: WheelState, q: Readings)
    requires config.radius != 0.0 && HeadingLaw(m, w.direction)
    requires q == Measure(m, config, payload, w)
    ensures GroundSpeed(m, Step(m, config, payload, w).point.velocity, w.direction)
         == GroundSpeed(m, w.point.velocity, w.direction) + q.moveSpeed * q.maxGrip
    ensures SidewaysSpeed(m, Step(m, config, payload, w).point.velocity, w.direction)
         == SidewaysSpeed(m, w.point.velocity, w.direction)
            * (1.0 - VelFriction(config, q.maxGrip, q.slipGrip) * (1.0 - q.slipRatio))
  {
    assert Step(m, config, payload, w) == Apply(m, config, payload, w, q);
    ApplyGroundSpeed(m, config, payload, w, q);
    ApplySidewaysSpeed(m, config, payload, w, q);
  }

  // ---------------------------------------------------------------------------------------
  // The wheel object

  /** A `Wheel` is the point `points[index]` of its body together with its own tire state;
      the body's solver and the wheel update write the same point. */
  class Wheel {
    const points: array<BeamPoint>
    const index: nat
    const config: WheelConfig
    var direction: real
    var rotationAngle: real
    var angularVelocity: real

    ghost predicate Valid()
      reads this
    {
      index < points.Length
    }

    function State(): WheelState
      reads this, points
      requires Valid()
    {
      WheelState(points[index], direction, rotationAngle, angularVelocity)
    }

    /** `new Wheel(position, config)`: a still point of the configured mass at `position`,
        heading 0, not spinning. */
    constructor (points: array<BeamPoint>, index: nat, position: Vec, config: WheelConfig)
      requires index < points.Length
      modifies points
      ensures this.points == points && this.index == index && this.config == config
      ensures Valid()
      ensures points[..] == old(points[..])[index := BeamPoint(position, Zero, config.mass)]
      ensures direction == 0.0 && rotationAngle == 0.0 && angularVelocity == 0.0
    {
      this.points := points;
      this.index := index;
      this.config := config;
      direction := 0.0;
      rotationAngle := 0.0;
      angularVelocity := 0.0;
      new;
      points[index] := BeamPoint(position, Zero, config.mass);
    }

    /** The readings `update(payload)` takes before it writes anything. */
    method Measurements(m: MathLib, payload: Payload) returns (q: Readings)
      requires Valid()
      ensures q == Measure(m, config, payload, State())
    {
      var maxGrip := MaxGrip(config, payload);
      var groundSpeed := GroundSpeed(m, points[index].velocity, direction);
      var surfaceSpeed := SurfaceSpeed(config, angularVelocity);
      var slipRatio := SlipRatio(groundSpeed, surfaceSpeed).value;
      var slipGrip := SlipGrip(slipRatio, payload.slipProfile);
      var moveSpeed := MoveSpeed(groundSpeed, surfaceSpeed, maxGrip, slipGrip);
      q := Readings(maxGrip, groundSpeed, surfaceSpeed, slipRatio, slipGrip, moveSpeed);
    }

    /** The drive: both velocity components pushed along the heading. */
    method DriveStep(m: MathLib, q: Readings)
      requires Valid()
      modifies points
      ensures points[..] == old(points[..])[index := old(points[index]).(velocity :=
        Drive(m, old(points[index]).velocity, direction, q.moveSpeed, q.maxGrip))]
    {
      var p := points[index];
      points[index] := p.(velocity := p.velocity.(x := p.velocity.x + q.moveSpeed * m.cos(direction) * q.maxGrip));
      p := points[index];
      points[index] := p.(velocity := p.velocity.(y := p.velocity.y + q.moveSpeed * m.sin(direction) * q.maxGrip));
      assert points[index].velocity == Drive(m, old(points[index]).velocity, direction, q.moveSpeed, q.maxGrip);
    }

    /** The spin: the drive's reaction taken off, then the damping. */
    method SpinStep(payload: Payload, move: real)
      requires config.radius != 0.0
      modifies this
      ensures angularVelocity == Spin(config, payload, old(angularVelocity), move)
      ensures direction == old(direction) && rotationAngle == old(rotationAngle)
    {
      angularVelocity := angularVelocity - move / config.radius;
      angularVelocity := angularVelocity * (config.angularFriction - payload.brakePressure * config.brakeFrictionIncrease);
    }

    /** The scrub: the sideways speed of the current velocity, scaled by the friction and the
        grip left, taken off along the side direction. */
    method ScrubStep(m: MathLib, q: Readings)
      requires Valid()
      modifies points
      ensures points[..] == old(points[..])[index := old(points[index]).(velocity :=
        Scrub(m, config, old(points[index]).velocity, direction, q))]
    {
      ghost var v := points[index].velocity;
      var velFriction := VelFriction(config, q.maxGrip, q.slipGrip);
      var sideways := SidewaysSpeed(m, points[index].velocity, direction) * velFriction * (1.0 - q.slipRatio);
      assert sideways == Shed(m, config, v, direction, q);
      var side := SideDirection(m, direction);
      var p := points[index];
      points[index] := p.(velocity := p.velocity.(x := p.velocity.x - sideways * m.cos(side)));
      p := points[index];
      points[index] := p.(velocity := p.velocity.(y := p.velocity.y - sideways * m.sin(side)));
      assert points[index].velocity == Scrubbed(m, v, direction, sideways);
    }

    /** `update(payload)`, in the source's order: readings, drive, spin, scrub, rotation. */
    method Update(m: MathLib, payload: Payload)
      requires Valid() && config.radius != 0.0
      modifies this, points
      ensures State() == Step(m, config, payload, old(State()))
      ensures points[..] == old(points[..])[index := points[index]]
    {
      ghost var w := State();
      var q := Measurements(m, payload);
      DriveStep(m, q);
      ghost var v1 := points[index].velocity;
      SpinStep(payload, q.moveSpeed);
      ScrubStep(m, q);
      rotationAngle := rotationAngle + angularVelocity;
      assert points[index] == w.point.(velocity := Scrub(m, config, v1, w.direction, q));
      assert State() == Apply(m, config, payload, w, q);
    }
  }
}
