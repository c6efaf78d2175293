/** The prototype wheel of src/main.tsx: one free wheel, driven along the x axis only, with its
    own slip curve (no upper clamp), its own slip ratio (neither clamped nor floored), half the
    brake pressure as spin damping and a drive cap of 0.1. The clamp `limitValue` it carries is
    the same as the library's, so `Util.LimitValue` serves both. */
module Prototype {
  import opened Types
  import opened Util
  import W = Wheels

  /** The prototype's `WheelConfig`: the library's without `brakeFrictionIncrease`. */
  datatype WheelConfig = WheelConfig(
    radius: real,
    width: real,
    grip: real,
    angularFriction: real,
    contactFriction: real,
    mass: real)

  /** Cap on the drive of one update. */
  const MAX_ACC: real := 0.1

  // ---------------------------------------------------------------------------------------
  // Slip curve

  /** `compuleSlipProfile`: full grip below the threshold, then the parabola floored at 0. */
  function SlipGrip(value: real, profile: W.SlipProfile): real {
    if value < profile.slipRatio then 1.0
    else Max(0.0, -profile.slope * Square(value - profile.slipRatio) + 1.0)
  }

  /** The grip fraction is never negative and is full below the threshold; with a
      non-negative slope it is at most 1 and agrees with the library's curve. */
  lemma SlipGripBounds(value: real, profile: W.SlipProfile)
    ensures 0.0 <= SlipGrip(value, profile)
    ensures value < profile.slipRatio ==> SlipGrip(value, profile) == 1.0
    ensures 0.0 <= profile.slope ==> SlipGrip(value, profile) <= 1.0
    ensures 0.0 <= profile.slope ==> SlipGrip(value, profile) == W.SlipGrip(value, profile)
  {
    var d := Square(value - profile.slipRatio);
    assert 0.0 <= d;
    if 0.0 <= profile.slope {
      assert 0.0 <= profile.slope * d;
    }
  }

  /** Without the upper clamp, a negative slope gives more than full grip past the threshold. */
  lemma SlipGripAboveOne(value: real, profile: W.SlipProfile)
    requires profile.slope < 0.0 && profile.slipRatio < value
    ensures SlipGrip(value, profile) > 1.0
  {
    var x := value - profile.slipRatio;
    PositiveProduct(x, x, Square(x));
    PositiveProduct(-profile.slope, Square(x), -profile.slope * Square(x));
  }

  /** The library's curve is this one clamped to 1. */
  lemma LibrarySlipGrip(value: real, profile: W.SlipProfile)
    ensures W.SlipGrip(value, profile) == Min(1.0, SlipGrip(value, profile))
  {
  }

  // ---------------------------------------------------------------------------------------
  // Slip ratio

  /** `getSlipRatio`: the relative difference of the two speeds, measured against each, the
      smaller taken; 0 when both speeds are 0. */
  function SlipRatio(groundSpeed: real, surfaceSpeed: real): (r: W.Num)
    ensures r.Finite?
  {
    var wheel := W.AbsQuotient(surfaceSpeed - groundSpeed, surfaceSpeed);
    var ground := W.AbsQuotient(groundSpeed - surfaceSpeed, groundSpeed);
    if wheel.NaN? && ground.NaN? then W.Finite(0.0)
    else if wheel.Infinity? && ground.Infinity? then W.Finite(0.0)
    else W.NumMin(wheel, ground)
  }

  /** The slip ratio is 0 when both speeds are 0 and 1 when exactly one is. */
  lemma SlipRatioZeroSpeeds(groundSpeed: real, surfaceSpeed: real)
    ensures groundSpeed == 0.0 && surfaceSpeed == 0.0 ==> SlipRatio(groundSpeed, surfaceSpeed).value == 0.0
    ensures (groundSpeed == 0.0) != (surfaceSpeed == 0.0) ==> SlipRatio(groundSpeed, surfaceSpeed).value == 1.0
  {
    var g, s := groundSpeed, surfaceSpeed;
    if s == 0.0 && g != 0.0 {
      assert (g - s) / g == 1.0;
    } else if g == 0.0 && s != 0.0 {
      assert (s - g) / s == 1.0;
    }
  }

  /** Measured against the larger of two magnitudes, a difference is the smaller quotient. */
  lemma MinQuotient(d: real, a: real, b: real)
    requires 0.0 <= d && 0.0 < a && 0.0 < b
    ensures Min(d / a, d / b) == d / Max(a, b)
  {
    if a <= b {
      W.DivAntitone(d, a, b);
    } else {
      W.DivAntitone(d, b, a);
    }
  }

  /** For two non-zero speeds the slip ratio is `|s - g| / max(|s|, |g|)`, unclamped. */
  lemma SlipRatioClosedForm(groundSpeed: real, surfaceSpeed: real)
    requires groundSpeed != 0.0 && surfaceSpeed != 0.0
    ensures SlipRatio(groundSpeed, surfaceSpeed).value
         == Abs(surfaceSpeed - groundSpeed) / Max(Abs(surfaceSpeed), Abs(groundSpeed))
  {
    var g, s := groundSpeed, surfaceSpeed;
    var d := Abs(s - g);
    assert Abs(g - s) == d;
    W.AbsQuotientOf(s - g, s);
    W.AbsQuotientOf(g - s, g);
    assert SlipRatio(g, s) == W.Finite(Min(d / Abs(s), d / Abs(g)));
    MinQuotient(d, Abs(s), Abs(g));
  }

  /** The slip ratio is never negative. */
  lemma SlipRatioNonNegative(groundSpeed: real, surfaceSpeed: real)
    ensures 0.0 <= SlipRatio(groundSpeed, surfaceSpeed).value
  {
    var g, s := groundSpeed, surfaceSpeed;
    SlipRatioZeroSpeeds(g, s);
    if g != 0.0 && s != 0.0 {
      SlipRatioClosedForm(g, s);
      var d, mx := Abs(s - g), Max(Abs(s), Abs(g));
      assert d / mx * mx == d;
    }
  }

  /** The library's slip ratio is this one clamped to 1. */
  lemma LibrarySlipRatio(groundSpeed: real, surfaceSpeed: real)
    ensures W.SlipRatio(groundSpeed, surfaceSpeed).value == Min(1.0, SlipRatio(groundSpeed, surfaceSpeed).value)
  {
    var g, s := groundSpeed, surfaceSpeed;
    SlipRatioZeroSpeeds(g, s);
    W.SlipRatioBounds(g, s);
    if g != 0.0 && s != 0.0 {
      SlipRatioClosedForm(g, s);
      W.SlipRatioClosedForm(g, s);
    }
  }

  /** Speeds of opposite sign slip by more than 1: the difference exceeds both magnitudes. */
  lemma SlipRatioOppositeSigns(groundSpeed: real, surfaceSpeed: real)
    requires (groundSpeed < 0.0 < surfaceSpeed) || (surfaceSpeed < 0.0 < groundSpeed)
    ensures SlipRatio(groundSpeed, surfaceSpeed).value > 1.0
  {
    var g, s := groundSpeed, surfaceSpeed;
    SlipRatioClosedForm(g, s);
    var d, mx := Abs(s - g), Max(Abs(s), Abs(g));
    assert d == Abs(s) + Abs(g) && 0.0 < mx < d;
    QuotientAboveOne(d, mx);
  }

  lemma PositiveProduct(a: real, b: real, p: real)
    requires 0.0 < a && 0.0 < b && p == a * b
    ensures 0.0 < p
  {
  }

  lemma QuotientAboveOne(n: real, d: real)
    requires 0.0 < d < n
    ensures n / d > 1.0
  {
    assert n / d * d == n;
  }

  /** A wheel spinning backwards at the ground speed slips by exactly 2. */
  lemma SlipRatioReversed()
    ensures SlipRatio(1.0, -1.0).value == 2.0
  {
    SlipRatioClosedForm(1.0, -1.0);
  }

  // ---------------------------------------------------------------------------------------
  // One update

  /** The fields of a prototype wheel. */
  datatype WheelState = WheelState(
    position: Vec,
    velocity: Vec,
    direction: real,
    rotationAngle: real,
    angularVelocity: real)

  /** `grip * surfaceGrip * contactPercent` */
  function MaxGrip(config: WheelConfig, payload: W.Payload): real {
    config.grip * payload.surfaceGrip * payload.contactPercent
  }

  /** `wheelGroundSpeed`: the velocity's x component, whatever the heading. */
  function GroundSpeed(v: Vec): real { v.x }

  /** `wheelSurfaceSpeed` */
  function SurfaceSpeed(config: WheelConfig, angularVelocity: real): real {
    config.radius * angularVelocity
  }

  /** The drive: the speed difference scaled by the grip, clamped to `MAX_ACC` times the grip
      the slip curve leaves. */
  function MoveSpeed(groundSpeed: real, surfaceSpeed: real, maxGrip: real, slipGrip: real): real {
    LimitValue((surfaceSpeed - groundSpeed) * maxGrip, MAX_ACC * slipGrip)
  }

  /** The spin damping: angular friction less half the brake pressure. */
  function SpinFactor(config: WheelConfig, payload: W.Payload): real {
    config.angularFriction - payload.brakePressure * 0.5
  }

  /** `velFriction`: the share of the velocity kept after the contact friction. */
  function VelFriction(config: WheelConfig, maxGrip: real): real {
    1.0 - (1.0 - config.contactFriction) * maxGrip
  }

  /** The values `update` derives before it writes anything. */
  datatype Readings = Readings(
    maxGrip: real,
    groundSpeed: real,
    surfaceSpeed: real,
    slipRatio: real,
    slipGrip: real,
    moveSpeed: real)

  function Measure(config: WheelConfig, payload: W.Payload, w: WheelState): Readings {
    var maxGrip := MaxGrip(config, payload);
    var groundSpeed := GroundSpeed(w.velocity);
    var surfaceSpeed := SurfaceSpeed(config, w.angularVelocity);
    var slipRatio := SlipRatio(groundSpeed, surfaceSpeed).value;
    var slipGrip := SlipGrip(slipRatio, payload.slipProfile);
    Readings(maxGrip, groundSpeed, surfaceSpeed, slipRatio, slipGrip,
             MoveSpeed(groundSpeed, surfaceSpeed, maxGrip, slipGrip))
  }

  /** The spin after the drive's reaction and the damping. */
  function Spin(config: WheelConfig, payload: W.Payload, angularVelocity: real, move: real): real
    requires config.radius != 0.0
  {
    (angularVelocity - move / config.radius) * SpinFactor(config, payload)
  }

  /** Velocity `v` with both components scaled by the friction share `friction`. */
  function Friction(v: Vec, friction: real): Vec {
    Vec(v.x * friction, v.y * friction)
  }

  /** The writes of `update(payload)` for given readings. */
  function Apply(config: WheelConfig, payload: W.Payload, w: WheelState, q: Readings): WheelState
    requires config.radius != 0.0
  {
    var v := Friction(w.velocity.(x := w.velocity.x + q.moveSpeed), VelFriction(config, q.maxGrip));
    var spin := Spin(config, payload, w.angularVelocity, q.moveSpeed);
    WheelState(w.position.Add(v), v, w.direction, w.rotationAngle + spin, spin)
  }

  /** `update(payload)`: the readings first, then the writes. */
  function Step(config: WheelConfig, payload: W.Payload, w: WheelState): WheelState
    requires config.radius != 0.0
  {
    Apply(config, payload, w, Measure(config, payload, w))
  }

  /** The slip ratio and the grip fraction are never negative and the drive is at most
      `MAX_ACC` times the grip fraction; with a non-negative slope, at most `MAX_ACC`. */
  lemma MeasureBounds(config: WheelConfig, payload: W.Payload, w: WheelState, q: Readings)
    requires q == Measure(config, payload, w)
    ensures 0.0 <= q.slipRatio && 0.0 <= q.slipGrip
    ensures Abs(q.moveSpeed) <= MAX_ACC * q.slipGrip
    ensures 0.0 <= payload.slipProfile.slope ==> Abs(q.moveSpeed) <= MAX_ACC
  {
    SlipRatioNonNegative(q.groundSpeed, q.surfaceSpeed);
    SlipGripBounds(q.slipRatio, payload.slipProfile);
    LimitValueMagnitude((q.surfaceSpeed - q.groundSpeed) * q.maxGrip, MAX_ACC * q.slipGrip);
  }

  /** With non-negative grip the drive pushes the ground speed towards the surface speed. */
  lemma MoveSpeedTowardsSurface(groundSpeed: real, surfaceSpeed: real, maxGrip: real, slipGrip: real)
    requires 0.0 <= maxGrip && 0.0 <= slipGrip
    ensures groundSpeed <= surfaceSpeed ==> 0.0 <= MoveSpeed(groundSpeed, surfaceSpeed, maxGrip, slipGrip)
    ensures surfaceSpeed <= groundSpeed ==> MoveSpeed(groundSpeed, surfaceSpeed, maxGrip, slipGrip) <= 0.0
  {
    var d := surfaceSpeed - groundSpeed;
    var t := d * maxGrip;
    assert 0.0 <= d ==> 0.0 <= t;
    assert d <= 0.0 ==> t <= 0.0;
    LimitValueBounds(0.0, MAX_ACC * slipGrip);
    if 0.0 <= t {
      LimitValueMonotone(0.0, t, MAX_ACC * slipGrip);
    }
    if t <= 0.0 {
      LimitValueMonotone(t, 0.0, MAX_ACC * slipGrip);
    }
  }

  /** With grip at most 1 the drive is never larger than the speed difference: it does not
      overshoot the surface speed. */
  lemma MoveSpeedNoOvershoot(groundSpeed: real, surfaceSpeed: real, maxGrip: real, slipGrip: real)
    requires 0.0 <= maxGrip <= 1.0 && 0.0 <= slipGrip
    ensures Abs(MoveSpeed(groundSpeed, surfaceSpeed, maxGrip, slipGrip)) <= Abs(surfaceSpeed - groundSpeed)
  {
    var d := surfaceSpeed - groundSpeed;
    var t := d * maxGrip;
    var ad := Abs(d);
    if 0.0 <= d {
      assert 0.0 <= t && t == ad * maxGrip;
    } else {
      assert t == -(ad * maxGrip);
      assert t <= 0.0;
    }
    assert Abs(t) == ad * maxGrip;
    var e := 1.0 - maxGrip;
    assert 0.0 <= ad * e;
    assert ad * maxGrip == ad - ad * e;
    LimitValueMagnitude(t, MAX_ACC * slipGrip);
  }

  /** For any readings: the drive goes into the x component only and both components are
      then scaled by the same friction; the new spin is the old spin less the drive over the
      radius, damped by the friction less half the brake; the rotation angle advances by the
      new spin; the heading is kept; the position advances by the new velocity. */
  lemma ApplyMotion(config: WheelConfig, payload: W.Payload, w: WheelState, q: Readings)
    requires config.radius != 0.0
    ensures var r := Apply(config, payload, w, q);
      && r.velocity.x == (w.velocity.x + q.moveSpeed) * VelFriction(config, q.maxGrip)
      && r.velocity.y == w.velocity.y * VelFriction(config, q.maxGrip)
      && r.angularVelocity
         == (w.angularVelocity - q.moveSpeed / config.radius) * (config.angularFriction - 0.5 * payload.brakePressure)
      && r.rotationAngle == w.rotationAngle + r.angularVelocity
      && r.direction == w.direction
      && r.position == w.position.Add(r.velocity)
  {
  }

  /** One update, with the readings it takes: the motion above, for those readings. */
  lemma StepMotion(config: WheelConfig, payload: W.Payload, w: WheelState, q: Readings)
    requires config.radius != 0.0 && q == Measure(config, payload, w)
    ensures var r := Step(config, payload, w);
      && r.velocity.x == (w.velocity.x + q.moveSpeed) * VelFriction(config, q.maxGrip)
      && r.velocity.y == w.velocity.y * VelFriction(config, q.maxGrip)
      && r.angularVelocity
         == (w.angularVelocity - q.moveSpeed / config.radius) * (config.angularFriction - 0.5 * payload.brakePressure)
      && r.rotationAngle == w.rotationAngle + r.angularVelocity
      && r.direction == w.direction
      && r.position == w.position.Add(r.velocity)
  {
    assert Step(config, payload, w) == Apply(config, payload, w, q);
    ApplyMotion(config, payload, w, q);
  }

  /** The heading plays no part: wheels that differ only in heading stay so. */
  lemma StepIgnoresHeading(config: WheelConfig, payload: W.Payload, w: WheelState, d: real)
    requires config.radius != 0.0
    ensures Step(config, payload, w.(direction := d)) == Step(config, payload, w).(direction := d)
  {
    assert Measure(config, payload, w.(direction := d)) == Measure(config, payload, w);
  }

  /** With no friction losses (no spin damping, full contact friction) the drive only moves
      speed between the ground and the wheel's surface: their sum is kept. */
  lemma ApplyLossless(config: WheelConfig, payload: W.Payload, w: WheelState, q: Readings)
    requires config.radius != 0.0 && SpinFactor(config, payload) == 1.0 && config.contactFriction == 1.0
    ensures var r := Apply(config, payload, w, q);
      GroundSpeed(r.velocity) + SurfaceSpeed(config, r.angularVelocity)
        == GroundSpeed(w.velocity) + SurfaceSpeed(config, w.angularVelocity)
  {
    var mv, rad, om := q.moveSpeed, config.radius, w.angularVelocity;
    var r := Apply(config, payload, w, q);
    assert VelFriction(config, q.maxGrip) == 1.0;
    assert r.velocity.x == (w.velocity.x + mv) * 1.0;
    var spin := om - mv / rad;
    assert r.angularVelocity == spin * 1.0;
    assert rad * (mv / rad) == mv;
    assert rad * spin == rad * om - rad * (mv / rad);
  }

  lemma StepLossless(config: WheelConfig, payload: W.Payload, w: WheelState, q: Readings)
    requires config.radius != 0.0 && SpinFactor(config, payload) == 1.0 && config.contactFriction == 1.0
    requires q == Measure(config, payload, w)
    ensures var r := Step(config, payload, w);
      GroundSpeed(r.velocity) + SurfaceSpeed(config, r.angularVelocity)
        == GroundSpeed(w.velocity) + SurfaceSpeed(config, w.angularVelocity)
  {
    assert Step(config, payload, w) == Apply(config, payload, w, q);
    ApplyLossless(config, payload, w, q);
  }

  /** Without grip there is no drive and no friction: the velocity is kept, the position
      advances by it, and the spin only decays. */
  lemma StepWithoutGrip(config: WheelConfig, payload: W.Payload, w: WheelState)
    requires config.radius != 0.0 && MaxGrip(config, payload) == 0.0
    ensures var r := Step(config, payload, w);
      && r.velocity == w.velocity
      && r.position == w.position.Add(w.velocity)
      && r.angularVelocity == w.angularVelocity * SpinFactor(config, payload)
  {
    var q := Measure(config, payload, w);
    MeasureWithoutGrip(config, payload, w, q);
    assert Step(config, payload, w) == Apply(config, payload, w, q);
    ApplyWithoutDrive(config, payload, w, q);
  }

  /** Without grip there is no drive. */
  lemma MeasureWithoutGrip(config: WheelConfig, payload: W.Payload, w: WheelState, q: Readings)
    requires MaxGrip(config, payload) == 0.0 && q == Measure(config, payload, w)
    ensures q.moveSpeed == 0.0 && q.maxGrip == 0.0
  {
    MeasureBounds(config, payload, w, q);
    assert (q.surfaceSpeed - q.groundSpeed) * q.maxGrip == 0.0;
    LimitValueBounds(0.0, MAX_ACC * q.slipGrip);
  }

  /** Readings with no drive and no grip leave the velocity and only damp the spin. */
  lemma ApplyWithoutDrive(config: WheelConfig, payload: W.Payload, w: WheelState, q: Readings)
    requires config.radius != 0.0 && q.moveSpeed == 0.0 && q.maxGrip == 0.0
    ensures var r := Apply(config, payload, w, q);
      && r.velocity == w.velocity
      && r.position == w.position.Add(w.velocity)
      && r.angularVelocity == w.angularVelocity * SpinFactor(config, payload)
  {
    assert VelFriction(config, q.maxGrip) == 1.0;
    assert Friction(w.velocity.(x := w.velocity.x + 0.0), 1.0) == w.velocity;
  }

  /** A wheel that neither moves nor spins stays where it is. */
  lemma StepAtRest(config: WheelConfig, payload: W.Payload, w: WheelState)
    requires config.radius != 0.0 && w.velocity == Zero && w.angularVelocity == 0.0
    ensures Step(config, payload, w) == w
  {
    var q := Measure(config, payload, w);
    assert q.groundSpeed == 0.0 && q.surfaceSpeed == 0.0;
    MeasureBounds(config, payload, w, q);
    assert q.moveSpeed == 0.0;
    assert w.position.Add(Zero) == w.position;
  }

  /** The demonstration wheel and the payload it is driven with. */
  const DemoConfig: WheelConfig := WheelConfig(10.0, 10.0, 0.8, 0.975, 0.99, 50.0)
  const DemoPayload: W.Payload := W.Payload(0.9, 1.0, 0.0, W.SlipProfile(0.1, 0.6))

  /** The first frame of the demonstration: a wheel rolling forward at 2 while spinning
      backwards at -2 slips by 1.1, keeps 40% grip, is braked by the cap 0.04 and spins down. */
  lemma DemoFirstFrame(start: Vec)
    ensures var w := WheelState(start, Vec(2.0, 0.0), 0.0, 0.0, -2.0);
      && Measure(DemoConfig, DemoPayload, w) == Readings(0.72, 2.0, -20.0, 1.1, 0.4, -0.04)
      && Step(DemoConfig, DemoPayload, w)
         == WheelState(start.Add(Vec(1.945888, 0.0)), Vec(1.945888, 0.0), 0.0, -1.9461, -1.9461)
  {
    var w := WheelState(start, Vec(2.0, 0.0), 0.0, 0.0, -2.0);
    SlipRatioClosedForm(2.0, -20.0);
    assert SlipRatio(2.0, -20.0).value == 1.1;
    assert Square(1.1 - 0.1) == 1.0;
    assert SlipGrip(1.1, DemoPayload.slipProfile) == 0.4;
    assert MoveSpeed(2.0, -20.0, 0.72, 0.4) == -0.04;
  }

  // ---------------------------------------------------------------------------------------
  // The wheel object

  class Wheel {
    const config: WheelConfig
    var position: Vec
    var velocity: Vec
    var direction: real
    var rotationAngle: real
    var angularVelocity: real

    function State(): WheelState
      reads this
    {
      WheelState(position, velocity, direction, rotationAngle, angularVelocity)
    }

    /** `new Wheel(config)`: at the origin, still, heading 0, not spinning. */
    constructor (config: WheelConfig)
      ensures this.config == config
      ensures State() == WheelState(Zero, Zero, 0.0, 0.0, 0.0)
    {
      this.config := config;
      position := Zero;
      velocity := Zero;
      direction := 0.0;
      rotationAngle := 0.0;
      angularVelocity := 0.0;
    }

    /** The readings `update(payload)` takes before it writes anything. */
    method Measurements(payload: W.Payload) returns (q: Readings)
      ensures q == Measure(config, payload, State())
    {
      var maxGrip := MaxGrip(config, payload);
      var groundSpeed := GroundSpeed(velocity);
      var surfaceSpeed := SurfaceSpeed(config, angularVelocity);
      var slipRatio := SlipRatio(groundSpeed, surfaceSpeed).value;
      var slipGrip := SlipGrip(slipRatio, payload.slipProfile);
      var moveSpeed := LimitValue((surfaceSpeed - groundSpeed) * maxGrip, MAX_ACC * slipGrip);
      q := Readings(maxGrip, groundSpeed, surfaceSpeed, slipRatio, slipGrip, moveSpeed);
    }

    /** The spin: the drive's reaction taken off, then the damping. */
    method SpinStep(payload: W.Payload, move: real)
      requires config.radius != 0.0
      modifies this
      ensures angularVelocity == Spin(config, payload, old(angularVelocity), move)
      ensures position == old(position) && velocity == old(velocity)
      ensures direction == old(direction) && rotationAngle == old(rotationAngle)
    {
      angularVelocity := angularVelocity - move / config.radius;
      angularVelocity := angularVelocity * (config.angularFriction - payload.brakePressure * 0.5);
    }

    /** The friction: both velocity components scaled by `velFriction`. */
    method FrictionStep(maxGrip: real)
      modifies this
      ensures velocity == Friction(old(velocity), VelFriction(config, maxGrip))
      ensures position == old(position) && direction == old(direction)
      ensures rotationAngle == old(rotationAngle) && angularVelocity == old(angularVelocity)
    {
      var velFriction := 1.0 - (1.0 - config.contactFriction) * maxGrip;
      velocity := velocity.(x := velocity.x * velFriction);
      velocity := velocity.(y := velocity.y * velFriction);
    }

    /** `update(payload)`, in the source's order: readings, drive on x, spin, rotation,
        friction, position. */
    method Update(payload: W.Payload)
      requires config.radius != 0.0
      modifies this
      ensures State() == Step(config, payload, old(State()))
    {
      ghost var w := State();
      var q := Measurements(payload);
      velocity := velocity.(x := velocity.x + q.moveSpeed);
      SpinStep(payload, q.moveSpeed);
      rotationAngle := rotationAngle + angularVelocity;
      FrictionStep(q.maxGrip);
      position := position.(x := position.x + velocity.x);
      position := position.(y := position.y + velocity.y);
    }
  }
}
