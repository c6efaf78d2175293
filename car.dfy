/** The four-wheeled car of src/lib/vehicles/car.ts: four wheels and two frame points
    outboard of the wheels at `y = -10`, braced by a constraint between every two of the six points. Each update
    first turns the rear wheels square to the rear axle and the front wheels by the steering
    input, then runs the vehicle update. */
module Cars {
  import opened Types
  import opened Maths
  import opened Constraints
  import opened Beam
  import opened Wheels
  import opened Vehicles

  /** `CarConfig`: `dip` moves the front wheels inwards. */
  datatype CarConfig = CarConfig(
    width: real,
    length: real,
    dip: real,
    rearWheelConfig: WheelConfig,
    frontWheelConfig: WheelConfig)

  /** Where the six points start: front left, front right, rear left, rear right, then the
      right and the left frame point. */
  function Layout(c: CarConfig): seq<Vec> {
    [ Vec(-c.width / 2.0 + c.dip, -c.length / 2.0),
      Vec(c.width / 2.0 - c.dip, -c.length / 2.0),
      Vec(-c.width / 2.0, c.length / 2.0),
      Vec(c.width / 2.0, c.length / 2.0),
      Vec(c.width / 2.0 + 10.0, -10.0),
      Vec(-c.width / 2.0 - 10.0, -10.0) ]
  }

  /** The points of a new car: still wheels of their configured masses, and two frame points
      of the default mass. */
  function InitialPoints(c: CarConfig): seq<BeamPoint> {
    var p := Layout(c);
    [ BeamPoint(p[0], Zero, c.frontWheelConfig.mass),
      BeamPoint(p[1], Zero, c.frontWheelConfig.mass),
      BeamPoint(p[2], Zero, c.rearWheelConfig.mass),
      BeamPoint(p[3], Zero, c.rearWheelConfig.mass),
      NewBeamPoint(Some(p[4]), None),
      NewBeamPoint(Some(p[5]), None) ]
  }

  /** The bracing of the body. */
  const CarPairs: seq<IndexPair> := [
    (0, 1), (0, 2), (0, 3), (2, 1), (2, 3), (3, 1),
    (4, 0), (4, 1), (4, 2), (4, 3), (4, 5),
    (5, 0), (5, 1), (5, 2), (5, 3)]

  /** The wheels of a new car: heading 0, not turned, not spinning. */
  function InitialTires(c: CarConfig): seq<Tire> {
    [ Tire(0, c.frontWheelConfig, 0.0, 0.0, 0.0),
      Tire(1, c.frontWheelConfig, 0.0, 0.0, 0.0),
      Tire(2, c.rearWheelConfig, 0.0, 0.0, 0.0),
      Tire(3, c.rearWheelConfig, 0.0, 0.0, 0.0) ]
  }

  /** `maxSteer`: full steering input turns the front wheels by a sixth of a turn. */
  function MaxSteer(m: MathLib): real { m.pi / 3.0 }

  /** `axelAngle`: the direction from the rear left to the rear right wheel, less a quarter
      turn. */
  function AxleAngle(m: MathLib, rearLeft: Vec, rearRight: Vec): real {
    m.atan2(rearRight.y - rearLeft.y, rearRight.x - rearLeft.x) - m.pi / 2.0
  }

  /** The heading of the front wheels for axle angle `axle` and steering input `steer`. */
  function FrontHeading(m: MathLib, axle: real, steer: real): real {
    axle + steer * MaxSteer(m)
  }

  /** The four wheels with the front ones turned to `front` and the rear ones to `rear`. */
  function Steered(tires: seq<Tire>, front: real, rear: real): seq<Tire>
    requires |tires| == 4
  {
    [ tires[0].(direction := front),
      tires[1].(direction := front),
      tires[2].(direction := rear),
      tires[3].(direction := rear) ]
  }

  /** `p` connects `a` and `b`, in either order. */
  predicate Joins(p: IndexPair, a: int, b: int) {
    (p.0 == a && p.1 == b) || (p.0 == b && p.1 == a)
  }

  /** Where the pair of two distinct points sits in the bracing. */
  function PairIndex(a: int, b: int): nat {
    match (a, b)
    case (0, 1) => 0   case (0, 2) => 1   case (0, 3) => 2   case (1, 2) => 3   case (2, 3) => 4
    case (1, 3) => 5   case (0, 4) => 6   case (1, 4) => 7   case (2, 4) => 8   case (3, 4) => 9
    case (4, 5) => 10  case (0, 5) => 11  case (1, 5) => 12  case (2, 5) => 13  case (3, 5) => 14
    case _ => 0
  }

  lemma CarPairsFit()
    ensures AllPairsFit(CarPairs, 6)
  {
  }

  /** The bracing is complete: no pair joins a point to itself, every two distinct points are
      joined by exactly one pair. */
  lemma CarPairsComplete()
    ensures |CarPairs| == 15
    ensures forall k :: 0 <= k < |CarPairs| ==> CarPairs[k].0 != CarPairs[k].1
    ensures forall a, b :: 0 <= a < b < 6 ==> PairIndex(a, b) < |CarPairs| && Joins(CarPairs[PairIndex(a, b)], a, b)
    ensures forall k, l :: 0 <= k < l < |CarPairs| ==> !Joins(CarPairs[l], CarPairs[k].0, CarPairs[k].1)
  {
    forall k, l | 0 <= k < l < |CarPairs|
      ensures !Joins(CarPairs[l], CarPairs[k].0, CarPairs[k].1)
    {
      var (a, b) := CarPairs[k];
      assert PairIndex(a, b) == k || PairIndex(b, a) == k;
    }
  }

  /** The construction-time constraints of a car. */
  function CarConstraints(m: MathLib, c: CarConfig): seq<Constraint> {
    CarPairsFit();
    RestLengths(m, Positions(InitialPoints(c)), CarPairs)
  }

  /** The layout is mirror-symmetric about the length axis: left and right partners have
      opposite `x` and the same `y`. */
  lemma LayoutMirror(c: CarConfig)
    ensures forall k :: k in {0, 2, 4} ==>
      Layout(c)[k].x == -Layout(c)[k + 1].x && Layout(c)[k].y == Layout(c)[k + 1].y
  {
  }

  /** With a lawful square root, the rear axle's rest length is the car's width, and the front
      axle's is the width less twice the dip. */
  lemma AxleLengths(m: MathLib, c: CarConfig)
    requires SqrtLaw(m)
    ensures CarConstraints(m, c)[4] == Constraint(2, 3, Abs(c.width))
    ensures CarConstraints(m, c)[0] == Constraint(0, 1, Abs(c.width - 2.0 * c.dip))
  {
    var p := Layout(c);
    var cs := CarConstraints(m, c);
    assert cs[4] == Constraint(2, 3, Dist(m, p[2], p[3]));
    assert cs[0] == Constraint(0, 1, Dist(m, p[0], p[1]));
    SideBySide(m, p[2], p[3], -c.width);
    SideBySide(m, p[0], p[1], 2.0 * c.dip - c.width);
    assert Abs(2.0 * c.dip - c.width) == Abs(c.width - 2.0 * c.dip);
  }

  /** Two positions on the same line across the car are `|dx|` apart. */
  lemma SideBySide(m: MathLib, a: Vec, b: Vec, dx: real)
    requires SqrtLaw(m) && a.y == b.y && a.x - b.x == dx
    ensures Dist(m, a, b) == Abs(dx)
  {
    var s := (a.x - b.x) * (a.x - b.x) + (a.y - b.y) * (a.y - b.y);
    assert Dist(m, a, b) == m.sqrt(s);
    assert a.y - b.y == 0.0;
    assert s == dx * dx;
    SqrtOfSquare(m, dx);
  }

  /** No two of the positions coincide. */
  predicate Apart(ps: seq<Vec>) {
    forall a, b :: 0 <= a < b < |ps| ==> ps[a] != ps[b]
  }

  /** With a lawful square root, a new car's body can tick (every constraint has two points of
      positive mass at a positive distance) exactly when both wheel masses are positive and no
      two of the six points start at the same place. */
  lemma CarReady(m: MathLib, c: CarConfig)
    requires SqrtLaw(m)
    ensures TickReady(m, InitialPoints(c), CarConstraints(m, c))
        <==> 0.0 < c.frontWheelConfig.mass && 0.0 < c.rearWheelConfig.mass && Apart(Layout(c))
  {
    if TickReady(m, InitialPoints(c), CarConstraints(m, c)) {
      ReadyIsApart(m, c);
    }
    if 0.0 < c.frontWheelConfig.mass && 0.0 < c.rearWheelConfig.mass && Apart(Layout(c)) {
      ApartIsReady(m, c);
    }
  }

  /** Constraint `k` of a new car joins the points of pair `k` at their layout positions. */
  lemma CarConstraintAt(m: MathLib, c: CarConfig, k: nat)
    requires k < 15
    ensures var q := CarConstraints(m, c)[k];
      && |CarConstraints(m, c)| == 15
      && q.i == CarPairs[k].0 && q.j == CarPairs[k].1
      && 0 <= q.i < 6 && 0 <= q.j < 6 && q.i != q.j
      && InitialPoints(c)[q.i].position == Layout(c)[q.i]
      && InitialPoints(c)[q.j].position == Layout(c)[q.j]
  {
    CarPairsComplete();
  }

  lemma ReadyIsApart(m: MathLib, c: CarConfig)
    requires SqrtLaw(m) && TickReady(m, InitialPoints(c), CarConstraints(m, c))
    ensures 0.0 < c.frontWheelConfig.mass && 0.0 < c.rearWheelConfig.mass && Apart(Layout(c))
  {
    var pts := InitialPoints(c);
    var cs := CarConstraints(m, c);
    CarConstraintAt(m, c, 0);
    CarConstraintAt(m, c, 4);
    assert Applicable(m, pts, cs[0]) && Applicable(m, pts, cs[4]);
    CarPairsComplete();
    forall a, b | 0 <= a < b < 6
      ensures Layout(c)[a] != Layout(c)[b]
    {
      var k := PairIndex(a, b);
      CarConstraintAt(m, c, k);
      assert Applicable(m, pts, cs[k]);
      DistZeroIffSame(m, pts[cs[k].i].position, pts[cs[k].j].position);
    }
  }

  lemma ApartIsReady(m: MathLib, c: CarConfig)
    requires SqrtLaw(m)
    requires 0.0 < c.frontWheelConfig.mass && 0.0 < c.rearWheelConfig.mass && Apart(Layout(c))
    ensures TickReady(m, InitialPoints(c), CarConstraints(m, c))
  {
    var pts := InitialPoints(c);
    var cs := CarConstraints(m, c);
    forall q | q in cs
      ensures Applicable(m, pts, q)
    {
      var k :| 0 <= k < |cs| && cs[k] == q;
      CarConstraintAt(m, c, k);
      assert Layout(c)[q.i] != Layout(c)[q.j] by {
        if q.i < q.j {
          assert Layout(c)[q.i] != Layout(c)[q.j];
        } else {
          assert Layout(c)[q.j] != Layout(c)[q.i];
        }
      }
      DistZeroIffSame(m, pts[q.i].position, pts[q.j].position);
    }
  }

  /** The rear wheels take the axle angle and the front wheels the axle angle plus the steering
      input times `maxSteer`; with an input in `[-1, 1]` and a non-negative pi the front
      wheels are at most a sixth of a turn off the rear ones. */
  lemma SteeredHeadings(m: MathLib, tires: seq<Tire>, axle: real, steer: real)
    requires |tires| == 4
    ensures var s := Steered(tires, FrontHeading(m, axle, steer), axle);
      && |s| == 4
      && s[2].direction == s[3].direction == axle
      && s[0].direction == s[1].direction
      && s[0].direction - s[2].direction == steer * (m.pi / 3.0)
      && (forall k :: 0 <= k < 4 ==> s[k].index == tires[k].index && s[k].config == tires[k].config)
      && (-1.0 <= steer <= 1.0 && 0.0 <= m.pi ==> Abs(s[0].direction - s[2].direction) <= m.pi / 3.0)
  {
    var s := Steered(tires, FrontHeading(m, axle, steer), axle);
    var t := m.pi / 3.0;
    assert s[0].direction - s[2].direction == steer * t;
    if -1.0 <= steer <= 1.0 && 0.0 <= m.pi {
      assert 0.0 <= t;
      if steer >= 0.0 {
        assert steer * t <= 1.0 * t;
      } else {
        assert (-steer) * t <= 1.0 * t;
      }
    }
  }

  // ---------------------------------------------------------------------------------------
  // The car object

  class Car {
    const vehicle: Vehicle
    const frontLeft: Wheel
    const frontRight: Wheel
    const rearLeft: Wheel
    const rearRight: Wheel
    const config: CarConfig

    /** The four wheels are the body's points 0 to 3, in the vehicle's wheel order. */
    ghost predicate Valid() {
      && vehicle.Valid()
      && vehicle.wheels == [frontLeft, frontRight, rearLeft, rearRight]
      && vehicle.body.points.Length == 6
      && frontLeft.index == 0 && frontRight.index == 1 && rearLeft.index == 2 && rearRight.index == 3
      && frontLeft.config == frontRight.config == config.frontWheelConfig
      && rearLeft.config == rearRight.config == config.rearWheelConfig
    }

    /** `new Car(config)`: the six points, the four wheels on the first four of them, a body
        braced by all fifteen pairs at their starting distances, and the default inputs. */
    constructor (m: MathLib, config: CarConfig)
      ensures Valid() && this.config == config
      ensures fresh(vehicle) && fresh(vehicle.body) && fresh(vehicle.body.points)
      ensures vehicle.body.points[..] == InitialPoints(config)
      ensures vehicle.body.constraints == CarConstraints(m, config)
      ensures vehicle.Tires() == InitialTires(config)
      ensures vehicle.inputs == DefaultInputs
    {
      var points, fl, fr, rl, rr := Parts(config);
      CarPairsFit();
      var built := BeamBody.Build(m, points, CarPairs);
      var body := built.value;
      var v := new Vehicle(body, [fl, fr, rl, rr]);
      assert v.Tires() == [TireOf(fl), TireOf(fr), TireOf(rl), TireOf(rr)];
      vehicle := v;
      frontLeft := fl;
      frontRight := fr;
      rearLeft := rl;
      rearRight := rr;
      this.config := config;
    }

    /** The six points of a new car and the four wheels placed on the first four of them. */
    static method Parts(config: CarConfig)
      returns (points: array<BeamPoint>, fl: Wheel, fr: Wheel, rl: Wheel, rr: Wheel)
      ensures fresh(points) && fresh(fl) && fresh(fr) && fresh(rl) && fresh(rr)
      ensures points[..] == InitialPoints(config)
      ensures fl.points == fr.points == rl.points == rr.points == points
      ensures [TireOf(fl), TireOf(fr), TireOf(rl), TireOf(rr)] == InitialTires(config)
    {
      points := new BeamPoint[6];
      var p := Layout(config);
      fl := new Wheel(points, 0, p[0], config.frontWheelConfig);
      fr := new Wheel(points, 1, p[1], config.frontWheelConfig);
      rl := new Wheel(points, 2, p[2], config.rearWheelConfig);
      rr := new Wheel(points, 3, p[3], config.rearWheelConfig);
      points[4] := NewBeamPoint(Some(p[4]), None);
      points[5] := NewBeamPoint(Some(p[5]), None);
      assert points[..] == InitialPoints(config);
    }

    /** `axelAngle`, from the current positions of the rear wheels. */
    function CurrentAxleAngle(m: MathLib): real
      reads vehicle.body.points
      requires Valid()
    {
      AxleAngle(m, vehicle.body.points[rearLeft.index].position, vehicle.body.points[rearRight.index].position)
    }

    /** The wheels as `update` sets their headings: the rear ones along the rear axle and the
        front ones turned from it by the steering input. */
    ghost function Steering(m: MathLib): seq<Tire>
      reads vehicle, vehicle.wheels, vehicle.body.points
      requires Valid()
    {
      Steered(vehicle.Tires(), FrontHeading(m, CurrentAxleAngle(m), vehicle.inputs.steer), CurrentAxleAngle(m))
    }

    /** The heading writes at the start of `update`. */
    method Steer(m: MathLib)
      requires Valid()
      modifies frontLeft, frontRight, rearLeft, rearRight
      ensures vehicle.Tires() == old(Steering(m))
    {
      ghost var t0 := vehicle.Tires();
      ghost var a := CurrentAxleAngle(m);
      ghost var front := FrontHeading(m, a, vehicle.inputs.steer);
      assert t0 == [TireOf(frontLeft), TireOf(frontRight), TireOf(rearLeft), TireOf(rearRight)];
      rearRight.direction := CurrentAxleAngle(m);
      rearLeft.direction := CurrentAxleAngle(m);
      frontRight.direction := CurrentAxleAngle(m) + vehicle.inputs.steer * MaxSteer(m);
      frontLeft.direction := CurrentAxleAngle(m) + vehicle.inputs.steer * MaxSteer(m);
      assert CurrentAxleAngle(m) == a;
      assert TireOf(frontLeft) == t0[0].(direction := front) && TireOf(frontRight) == t0[1].(direction := front);
      assert TireOf(rearLeft) == t0[2].(direction := a) && TireOf(rearRight) == t0[3].(direction := a);
      assert vehicle.Tires() == [TireOf(frontLeft), TireOf(frontRight), TireOf(rearLeft), TireOf(rearRight)];
    }

    /** `update(callback)`: steer, then the vehicle update from the steered wheels. */
    method Update(m: MathLib, callback: Callback)
      requires Valid()
      requires config.frontWheelConfig.radius != 0.0 && config.rearWheelConfig.radius != 0.0
      requires TickReady(m, vehicle.body.points[..], vehicle.body.constraints)
      modifies vehicle.body.points, vehicle.wheels
      ensures KeepsFrame(TireUpdate(m, callback))
      ensures OnBody(6, old(Steering(m)))
      ensures vehicle.Tires() == TiresAfter(old(vehicle.body.points[..]), old(Steering(m)), TireUpdate(m, callback))
      ensures var mid := WheelPass(old(vehicle.body.points[..]), old(Steering(m)), TireUpdate(m, callback));
           TickReady(m, mid, vehicle.body.constraints)
           && vehicle.body.points[..] == Tick(m, mid, vehicle.body.constraints)
    {
      assert frontLeft in vehicle.wheels && frontRight in vehicle.wheels;
      assert rearLeft in vehicle.wheels && rearRight in vehicle.wheels;
      Steer(m);
      vehicle.Update(m, callback);
    }
  }
}
