/** The generic vehicle of src/lib/vehicles/index.ts: a beam body, the wheels that are points of
    it, and the driver's inputs. One update runs every wheel's tire update, in list order, with
    the payload a callback picks for that wheel, and then one tick of the body. */
module Vehicles {
  import opened Types
  import opened Maths
  import opened Constraints
  import opened Beam
  import opened Wheels

  datatype DriveTrain = AWD | RWD | FWD

  /** `VehicleInput` */
  datatype VehicleInput = VehicleInput(throttle: real, brake: real, steer: real, driveTrain: DriveTrain)

  /** `Partial<VehicleInput>`: each field either given or absent. */
  datatype PartialInput = PartialInput(
    throttle: Option<real>,
    brake: Option<real>,
    steer: Option<real>,
    driveTrain: Option<DriveTrain>)

  /** The inputs a vehicle starts with: no throttle, no brake, wheels straight, rear drive. */
  const DefaultInputs: VehicleInput := VehicleInput(0.0, 0.0, 0.0, RWD)

  const NoInput: PartialInput := PartialInput(None, None, None, None)

  /** `{ ...inputs, ...input }`: every field the partial input gives replaces the current one. */
  function Merge(x: VehicleInput, p: PartialInput): VehicleInput {
    VehicleInput(
      p.throttle.GetOr(x.throttle),
      p.brake.GetOr(x.brake),
      p.steer.GetOr(x.steer),
      p.driveTrain.GetOr(x.driveTrain))
  }

  /** `b` where it is given, else `a`. */
  function Override<T>(a: Option<T>, b: Option<T>): Option<T> {
    if b.Some? then b else a
  }

  /** The partial input that two successive `applyInput` calls amount to: `q` over `p`. */
  function Combine(p: PartialInput, q: PartialInput): PartialInput {
    PartialInput(
      Override(p.throttle, q.throttle),
      Override(p.brake, q.brake),
      Override(p.steer, q.steer),
      Override(p.driveTrain, q.driveTrain))
  }

  /** A partial input that gives every field of `x`. */
  function Whole(x: VehicleInput): PartialInput {
    PartialInput(Some(x.throttle), Some(x.brake), Some(x.steer), Some(x.driveTrain))
  }

  /** Field by field: a given field wins, an absent one keeps the current value. */
  lemma MergeFields(x: VehicleInput, p: PartialInput)
    ensures p.throttle.Some? ==> Merge(x, p).throttle == p.throttle.value
    ensures p.throttle.None? ==> Merge(x, p).throttle == x.throttle
    ensures p.brake.Some? ==> Merge(x, p).brake == p.brake.value
    ensures p.brake.None? ==> Merge(x, p).brake == x.brake
    ensures p.steer.Some? ==> Merge(x, p).steer == p.steer.value
    ensures p.steer.None? ==> Merge(x, p).steer == x.steer
    ensures p.driveTrain.Some? ==> Merge(x, p).driveTrain == p.driveTrain.value
    ensures p.driveTrain.None? ==> Merge(x, p).driveTrain == x.driveTrain
  {
  }

  /** An empty partial input changes nothing. */
  lemma MergeNothing(x: VehicleInput)
    ensures Merge(x, NoInput) == x
  {
  }

  /** Applying the same partial input twice is the same as applying it once. */
  lemma MergeIdempotent(x: VehicleInput, p: PartialInput)
    ensures Merge(Merge(x, p), p) == Merge(x, p)
  {
  }

  /** Two successive merges are one merge of the combined partial input. */
  lemma MergeSequential(x: VehicleInput, p: PartialInput, q: PartialInput)
    ensures Merge(Merge(x, p), q) == Merge(x, Combine(p, q))
  {
  }

  /** A complete input replaces the current one whatever it was. */
  lemma MergeWhole(x: VehicleInput, y: VehicleInput)
    ensures Merge(x, Whole(y)) == y
  {
  }

  // ---------------------------------------------------------------------------------------
  // The wheel loop, on values

  /** What a wheel object holds besides its point: which point it is, its configuration,
      heading, rotation angle and spin. */
  datatype Tire = Tire(index: nat, config: WheelConfig, direction: real, rotationAngle: real, angularVelocity: real)

  /** `UpdateCallback`: the payload for a wheel, chosen from its configuration and state. */
  type Callback = (WheelConfig, WheelState) -> Payload

  /** One wheel's update as the loop runs it: from the wheel and the state it reads to the
      state it writes. */
  type WheelUpdate = (Tire, WheelState) -> WheelState

  /** `wheel.update(callback(wheel))`. A zero radius has no value in the model (the update
      divides by it); `Vehicle.Update` excludes it, so the second branch is never taken there. */
  function TireUpdate(m: MathLib, cb: Callback): WheelUpdate {
    (t: Tire, w: WheelState) =>
      if t.config.radius != 0.0 then Step(m, t.config, cb(t.config, w), w) else w
  }

  /** The update writes only the velocity of its point, never the position or the mass. */
  ghost predicate KeepsFrame(step: WheelUpdate) {
    forall t, w :: step(t, w).point.position == w.point.position && step(t, w).point.mass == w.point.mass
  }

  /** The tire update keeps positions and masses, and never turns its wheel. */
  lemma TireUpdateKeepsFrame(m: MathLib, cb: Callback)
    ensures KeepsFrame(TireUpdate(m, cb))
    ensures forall t, w :: TireUpdate(m, cb)(t, w).direction == w.direction
  {
    forall t, w
      ensures TireUpdate(m, cb)(t, w).point.position == w.point.position
      ensures TireUpdate(m, cb)(t, w).point.mass == w.point.mass
      ensures TireUpdate(m, cb)(t, w).direction == w.direction
    {
      if t.config.radius != 0.0 {
        var payload := cb(t.config, w);
        assert Step(m, t.config, payload, w) == Apply(m, t.config, payload, w, Measure(m, t.config, payload, w));
      }
    }
  }

  /** The state a wheel's update reads, with its point taken from `pts`. */
  function StateOf(pts: seq<BeamPoint>, t: Tire): WheelState
    requires t.index < |pts|
  {
    WheelState(pts[t.index], t.direction, t.rotationAngle, t.angularVelocity)
  }

  /** The tire part of the state `w`. */
  function TireAfter(t: Tire, w: WheelState): Tire {
    t.(direction := w.direction, rotationAngle := w.rotationAngle, angularVelocity := w.angularVelocity)
  }

  /** Every wheel is a point of the body. */
  predicate OnBody(n: nat, tires: seq<Tire>) {
    forall k :: 0 <= k < |tires| ==> tires[k].index < n
  }

  /** No two wheels are the same point. */
  predicate DistinctIndices(tires: seq<Tire>) {
    forall a, b :: 0 <= a < b < |tires| ==> tires[a].index != tires[b].index
  }

  /** The points after the first `|tires|` wheel updates, in list order; each wheel reads its
      point as the updates before it left it. */
  function WheelPass(pts: seq<BeamPoint>, tires: seq<Tire>, step: WheelUpdate): (r: seq<BeamPoint>)
    requires OnBody(|pts|, tires) && KeepsFrame(step)
    ensures SameFrame(pts, r)
    decreases |tires|
  {
    if |tires| == 0 then pts
    else
      var prev := WheelPass(pts, tires[..|tires| - 1], step);
      var t := tires[|tires| - 1];
      prev[t.index := step(t, StateOf(prev, t)).point]
  }

  /** The state wheel `k` reaches, after the wheels before it. */
  function StepOf(pts: seq<BeamPoint>, tires: seq<Tire>, step: WheelUpdate, k: nat): WheelState
    requires OnBody(|pts|, tires) && KeepsFrame(step) && k < |tires|
  {
    step(tires[k], StateOf(WheelPass(pts, tires[..k], step), tires[k]))
  }

  /** The tire states after the wheel loop. */
  function TiresAfter(pts: seq<BeamPoint>, tires: seq<Tire>, step: WheelUpdate): seq<Tire>
    requires OnBody(|pts|, tires) && KeepsFrame(step)
  {
    seq(|tires|, k requires 0 <= k < |tires| => TireAfter(tires[k], StepOf(pts, tires, step, k)))
  }

  /** A point that no wheel is on is left as it was. */
  lemma {:induction false} WheelPassUntouched(pts: seq<BeamPoint>, tires: seq<Tire>, step: WheelUpdate, i: nat)
    requires OnBody(|pts|, tires) && KeepsFrame(step) && i < |pts|
    requires forall k :: 0 <= k < |tires| ==> tires[k].index != i
    ensures WheelPass(pts, tires, step)[i] == pts[i]
    decreases |tires|
  {
    if |tires| > 0 {
      WheelPassUntouched(pts, tires[..|tires| - 1], step, i);
    }
  }

  lemma OnBodyConcat(n: nat, a: seq<Tire>, b: seq<Tire>)
    ensures OnBody(n, a + b) <==> OnBody(n, a) && OnBody(n, b)
  {
    if OnBody(n, a + b) {
      forall k | 0 <= k < |a| ensures a[k].index < n {
        assert a[k] == (a + b)[k];
      }
      forall k | 0 <= k < |b| ensures b[k].index < n {
        assert b[k] == (a + b)[|a| + k];
      }
    }
  }

  /** Running the wheels of `a` and then those of `b` is running the wheels of `a + b`. */
  lemma {:induction false} WheelPassConcat(pts: seq<BeamPoint>, a: seq<Tire>, b: seq<Tire>, step: WheelUpdate)
    requires OnBody(|pts|, a + b) && KeepsFrame(step)
    ensures OnBody(|pts|, a) && OnBody(|pts|, b)
    ensures WheelPass(pts, a + b, step) == WheelPass(WheelPass(pts, a, step), b, step)
    decreases |b|
  {
    OnBodyConcat(|pts|, a, b);
    if |b| == 0 {
      assert a + b == a;
    } else {
      var n := |b| - 1;
      var ab := a + b;
      assert ab[..|ab| - 1] == a + b[..n];
      assert ab[|ab| - 1] == b[n];
      OnBodyConcat(|pts|, a, b[..n]);
      WheelPassConcat(pts, a, b[..n], step);
    }
  }

  /** With distinct points, every wheel reads the state it had before the loop, so the order
      of the wheels does not matter. */
  lemma WheelsIndependent(pts: seq<BeamPoint>, tires: seq<Tire>, step: WheelUpdate, k: nat)
    requires OnBody(|pts|, tires) && KeepsFrame(step) && DistinctIndices(tires) && k < |tires|
    ensures StateOf(WheelPass(pts, tires[..k], step), tires[k]) == StateOf(pts, tires[k])
    ensures StepOf(pts, tires, step, k) == step(tires[k], StateOf(pts, tires[k]))
  {
    WheelPassUntouched(pts, tires[..k], step, tires[k].index);
  }

  /** With distinct points, the loop sets each wheel's point to what that wheel's own update
      of its original state writes. */
  lemma WheelPassParallel(pts: seq<BeamPoint>, tires: seq<Tire>, step: WheelUpdate, k: nat)
    requires OnBody(|pts|, tires) && KeepsFrame(step) && DistinctIndices(tires) && k < |tires|
    ensures WheelPass(pts, tires, step)[tires[k].index] == step(tires[k], StateOf(pts, tires[k])).point
  {
    var t := tires[k];
    WheelsIndependent(pts, tires, step, k);
    assert tires == tires[..k + 1] + tires[k + 1..];
    WheelPassConcat(pts, tires[..k + 1], tires[k + 1..], step);
    var mid := WheelPass(pts, tires[..k + 1], step);
    assert tires[..k + 1][..k] == tires[..k];
    assert mid[t.index] == StepOf(pts, tires, step, k).point;
    WheelPassUntouched(mid, tires[k + 1..], step, t.index);
  }

  /** With distinct points, the vehicle's wheel loop gives each wheel exactly the tire update of
      its own state before the loop, with the payload the callback picks for that state. */
  lemma WheelLoopIsParallel(m: MathLib, cb: Callback, pts: seq<BeamPoint>, tires: seq<Tire>, k: nat)
    requires OnBody(|pts|, tires) && DistinctIndices(tires) && k < |tires|
    requires tires[k].config.radius != 0.0
    ensures KeepsFrame(TireUpdate(m, cb))
    ensures var s := StateOf(pts, tires[k]);
      var r := Step(m, tires[k].config, cb(tires[k].config, s), s);
      && WheelPass(pts, tires, TireUpdate(m, cb))[tires[k].index] == r.point
      && TiresAfter(pts, tires, TireUpdate(m, cb))[k] == TireAfter(tires[k], r)
  {
    TireUpdateKeepsFrame(m, cb);
    WheelPassParallel(pts, tires, TireUpdate(m, cb), k);
    WheelsIndependent(pts, tires, TireUpdate(m, cb), k);
  }

  /** The tire update keeps every wheel's identity, configuration and heading. */
  lemma TiresAfterKeepHeadings(m: MathLib, cb: Callback, pts: seq<BeamPoint>, tires: seq<Tire>)
    requires OnBody(|pts|, tires) && KeepsFrame(TireUpdate(m, cb))
    ensures |TiresAfter(pts, tires, TireUpdate(m, cb))| == |tires|
    ensures forall k :: 0 <= k < |tires| ==>
      && TiresAfter(pts, tires, TireUpdate(m, cb))[k].direction == tires[k].direction
      && TiresAfter(pts, tires, TireUpdate(m, cb))[k].index == tires[k].index
      && TiresAfter(pts, tires, TireUpdate(m, cb))[k].config == tires[k].config
  {
    TireUpdateKeepsFrame(m, cb);
  }

  /** The wheel loop never breaks the body's solver: every constraint that could be applied
      before can still be applied after. */
  lemma WheelPassKeepsTickReady(m: MathLib, pts: seq<BeamPoint>, tires: seq<Tire>, step: WheelUpdate, cs: seq<Constraint>)
    requires OnBody(|pts|, tires) && KeepsFrame(step) && TickReady(m, pts, cs)
    ensures TickReady(m, WheelPass(pts, tires, step), cs)
  {
    var r := WheelPass(pts, tires, step);
    forall c | c in cs
      ensures Applicable(m, r, c)
    {
      ApplicableOnSameFrame(m, pts, r, c);
    }
  }

  /** Proof helper: `WheelPass` unfolded once on prefixes, so that wheel `k` writes its point
      over what the wheels before it left. */
  lemma PassStep(pts0: seq<BeamPoint>, tires0: seq<Tire>, step: WheelUpdate, k: nat)
    requires OnBody(|pts0|, tires0) && KeepsFrame(step) && k < |tires0|
    ensures WheelPass(pts0, tires0[..k + 1], step)
         == WheelPass(pts0, tires0[..k], step)[tires0[k].index := StepOf(pts0, tires0, step, k).point]
  {
    PrefixOfPrefix(tires0, k);
  }

  lemma PrefixOfPrefix<T>(s: seq<T>, k: nat)
    requires k < |s|
    ensures s[..k + 1][..k] == s[..k] && s[..k + 1][k] == s[k]
  {
  }

  /** Splicing the `k`-th new element into a sequence that has the first `k` already. */
  lemma Splice<T>(after: seq<T>, orig: seq<T>, before: seq<T>, k: nat)
    requires |after| == |orig| && k < |orig|
    requires before == after[..k] + orig[k..]
    ensures before[k := after[k]] == after[..k + 1] + orig[k + 1..]
  {
    var lhs := before[k := after[k]];
    var rhs := after[..k + 1] + orig[k + 1..];
    forall j | 0 <= j < |lhs|
      ensures lhs[j] == rhs[j]
    {
    }
  }

  lemma SpliceDone<T>(after: seq<T>, orig: seq<T>)
    requires |after| == |orig|
    ensures after[..|orig|] + orig[|orig|..] == after && orig[..|orig|] == orig
  {
  }

  // ---------------------------------------------------------------------------------------
  // The vehicle object

  function TireOf(w: Wheel): Tire
    reads w
  {
    Tire(w.index, w.config, w.direction, w.rotationAngle, w.angularVelocity)
  }

  class Vehicle {
    const body: BeamBody
    const wheels: seq<Wheel>
    var inputs: VehicleInput

    /** Every wheel is a distinct point of the body's array. */
    ghost predicate Valid() {
      && body.Valid()
      && (forall k :: 0 <= k < |wheels| ==> wheels[k].points == body.points && wheels[k].index < body.points.Length)
      && (forall a, b :: 0 <= a < b < |wheels| ==> wheels[a].index != wheels[b].index)
    }

    function Tires(): seq<Tire>
      reads wheels
    {
      seq(|wheels|, k requires 0 <= k < |wheels| reads wheels => TireOf(wheels[k]))
    }

    /** `new Vehicle({ beamBody, wheels })`, with the default inputs. */
    constructor (body: BeamBody, wheels: seq<Wheel>)
      ensures this.body == body && this.wheels == wheels && inputs == DefaultInputs
    {
      this.body := body;
      this.wheels := wheels;
      inputs := DefaultInputs;
    }

    /** `applyInput(input)` */
    method ApplyInput(input: PartialInput)
      modifies this
      ensures inputs == Merge(old(inputs), input)
    {
      inputs := Merge(inputs, input);
    }

    /** `update(callback)`: each wheel's update with the payload the callback gives for it, in
        list order, then one tick of the body. The inputs are not touched. */
    method Update(m: MathLib, callback: Callback)
      requires Valid()
      requires forall k :: 0 <= k < |wheels| ==> wheels[k].config.radius != 0.0
      requires TickReady(m, body.points[..], body.constraints)
      modifies body.points, wheels
      ensures KeepsFrame(TireUpdate(m, callback))
      ensures Tires() == TiresAfter(old(body.points[..]), old(Tires()), TireUpdate(m, callback))
      ensures var mid := WheelPass(old(body.points[..]), old(Tires()), TireUpdate(m, callback));
        TickReady(m, mid, body.constraints) && body.points[..] == Tick(m, mid, body.constraints)
    {
      TireUpdateKeepsFrame(m, callback);
      ghost var pts0 := body.points[..];
      ghost var tires0 := Tires();
      RunWheels(m, callback);
      WheelPassKeepsTickReady(m, pts0, tires0, TireUpdate(m, callback), body.constraints);
      label wheelsDone:
      body.Update(m);
      TiresKept@wheelsDone();
    }

    /** `Tires()` reads only the wheel objects. */
    twostate lemma TiresKept()
      requires forall j :: 0 <= j < |wheels| ==> unchanged(wheels[j])
      ensures Tires() == old(Tires())
    {
    }

    /** The wheel loop of `update(callback)`. */
    method RunWheels(m: MathLib, callback: Callback)
      requires Valid()
      requires forall k :: 0 <= k < |wheels| ==> wheels[k].config.radius != 0.0
      requires KeepsFrame(TireUpdate(m, callback))
      modifies body.points, wheels
      ensures Tires() == TiresAfter(old(body.points[..]), old(Tires()), TireUpdate(m, callback))
      ensures body.points[..] == WheelPass(old(body.points[..]), old(Tires()), TireUpdate(m, callback))
    {
      ghost var pts0 := body.points[..];
      ghost var tires0 := Tires();
      ghost var step := TireUpdate(m, callback);
      assert OnBody(|pts0|, tires0);
      var k := 0;
      while k < |wheels|
        invariant 0 <= k <= |wheels|
        invariant body.points[..] == WheelPass(pts0, tires0[..k], step)
        invariant Tires() == TiresAfter(pts0, tires0, step)[..k] + tires0[k..]
      {
        WheelAt(m, callback, k, pts0, tires0);
        k := k + 1;
      }
      SpliceDone(TiresAfter(pts0, tires0, step), tires0);
    }

    /** One pass of the wheel loop: wheel `k`'s update, as the loop before it left the points. */
    method WheelAt(m: MathLib, callback: Callback, k: nat, ghost pts0: seq<BeamPoint>, ghost tires0: seq<Tire>)
      requires Valid() && k < |wheels| && |tires0| == |wheels|
      requires wheels[k].config.radius != 0.0
      requires OnBody(|pts0|, tires0) && KeepsFrame(TireUpdate(m, callback))
      requires body.points[..] == WheelPass(pts0, tires0[..k], TireUpdate(m, callback))
      requires Tires() == TiresAfter(pts0, tires0, TireUpdate(m, callback))[..k] + tires0[k..]
      modifies body.points, wheels[k]
      ensures body.points[..] == WheelPass(pts0, tires0[..k + 1], TireUpdate(m, callback))
      ensures Tires() == TiresAfter(pts0, tires0, TireUpdate(m, callback))[..k + 1] + tires0[k + 1..]
    {
      var w := wheels[k];
      ghost var before := Tires();
      ghost var prev := body.points[..];
      ghost var s0 := w.State();
      assert before[k] == TireOf(w);
      w.Update(m, callback(w.config, w.State()));
      ghost var s1 := w.State();
      assert s1 == StepOf(pts0, tires0, TireUpdate(m, callback), k);
      PassStep(pts0, tires0, TireUpdate(m, callback), k);
      Splice(TiresAfter(pts0, tires0, TireUpdate(m, callback)), tires0, before, k);
      forall j | 0 <= j < |wheels| && j != k
        ensures TireOf(wheels[j]) == before[j]
      {
        assert wheels[j] != w;
      }
      assert Tires() == before[k := TireOf(w)];
    }
  }
}
