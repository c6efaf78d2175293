/** The position-nudging beam solver of src/lib/kine.ts. As in the velocity solver, the body is
    a list of massless points and distance constraints fixed at construction. Each constraint
    moves the velocities of its two points equally and oppositely, and nudges their positions
    directly by a quarter of that change. Points are never integrated. Because positions change
    inside the loop, every constraint sees the nudges of the constraints before it. */
module Kine {
  import opened Types
  import opened Maths
  import opened Constraints
  import opened Sums

  datatype PhyPoint = PhyPoint(position: Vec, velocity: Vec)

  /** `new PhyPoint(position?)`: a still point, at the origin when no position is given. */
  function NewPhyPoint(position: Option<Vec>): (r: PhyPoint)
    ensures r.velocity == Zero
    ensures position.Some? ==> r.position == position.value
    ensures position.None? ==> r.position == Zero
  {
    PhyPoint(position.GetOr(Zero), Zero)
  }

  /** Stiffness of a correction (`0.75`) and the fraction of it applied to positions (`C`). */
  const V: real := 0.75
  const C: real := 0.25

  function Positions(pts: seq<PhyPoint>): seq<Vec> {
    seq(|pts|, k requires 0 <= k < |pts| => pts[k].position)
  }

  /** The correction `(vx, vy)` of one constraint between `a` and `b`. */
  function Correction(m: MathLib, a: PhyPoint, b: PhyPoint, restLength: real): Vec
    requires Dist(m, a.position, b.position) != 0.0
  {
    var dx := b.position.x - a.position.x;
    var dy := b.position.y - a.position.y;
    var dist := Dist(m, a.position, b.position);
    var diff := (restLength - dist) / dist;
    Vec(dx * diff * V, dy * diff * V)
  }

  /** What one correction needs: both points exist and are apart. */
  predicate Applicable(m: MathLib, pts: seq<PhyPoint>, c: Constraint) {
    && Fits(c.i, |pts|) && Fits(c.j, |pts|)
    && Dist(m, pts[c.i].position, pts[c.j].position) != 0.0
  }

  /** A constraint from a point to itself is never applicable: its distance is 0, where the
      source divides 0 by 0. */
  lemma SelfPairExcluded(m: MathLib, pts: seq<PhyPoint>, c: Constraint)
    requires SqrtLaw(m) && c.i == c.j
    ensures !Applicable(m, pts, c)
  {
    if Fits(c.i, |pts|) {
      DistZeroIffSame(m, pts[c.i].position, pts[c.j].position);
    }
  }

  /** Point A loses the correction from its velocity and `C` times it from its position. */
  function MoveA(p: PhyPoint, v: Vec): PhyPoint {
    PhyPoint(Vec(p.position.x - v.x * C, p.position.y - v.y * C), Vec(p.velocity.x - v.x, p.velocity.y - v.y))
  }

  /** Point B gains the correction in its velocity and `C` times it in its position. */
  function MoveB(p: PhyPoint, v: Vec): PhyPoint {
    PhyPoint(Vec(p.position.x + v.x * C, p.position.y + v.y * C), Vec(p.velocity.x + v.x, p.velocity.y + v.y))
  }

  /** One iteration of the constraint loop. B is read after A is written. */
  function ApplyConstraint(m: MathLib, pts: seq<PhyPoint>, c: Constraint): (r: seq<PhyPoint>)
    requires Applicable(m, pts, c)
    ensures |r| == |pts|
  {
    var v := Correction(m, pts[c.i], pts[c.j], c.restLength);
    var afterA := pts[c.i := MoveA(pts[c.i], v)];
    afterA[c.j := MoveB(afterA[c.j], v)]
  }

  /** Every constraint, when the loop reaches it, joins two apart points (positions move inside
      the loop, so this depends on the constraints before it). */
  predicate Relaxable(m: MathLib, pts: seq<PhyPoint>, cs: seq<Constraint>)
    decreases |cs|, 0
  {
    |cs| == 0 ||
      (Relaxable(m, pts, cs[..|cs| - 1]) && Applicable(m, Relax(m, pts, cs[..|cs| - 1]), cs[|cs| - 1]))
  }

  /** The constraint loop of `update` over the constraints `cs`, in order. */
  function Relax(m: MathLib, pts: seq<PhyPoint>, cs: seq<Constraint>): (r: seq<PhyPoint>)
    requires Relaxable(m, pts, cs)
    ensures |r| == |pts|
    decreases |cs|, 1
  {
    if |cs| == 0 then pts
    else ApplyConstraint(m, Relax(m, pts, cs[..|cs| - 1]), cs[|cs| - 1])
  }

  /** `translate(x, y)`: every position moves by `d`. */
  function Translated(pts: seq<PhyPoint>, d: Vec): seq<PhyPoint> {
    seq(|pts|, k requires 0 <= k < |pts| => pts[k].(position := pts[k].position.Add(d)))
  }

  lemma {:induction false} RelaxablePrefix(m: MathLib, pts: seq<PhyPoint>, cs: seq<Constraint>, k: nat)
    requires Relaxable(m, pts, cs) && k <= |cs|
    ensures Relaxable(m, pts, cs[..k])
    decreases |cs| - k
  {
    if k < |cs| {
      var n := |cs| - 1;
      assert cs[..n][..k] == cs[..k];
      RelaxablePrefix(m, pts, cs[..n], k);
    } else {
      assert cs[..k] == cs;
    }
  }

  /** The prefix of length `k + 1` is the prefix of length `k` and then constraint `k`. */
  lemma RelaxStep(m: MathLib, pts: seq<PhyPoint>, cs: seq<Constraint>, k: nat)
    requires Relaxable(m, pts, cs) && k < |cs|
    ensures Relaxable(m, pts, cs[..k]) && Relaxable(m, pts, cs[..k + 1])
    ensures Applicable(m, Relax(m, pts, cs[..k]), cs[k])
    ensures Relax(m, pts, cs[..k + 1]) == ApplyConstraint(m, Relax(m, pts, cs[..k]), cs[k])
  {
    RelaxablePrefix(m, pts, cs, k + 1);
    assert cs[..k + 1][..k] == cs[..k];
  }

  // ---------------------------------------------------------------------------------------
  // Conservation

  function VelocityX(p: PhyPoint): real { p.velocity.x }
  function VelocityY(p: PhyPoint): real { p.velocity.y }
  function PositionX(p: PhyPoint): real { p.position.x }
  function PositionY(p: PhyPoint): real { p.position.y }

  function VelocitySum(pts: seq<PhyPoint>): Vec { Vec(Sum(pts, VelocityX), Sum(pts, VelocityY)) }
  function PositionSum(pts: seq<PhyPoint>): Vec { Vec(Sum(pts, PositionX), Sum(pts, PositionY)) }

  /** The unweighted centroid of the points. */
  function Centroid(pts: seq<PhyPoint>): Vec
    requires |pts| > 0
  {
    Vec(PositionSum(pts).x / |pts| as real, PositionSum(pts).y / |pts| as real)
  }

  /** One correction keeps both the velocity sum and the position sum of the body. */
  lemma ApplyConserves(m: MathLib, pts: seq<PhyPoint>, c: Constraint)
    requires Applicable(m, pts, c)
    ensures VelocitySum(ApplyConstraint(m, pts, c)) == VelocitySum(pts)
    ensures PositionSum(ApplyConstraint(m, pts, c)) == PositionSum(pts)
  {
    var v := Correction(m, pts[c.i], pts[c.j], c.restLength);
    var a' := MoveA(pts[c.i], v);
    var afterA := pts[c.i := a'];
    var b' := MoveB(afterA[c.j], v);
    assert ApplyConstraint(m, pts, c) == afterA[c.j := b'];
    if c.i == c.j {
      assert b' == pts[c.i];
      assert afterA[c.j := b'] == pts;
    } else {
      SumTransfer(pts, c.i, c.j, a', b', VelocityX, v.x);
      SumTransfer(pts, c.i, c.j, a', b', VelocityY, v.y);
      SumTransfer(pts, c.i, c.j, a', b', PositionX, v.x * C);
      SumTransfer(pts, c.i, c.j, a', b', PositionY, v.y * C);
    }
  }

  /** A whole `update` keeps the velocity sum, the position sum and so the centroid. */
  lemma {:induction false} RelaxConserves(m: MathLib, pts: seq<PhyPoint>, cs: seq<Constraint>)
    requires Relaxable(m, pts, cs)
    ensures VelocitySum(Relax(m, pts, cs)) == VelocitySum(pts)
    ensures PositionSum(Relax(m, pts, cs)) == PositionSum(pts)
    ensures |pts| > 0 ==> Centroid(Relax(m, pts, cs)) == Centroid(pts)
    decreases |cs|
  {
    if |cs| > 0 {
      RelaxConserves(m, pts, cs[..|cs| - 1]);
      ApplyConserves(m, Relax(m, pts, cs[..|cs| - 1]), cs[|cs| - 1]);
    }
  }

  // ---------------------------------------------------------------------------------------
  // No integration

  /** `position - C * velocity`: the part of a position that corrections never change. */
  function Anchor(p: PhyPoint): Vec {
    Vec(p.position.x - C * p.velocity.x, p.position.y - C * p.velocity.y)
  }

  /** Every position change made by `update` is exactly `C` times the velocity change of the
      same point: velocity is never added to position. */
  lemma {:induction false} RelaxKeepsAnchors(m: MathLib, pts: seq<PhyPoint>, cs: seq<Constraint>)
    requires Relaxable(m, pts, cs)
    ensures forall k :: 0 <= k < |pts| ==> Anchor(Relax(m, pts, cs)[k]) == Anchor(pts[k])
    decreases |cs|
  {
    if |cs| > 0 {
      var prev := Relax(m, pts, cs[..|cs| - 1]);
      var c := cs[|cs| - 1];
      RelaxKeepsAnchors(m, pts, cs[..|cs| - 1]);
      var v := Correction(m, prev[c.i], prev[c.j], c.restLength);
      var afterA := prev[c.i := MoveA(prev[c.i], v)];
      assert forall p :: Anchor(MoveA(p, v)) == Anchor(p) && Anchor(MoveB(p, v)) == Anchor(p);
      assert forall k :: 0 <= k < |pts| ==> Anchor(afterA[k]) == Anchor(prev[k]);
    }
  }

  // ---------------------------------------------------------------------------------------
  // Constraints at rest

  /** A pair already at its rest length is left completely unchanged. */
  lemma ApplyAtRest(m: MathLib, pts: seq<PhyPoint>, c: Constraint)
    requires Applicable(m, pts, c)
    requires Dist(m, pts[c.i].position, pts[c.j].position) == c.restLength
    ensures ApplyConstraint(m, pts, c) == pts
  {
    var v := Correction(m, pts[c.i], pts[c.j], c.restLength);
    assert v == Zero;
  }

  /** If every constraint is at rest, `update` changes no point (velocities included). */
  lemma {:induction false} RelaxAtRest(m: MathLib, pts: seq<PhyPoint>, cs: seq<Constraint>)
    requires forall c :: c in cs ==>
      Applicable(m, pts, c) && Dist(m, pts[c.i].position, pts[c.j].position) == c.restLength
    ensures Relaxable(m, pts, cs)
    ensures Relax(m, pts, cs) == pts
    decreases |cs|
  {
    if |cs| > 0 {
      RelaxAtRest(m, pts, cs[..|cs| - 1]);
      ApplyAtRest(m, pts, cs[|cs| - 1]);
    }
  }

  // ---------------------------------------------------------------------------------------
  // Order dependence

  /** Three points on a line, two apart, joined by two constraints of rest length 1. */
  function LinePoints(): seq<PhyPoint> {
    [PhyPoint(Vec(0.0, 0.0), Zero), PhyPoint(Vec(2.0, 0.0), Zero), PhyPoint(Vec(4.0, 0.0), Zero)]
  }

  /** Proof helper: `Relax` unfolded for two constraints. */
  lemma RelaxTwo(m: MathLib, pts: seq<PhyPoint>, c1: Constraint, c2: Constraint)
    requires Applicable(m, pts, c1) && Applicable(m, ApplyConstraint(m, pts, c1), c2)
    ensures Relaxable(m, pts, [c1, c2])
    ensures Relax(m, pts, [c1, c2]) == ApplyConstraint(m, ApplyConstraint(m, pts, c1), c2)
  {
    assert [c1, c2][..1] == [c1] && [c1][..0] == [];
  }

  /** Where a correction between two distinct points lands: A and B move, the rest stay. */
  lemma ApplyAt2(m: MathLib, pts: seq<PhyPoint>, c: Constraint, k: nat)
    requires Applicable(m, pts, c) && c.i != c.j && k < |pts|
    ensures ApplyConstraint(m, pts, c)[k] ==
      if k == c.i then MoveA(pts[k], Correction(m, pts[c.i], pts[c.j], c.restLength))
      else if k == c.j then MoveB(pts[k], Correction(m, pts[c.i], pts[c.j], c.restLength))
      else pts[k]
  {
  }

  /** The correction of a constraint of rest length 1 between two still points 2 apart on the
      x axis, and between points 2.1875 apart. */
  lemma AxisCorrection(m: MathLib, a: PhyPoint, b: PhyPoint)
    requires SqrtLaw(m)
    requires a.position.y == 0.0 && b.position.y == 0.0
    requires b.position.x - a.position.x == 2.0 || b.position.x - a.position.x == 2.1875
    ensures Dist(m, a.position, b.position) != 0.0
    ensures b.position.x - a.position.x == 2.0 ==> Correction(m, a, b, 1.0) == Vec(-0.75, 0.0)
    ensures b.position.x - a.position.x == 2.1875 ==> Correction(m, a, b, 1.0) == Vec(-0.890625, 0.0)
  {
    var dx := a.position.x - b.position.x;
    SqrtOfSquare(m, dx);
    assert dx * dx + 0.0 * 0.0 == dx * dx;
    assert Dist(m, a.position, b.position) == -dx;
  }

  /** The left constraint applied first: it pulls points 0 and 1 together. */
  lemma LeftThenRight(m: MathLib)
    requires SqrtLaw(m)
    ensures Relaxable(m, LinePoints(), [Constraint(0, 1, 1.0), Constraint(1, 2, 1.0)])
    ensures Relax(m, LinePoints(), [Constraint(0, 1, 1.0), Constraint(1, 2, 1.0)])[1].velocity == Vec(0.140625, 0.0)
  {
    var pts := LinePoints();
    var left, right := Constraint(0, 1, 1.0), Constraint(1, 2, 1.0);
    AxisCorrection(m, pts[0], pts[1]);
    var p1 := ApplyConstraint(m, pts, left);
    ApplyAt2(m, pts, left, 1);
    ApplyAt2(m, pts, left, 2);
    assert p1[1] == PhyPoint(Vec(1.8125, 0.0), Vec(-0.75, 0.0));
    AxisCorrection(m, p1[1], p1[2]);
    ApplyAt2(m, p1, right, 1);
    RelaxTwo(m, pts, left, right);
  }

  /** The right constraint applied first: it pulls points 1 and 2 together. */
  lemma RightThenLeft(m: MathLib)
    requires SqrtLaw(m)
    ensures Relaxable(m, LinePoints(), [Constraint(1, 2, 1.0), Constraint(0, 1, 1.0)])
    ensures Relax(m, LinePoints(), [Constraint(1, 2, 1.0), Constraint(0, 1, 1.0)])[1].velocity == Vec(-0.140625, 0.0)
  {
    var pts := LinePoints();
    var left, right := Constraint(0, 1, 1.0), Constraint(1, 2, 1.0);
    AxisCorrection(m, pts[1], pts[2]);
    var q1 := ApplyConstraint(m, pts, right);
    ApplyAt2(m, pts, right, 0);
    ApplyAt2(m, pts, right, 1);
    assert q1[1] == PhyPoint(Vec(2.1875, 0.0), Vec(0.75, 0.0));
    AxisCorrection(m, q1[0], q1[1]);
    ApplyAt2(m, q1, left, 1);
    RelaxTwo(m, pts, right, left);
  }

  /** Unlike the velocity solver, this one depends on the constraint order: the same two
      constraints of `LinePoints`, swapped, leave the middle point moving in opposite
      directions. */
  lemma OrderMatters(m: MathLib)
    requires SqrtLaw(m)
    ensures Relaxable(m, LinePoints(), [Constraint(0, 1, 1.0), Constraint(1, 2, 1.0)])
    ensures Relaxable(m, LinePoints(), [Constraint(1, 2, 1.0), Constraint(0, 1, 1.0)])
    ensures Relax(m, LinePoints(), [Constraint(0, 1, 1.0), Constraint(1, 2, 1.0)])
         != Relax(m, LinePoints(), [Constraint(1, 2, 1.0), Constraint(0, 1, 1.0)])
  {
    LeftThenRight(m);
    RightThenLeft(m);
  }

  // ---------------------------------------------------------------------------------------
  // Rigid translation

  lemma ApplyTranslated(m: MathLib, pts: seq<PhyPoint>, c: Constraint, d: Vec)
    requires Applicable(m, pts, c)
    ensures Applicable(m, Translated(pts, d), c)
    ensures ApplyConstraint(m, Translated(pts, d), c) == Translated(ApplyConstraint(m, pts, c), d)
  {
    var t := Translated(pts, d);
    DistTranslationInvariant(m, pts[c.i].position, pts[c.j].position, d);
    assert Correction(m, t[c.i], t[c.j], c.restLength) == Correction(m, pts[c.i], pts[c.j], c.restLength);
  }

  /** Translating a body commutes with `update`: the dynamics see only relative positions. */
  lemma {:induction false} RelaxTranslated(m: MathLib, pts: seq<PhyPoint>, cs: seq<Constraint>, d: Vec)
    requires Relaxable(m, pts, cs)
    ensures Relaxable(m, Translated(pts, d), cs)
    ensures Relax(m, Translated(pts, d), cs) == Translated(Relax(m, pts, cs), d)
    decreases |cs|
  {
    if |cs| > 0 {
      RelaxTranslated(m, pts, cs[..|cs| - 1], d);
      ApplyTranslated(m, Relax(m, pts, cs[..|cs| - 1]), cs[|cs| - 1], d);
    }
  }

  /** Translation keeps velocities and every pairwise distance. */
  lemma TranslatedKeepsShape(m: MathLib, pts: seq<PhyPoint>, d: Vec, a: nat, b: nat)
    requires a < |pts| && b < |pts|
    ensures |Translated(pts, d)| == |pts|
    ensures Translated(pts, d)[a].velocity == pts[a].velocity
    ensures Translated(pts, d)[a].position == pts[a].position.Add(d)
    ensures Dist(m, Translated(pts, d)[a].position, Translated(pts, d)[b].position)
         == Dist(m, pts[a].position, pts[b].position)
  {
    DistTranslationInvariant(m, pts[a].position, pts[b].position, d);
  }

  // ---------------------------------------------------------------------------------------
  // The body

  class BeamBody {
    const points: array<PhyPoint>
    const constraints: seq<Constraint>

    ghost predicate Valid() {
      ConstraintsFit(constraints, points.Length)
    }

    constructor (points: array<PhyPoint>, constraints: seq<Constraint>)
      requires ConstraintsFit(constraints, points.Length)
      ensures this.points == points && this.constraints == constraints
      ensures Valid()
    {
      this.points := points;
      this.constraints := constraints;
    }

    /** `new BeamBody(points, pairs)`: keeps the given array and records each pair's current
        distance as its rest length, or fails on the first pair index without a point. */
    static method Build(m: MathLib, points: array<PhyPoint>, pairs: seq<IndexPair>)
      returns (r: Result<BeamBody, ConstructionError>)
      ensures r.Success? <==> AllPairsFit(pairs, points.Length)
      ensures r.Success? ==>
        && fresh(r.value) && r.value.points == points && r.value.Valid()
        && r.value.constraints == RestLengths(m, Positions(points[..]), pairs)
      ensures r.Failure? ==>
        exists k :: 0 <= k < |pairs| && !PairFits(pairs[k], points.Length)
          && (forall q :: 0 <= q < k ==> PairFits(pairs[q], points.Length))
          && r.error == MissingPoint(MissingIndex(pairs[k], points.Length), points.Length)
    {
      var cs := ComputeConstraintLengths(m, Positions(points[..]), pairs);
      match cs
      case Failure(e) =>
        r := Failure(e);
      case Success(list) =>
        var body := new BeamBody(points, list);
        r := Success(body);
    }

    /** `update`: the constraint loop, in list order, on the points in place. */
    method Update(m: MathLib)
      requires Relaxable(m, points[..], constraints)
      modifies points
      ensures points[..] == Relax(m, old(points[..]), constraints)
    {
      ghost var start := points[..];
      var k := 0;
      while k < |constraints|
        invariant 0 <= k <= |constraints|
        invariant Relaxable(m, start, constraints[..k])
        invariant points[..] == Relax(m, start, constraints[..k])
      {
        RelaxStep(m, start, constraints, k);
        ApplyAt(m, constraints[k]);
        k := k + 1;
      }
      assert constraints[..k] == constraints;
    }

    /** One pass of the constraint loop body, for constraint `c`: A's and B's velocities, then
        A's and B's positions, each read from the array as it stands. */
    method ApplyAt(m: MathLib, c: Constraint)
      requires Applicable(m, points[..], c)
      modifies points
      ensures points[..] == ApplyConstraint(m, old(points[..]), c)
    {
      var a := points[c.i];
      var b := points[c.j];
      var dx := b.position.x - a.position.x;
      var dy := b.position.y - a.position.y;
      var dist := Dist(m, a.position, b.position);
      var diff := (c.restLength - dist) / dist;
      var v := Vec(dx * diff * V, dy * diff * V);
      assert v == Correction(m, a, b, c.restLength);
      var p := points[c.i];
      points[c.i] := p.(velocity := Vec(p.velocity.x - v.x, p.velocity.y - v.y));
      p := points[c.j];
      points[c.j] := p.(velocity := Vec(p.velocity.x + v.x, p.velocity.y + v.y));
      p := points[c.i];
      points[c.i] := p.(position := Vec(p.position.x - v.x * C, p.position.y - v.y * C));
      p := points[c.j];
      points[c.j] := p.(position := Vec(p.position.x + v.x * C, p.position.y + v.y * C));
    }

    /** `translate(x, y)`: every position moves by `(x, y)`. */
    method Translate(x: real, y: real)
      modifies points
      ensures points[..] == Translated(old(points[..]), Vec(x, y))
    {
      var k := 0;
      while k < points.Length
        invariant 0 <= k <= points.Length
        invariant forall q :: 0 <= q < k ==>
          points[q] == old(points[q]).(position := old(points[q]).position.Add(Vec(x, y)))
        invariant forall q :: k <= q < points.Length ==> points[q] == old(points[q])
      {
        var p := points[k];
        points[k] := p.(position := Vec(p.position.x + x, p.position.y + y));
        k := k + 1;
      }
    }
  }
}
