/** The velocity-correcting beam solver of src/lib/beam.ts. A body is an array of mass points
    and a list of distance constraints fixed at construction. A tick corrects velocities once
    per constraint, in list order. Each correction is shared between the two points by inverse
    mass. After that, every position advances by its velocity. */
module Beam {
  import opened Types
  import opened Maths
  import opened Constraints
  import opened Sums

  datatype BeamPoint = BeamPoint(position: Vec, velocity: Vec, mass: real)

  /** `new BeamPoint(position?, mass?)`: the origin and mass 1 stand in for omitted arguments. */
  function NewBeamPoint(position: Option<Vec>, mass: Option<real>): (r: BeamPoint)
    ensures r.velocity == Zero
    ensures position.Some? ==> r.position == position.value
    ensures position.None? ==> r.position == Zero
    ensures mass.Some? ==> r.mass == mass.value
    ensures mass.None? ==> r.mass == 1.0
  {
    BeamPoint(position.GetOr(Zero), Zero, mass.GetOr(1.0))
  }

  /** Damping constant `D` of every velocity correction. */
  const D: real := 0.5

  function Positions(pts: seq<BeamPoint>): seq<Vec> {
    seq(|pts|, k requires 0 <= k < |pts| => pts[k].position)
  }

  /** `b` has the points of `a` with the same positions and masses (velocities may differ). */
  predicate SameFrame(a: seq<BeamPoint>, b: seq<BeamPoint>) {
    |a| == |b| && forall k :: 0 <= k < |a| ==> a[k].position == b[k].position && a[k].mass == b[k].mass
  }

  /** Helper for real division: two fractions agree when their cross products do. */
  lemma DivEq(x: real, y: real, z: real, t: real)
    requires y != 0.0 && t != 0.0 && x * t == z * y
    ensures x / y == z / t
  {
    assert x / y == (x * t) / (y * t);
    assert z / t == (z * y) / (t * y);
  }

  /** Point A's share `s1` of a correction. Point B gets `s2 = 1 - s1`. */
  function Share(ma: real, mb: real): real
    requires 0.0 < ma && 0.0 < mb
  {
    (1.0 / ma) / ((1.0 / ma) + (1.0 / mb))
  }

  /** The shares are inverse to the masses: they lie strictly between 0 and 1, and they sum to 1.
      They balance the masses (`mA * s1 == mB * s2`). The lighter point takes the larger share,
      and equal masses split evenly. */
  lemma ShareProperties(ma: real, mb: real)
    requires 0.0 < ma && 0.0 < mb
    ensures 0.0 < Share(ma, mb) < 1.0
    ensures Share(ma, mb) == mb / (ma + mb)
    ensures ma * Share(ma, mb) == mb * (1.0 - Share(ma, mb))
    ensures Share(ma, mb) > 1.0 - Share(ma, mb) <==> ma < mb
    ensures ma == mb ==> Share(ma, mb) == 0.5
  {
    var u, w := 1.0 / ma, 1.0 / mb;
    assert u * ma == 1.0 && w * mb == 1.0;
    assert 0.0 < u && 0.0 < w;
    assert u * (ma + mb) == u * ma + u * mb;
    assert mb * (u + w) == mb * u + mb * w;
    DivEq(u, u + w, mb, ma + mb);
    var s := mb / (ma + mb);
    assert s * (ma + mb) == mb;
    assert ma * s == mb * (1.0 - s) by {
      assert ma * s + mb * s == mb;
    }
    assert 0.0 < s;
    assert s < 1.0 by {
      assert s * (ma + mb) < 1.0 * (ma + mb);
    }
    assert s > 1.0 - s <==> ma < mb by {
      assert (2.0 * s - 1.0) * (ma + mb) == mb - ma;
      if ma < mb {
        assert (2.0 * s - 1.0) * (ma + mb) > 0.0;
      }
      if s > 1.0 - s {
        assert 2.0 * s - 1.0 > 0.0;
      }
    }
  }

  /** The correction vector `(vx, vy)` of one constraint between `a` and `b`. */
  function Correction(m: MathLib, a: BeamPoint, b: BeamPoint, restLength: real): Vec
    requires Dist(m, a.position, b.position) != 0.0
  {
    var dx := b.position.x - a.position.x;
    var dy := b.position.y - a.position.y;
    var dist := Dist(m, a.position, b.position);
    var diff := (restLength - dist) / dist;
    Vec(dx * diff * D, dy * diff * D)
  }

  /** What one correction needs: both points exist, have positive mass and are apart. */
  predicate Applicable(m: MathLib, pts: seq<BeamPoint>, c: Constraint) {
    && Fits(c.i, |pts|) && Fits(c.j, |pts|)
    && 0.0 < pts[c.i].mass && 0.0 < pts[c.j].mass
    && Dist(m, pts[c.i].position, pts[c.j].position) != 0.0
  }

  predicate TickReady(m: MathLib, pts: seq<BeamPoint>, cs: seq<Constraint>) {
    forall c :: c in cs ==> Applicable(m, pts, c)
  }

  lemma ApplicableOnSameFrame(m: MathLib, p: seq<BeamPoint>, q: seq<BeamPoint>, c: Constraint)
    requires SameFrame(p, q) && Applicable(m, p, c)
    ensures Applicable(m, q, c)
    ensures Correction(m, p[c.i], p[c.j], c.restLength) == Correction(m, q[c.i], q[c.j], c.restLength)
  {
  }

  /** A's velocity after losing the share `s` of correction `v`. */
  function PushA(p: BeamPoint, v: Vec, s: real): BeamPoint {
    p.(velocity := Vec(p.velocity.x - v.x * s, p.velocity.y - v.y * s))
  }

  /** B's velocity after gaining the share `s` of correction `v`. */
  function PushB(p: BeamPoint, v: Vec, s: real): BeamPoint {
    p.(velocity := Vec(p.velocity.x + v.x * s, p.velocity.y + v.y * s))
  }

  /** One iteration of the constraint loop: A's velocity loses `s1` of the correction, then B
      (read again after A is written) gains `s2`. */
  function ApplyConstraint(m: MathLib, pts: seq<BeamPoint>, c: Constraint): (r: seq<BeamPoint>)
    requires Applicable(m, pts, c)
    ensures SameFrame(pts, r)
  {
    var v := Correction(m, pts[c.i], pts[c.j], c.restLength);
    var s1 := Share(pts[c.i].mass, pts[c.j].mass);
    var afterA := pts[c.i := PushA(pts[c.i], v, s1)];
    afterA[c.j := PushB(afterA[c.j], v, 1.0 - s1)]
  }

  /** The constraint loop over the first `|cs|` constraints. */
  function Relax(m: MathLib, pts: seq<BeamPoint>, cs: seq<Constraint>): (r: seq<BeamPoint>)
    requires TickReady(m, pts, cs)
    ensures SameFrame(pts, r)
    decreases |cs|
  {
    if |cs| == 0 then pts
    else
      var prev := Relax(m, pts, cs[..|cs| - 1]);
      ApplicableOnSameFrame(m, pts, prev, cs[|cs| - 1]);
      ApplyConstraint(m, prev, cs[|cs| - 1])
  }

  /** `updatePositions`: every position advances by its velocity. */
  function Integrated(pts: seq<BeamPoint>): seq<BeamPoint> {
    seq(|pts|, k requires 0 <= k < |pts| => pts[k].(position := pts[k].position.Add(pts[k].velocity)))
  }

  /** One `update`: relax the velocities, then integrate once. */
  function Tick(m: MathLib, pts: seq<BeamPoint>, cs: seq<Constraint>): (r: seq<BeamPoint>)
    requires TickReady(m, pts, cs)
    ensures |r| == |pts|
    ensures forall k :: 0 <= k < |pts| ==>
      && r[k].mass == pts[k].mass
      && r[k].velocity == Relax(m, pts, cs)[k].velocity
      && r[k].position == pts[k].position.Add(r[k].velocity)
  {
    Integrated(Relax(m, pts, cs))
  }

  /** `translate(x, y)`: every position moves by `d`. */
  function Translated(pts: seq<BeamPoint>, d: Vec): seq<BeamPoint> {
    seq(|pts|, k requires 0 <= k < |pts| => pts[k].(position := pts[k].position.Add(d)))
  }

  // ---------------------------------------------------------------------------------------
  // Mass-weighted sums

  function Mass(p: BeamPoint): real { p.mass }
  function MomentumX(p: BeamPoint): real { p.mass * p.velocity.x }
  function MomentumY(p: BeamPoint): real { p.mass * p.velocity.y }
  function MomentX(p: BeamPoint): real { p.position.x * p.mass }
  function MomentY(p: BeamPoint): real { p.position.y * p.mass }

  /** Linear momentum `sum m * v`. */
  function Momentum(pts: seq<BeamPoint>): Vec {
    Vec(Sum(pts, MomentumX), Sum(pts, MomentumY))
  }

  function TotalMass(pts: seq<BeamPoint>): real { Sum(pts, Mass) }

  /** `sum m * position` */
  function MassMoment(pts: seq<BeamPoint>): Vec {
    Vec(Sum(pts, MomentX), Sum(pts, MomentY))
  }

  function CenterOf(pts: seq<BeamPoint>): Vec
    requires TotalMass(pts) != 0.0
  {
    Vec(MassMoment(pts).x / TotalMass(pts), MassMoment(pts).y / TotalMass(pts))
  }

  // ---------------------------------------------------------------------------------------
  // Momentum conservation

  /** Each correction conserves linear momentum: `mA * dvA + mB * dvB == 0`. */
  lemma ApplyConservesMomentum(m: MathLib, pts: seq<BeamPoint>, c: Constraint)
    requires Applicable(m, pts, c)
    ensures Momentum(ApplyConstraint(m, pts, c)) == Momentum(pts)
  {
    if c.i == c.j {
      ApplySelfPair(m, pts, c);
    } else {
      var a := pts[c.i];
      var b := pts[c.j];
      var v := Correction(m, a, b, c.restLength);
      var s1 := Share(a.mass, b.mass);
      ApplyShape(m, pts, c);
      assert pts[c.i := PushA(a, v, s1)][c.j] == b;
      ShareProperties(a.mass, b.mass);
      PairMomentum(pts, c.i, c.j, v, s1);
    }
  }

  /** Helper for proofs over an arbitrary square root: if a self-pair were applicable, its
      correction would be zero. With a lawful square root no self-pair is applicable
      (`SelfPairExcluded`). */
  lemma ApplySelfPair(m: MathLib, pts: seq<BeamPoint>, c: Constraint)
    requires Applicable(m, pts, c) && c.i == c.j
    ensures ApplyConstraint(m, pts, c) == pts
  {
    var a := pts[c.i];
    var v := Correction(m, a, a, c.restLength);
    assert v == Zero;
    ApplyShape(m, pts, c);
    assert PushA(a, v, Share(a.mass, a.mass)) == a;
  }

  /** A constraint from a point to itself is never applicable: its distance is 0, where the
      source divides 0 by 0. */
  lemma SelfPairExcluded(m: MathLib, pts: seq<BeamPoint>, c: Constraint)
    requires SqrtLaw(m) && c.i == c.j
    ensures !Applicable(m, pts, c)
  {
    if Fits(c.i, |pts|) {
      DistZeroIffSame(m, pts[c.i].position, pts[c.j].position);
    }
  }

  /** Proof helper: `ApplyConstraint` unfolded, so that callers can name its two writes. */
  lemma ApplyShape(m: MathLib, pts: seq<BeamPoint>, c: Constraint)
    requires Applicable(m, pts, c)
    ensures ApplyConstraint(m, pts, c) ==
      var v := Correction(m, pts[c.i], pts[c.j], c.restLength);
      var s1 := Share(pts[c.i].mass, pts[c.j].mass);
      pts[c.i := PushA(pts[c.i], v, s1)][c.j := PushB(pts[c.i := PushA(pts[c.i], v, s1)][c.j], v, 1.0 - s1)]
  {
  }

  lemma MulEq(x: real, a: real, b: real)
    requires a == b
    ensures x * a == x * b
  {
  }

  /** Pushing two distinct points in opposite directions with mass-balanced shares keeps the
      momentum. */
  lemma PairMomentum(pts: seq<BeamPoint>, i: nat, j: nat, v: Vec, s1: real)
    requires i < |pts| && j < |pts| && i != j
    requires pts[i].mass * s1 == pts[j].mass * (1.0 - s1)
    ensures Momentum(pts[i := PushA(pts[i], v, s1)][j := PushB(pts[j], v, 1.0 - s1)]) == Momentum(pts)
  {
    PairMomentumX(pts, i, j, v, s1);
    PairMomentumY(pts, i, j, v, s1);
  }

  lemma PairMomentumX(pts: seq<BeamPoint>, i: nat, j: nat, v: Vec, s1: real)
    requires i < |pts| && j < |pts| && i != j
    requires pts[i].mass * s1 == pts[j].mass * (1.0 - s1)
    ensures Sum(pts[i := PushA(pts[i], v, s1)][j := PushB(pts[j], v, 1.0 - s1)], MomentumX) == Sum(pts, MomentumX)
  {
    var a', b' := PushA(pts[i], v, s1), PushB(pts[j], v, 1.0 - s1);
    var ka, kb := pts[i].mass * s1, pts[j].mass * (1.0 - s1);
    PushMomentum(pts[i], v, s1);
    PushMomentum(pts[j], v, 1.0 - s1);
    MulEq(v.x, ka, kb);
    assert MomentumX(b') == MomentumX(pts[j]) + v.x * ka;
    SumTransfer(pts, i, j, a', b', MomentumX, v.x * ka);
  }

  lemma PairMomentumY(pts: seq<BeamPoint>, i: nat, j: nat, v: Vec, s1: real)
    requires i < |pts| && j < |pts| && i != j
    requires pts[i].mass * s1 == pts[j].mass * (1.0 - s1)
    ensures Sum(pts[i := PushA(pts[i], v, s1)][j := PushB(pts[j], v, 1.0 - s1)], MomentumY) == Sum(pts, MomentumY)
  {
    var a', b' := PushA(pts[i], v, s1), PushB(pts[j], v, 1.0 - s1);
    var ka, kb := pts[i].mass * s1, pts[j].mass * (1.0 - s1);
    PushMomentum(pts[i], v, s1);
    PushMomentum(pts[j], v, 1.0 - s1);
    MulEq(v.y, ka, kb);
    assert MomentumY(b') == MomentumY(pts[j]) + v.y * ka;
    SumTransfer(pts, i, j, a', b', MomentumY, v.y * ka);
  }

  /** Momentum change of one point under a push. */
  lemma PushMomentum(p: BeamPoint, v: Vec, s: real)
    ensures MomentumX(PushA(p, v, s)) == MomentumX(p) - v.x * (p.mass * s)
    ensures MomentumY(PushA(p, v, s)) == MomentumY(p) - v.y * (p.mass * s)
    ensures MomentumX(PushB(p, v, s)) == MomentumX(p) + v.x * (p.mass * s)
    ensures MomentumY(PushB(p, v, s)) == MomentumY(p) + v.y * (p.mass * s)
  {
  }

  lemma {:induction false} RelaxConservesMomentum(m: MathLib, pts: seq<BeamPoint>, cs: seq<Constraint>)
    requires TickReady(m, pts, cs)
    ensures Momentum(Relax(m, pts, cs)) == Momentum(pts)
    decreases |cs|
  {
    if |cs| > 0 {
      var prev := Relax(m, pts, cs[..|cs| - 1]);
      RelaxConservesMomentum(m, pts, cs[..|cs| - 1]);
      ApplicableOnSameFrame(m, pts, prev, cs[|cs| - 1]);
      ApplyConservesMomentum(m, prev, cs[|cs| - 1]);
    }
  }

  /** A whole `update` leaves the body's total momentum unchanged. */
  lemma TickConservesMomentum(m: MathLib, pts: seq<BeamPoint>, cs: seq<Constraint>)
    requires TickReady(m, pts, cs)
    ensures Momentum(Tick(m, pts, cs)) == Momentum(pts)
  {
    RelaxConservesMomentum(m, pts, cs);
    MomentumOfMotion(Tick(m, pts, cs), Relax(m, pts, cs));
  }

  /** Momentum depends only on the masses and velocities. */
  lemma MomentumOfMotion(a: seq<BeamPoint>, b: seq<BeamPoint>)
    requires |a| == |b|
    requires forall k :: 0 <= k < |a| ==> a[k].mass == b[k].mass && a[k].velocity == b[k].velocity
    ensures Momentum(a) == Momentum(b)
  {
    assert forall k :: 0 <= k < |a| ==> MomentumX(a[k]) == MomentumX(b[k]) && MomentumY(a[k]) == MomentumY(b[k]);
    SumPointwise(a, b, MomentumX, MomentumX);
    SumPointwise(a, b, MomentumY, MomentumY);
  }

  // ---------------------------------------------------------------------------------------
  // Constraints at rest

  /** A pair already at its rest length receives no correction at all. */
  lemma ApplyAtRest(m: MathLib, pts: seq<BeamPoint>, c: Constraint)
    requires Applicable(m, pts, c)
    requires Dist(m, pts[c.i].position, pts[c.j].position) == c.restLength
    ensures ApplyConstraint(m, pts, c) == pts
  {
    var v := Correction(m, pts[c.i], pts[c.j], c.restLength);
    assert v == Zero;
  }

  /** A body whose constraints are all at rest and whose points are still does not move. */
  lemma {:induction false} TickAtRest(m: MathLib, pts: seq<BeamPoint>, cs: seq<Constraint>)
    requires TickReady(m, pts, cs)
    requires forall c :: c in cs ==> Dist(m, pts[c.i].position, pts[c.j].position) == c.restLength
    requires forall k :: 0 <= k < |pts| ==> pts[k].velocity == Zero
    ensures Relax(m, pts, cs) == pts
    ensures Tick(m, pts, cs) == pts
    decreases |cs|
  {
    if |cs| > 0 {
      TickAtRest(m, pts, cs[..|cs| - 1]);
      ApplyAtRest(m, pts, cs[|cs| - 1]);
    }
    var r := Tick(m, pts, cs);
    assert forall k :: 0 <= k < |pts| ==> r[k] == pts[k];
  }

  // ---------------------------------------------------------------------------------------
  // Order independence

  /** Velocity change that constraint `c` gives point `k`, computed from `pts` (none when the
      constraint cannot be applied). */
  function Delta(m: MathLib, pts: seq<BeamPoint>, c: Constraint, k: int): Vec {
    if !Applicable(m, pts, c) then Zero
    else
      var v := Correction(m, pts[c.i], pts[c.j], c.restLength);
      var s1 := Share(pts[c.i].mass, pts[c.j].mass);
      (if k == c.i then v.Scale(-s1) else Zero).Add(if k == c.j then v.Scale(1.0 - s1) else Zero)
  }

  lemma ApplyIsDelta(m: MathLib, pts: seq<BeamPoint>, c: Constraint, k: nat)
    requires Applicable(m, pts, c) && k < |pts|
    ensures ApplyConstraint(m, pts, c)[k].velocity == pts[k].velocity.Add(Delta(m, pts, c, k))
  {
    if c.i == c.j {
      ApplySelfPair(m, pts, c);
      assert Correction(m, pts[c.i], pts[c.j], c.restLength) == Zero;
    } else {
      var a := pts[c.i];
      var v := Correction(m, a, pts[c.j], c.restLength);
      var s1 := Share(a.mass, pts[c.j].mass);
      ApplyShape(m, pts, c);
      var r := pts[c.i := PushA(a, v, s1)][c.j := PushB(pts[c.j], v, 1.0 - s1)];
      assert ApplyConstraint(m, pts, c) == r;
      if k == c.i {
        PushIsDelta(a, v, s1);
      } else if k == c.j {
        PushIsDelta(pts[c.j], v, 1.0 - s1);
      }
    }
  }

  /** Proof helper: each push written as the velocity plus its delta. */
  lemma PushIsDelta(p: BeamPoint, v: Vec, s: real)
    ensures PushA(p, v, s).velocity == p.velocity.Add(v.Scale(-s).Add(Zero))
    ensures PushB(p, v, s).velocity == p.velocity.Add(Zero.Add(v.Scale(s)))
  {
  }

  /** Sum over `cs` of the velocity changes of point `k`, all computed from `pts`. */
  function TotalDelta(m: MathLib, pts: seq<BeamPoint>, cs: seq<Constraint>, k: int): Vec {
    Vec(Sum(cs, (c: Constraint) => Delta(m, pts, c, k).x), Sum(cs, (c: Constraint) => Delta(m, pts, c, k).y))
  }

  /** Since the loop writes only velocities, the relaxed velocity of every point is its start
      velocity plus each constraint's change computed from the start-of-tick positions. */
  lemma {:induction false} RelaxIsTotalDelta(m: MathLib, pts: seq<BeamPoint>, cs: seq<Constraint>, k: nat)
    requires TickReady(m, pts, cs) && k < |pts|
    ensures Relax(m, pts, cs)[k].velocity == pts[k].velocity.Add(TotalDelta(m, pts, cs, k))
    decreases |cs|
  {
    if |cs| > 0 {
      var c := cs[|cs| - 1];
      var prev := Relax(m, pts, cs[..|cs| - 1]);
      RelaxIsTotalDelta(m, pts, cs[..|cs| - 1], k);
      ApplicableOnSameFrame(m, pts, prev, c);
      ApplyIsDelta(m, prev, c, k);
      assert Delta(m, prev, c, k) == Delta(m, pts, c, k);
    }
  }

  /** In exact arithmetic the outcome of the constraint loop does not depend on the order of
      the constraint list: any permutation of it gives the same points. */
  lemma RelaxOrderIndependent(m: MathLib, pts: seq<BeamPoint>, a: seq<Constraint>, b: seq<Constraint>)
    requires TickReady(m, pts, a) && TickReady(m, pts, b)
    requires multiset(a) == multiset(b)
    ensures Relax(m, pts, a) == Relax(m, pts, b)
    ensures Tick(m, pts, a) == Tick(m, pts, b)
  {
    var ra, rb := Relax(m, pts, a), Relax(m, pts, b);
    forall k | 0 <= k < |pts|
      ensures ra[k] == rb[k]
    {
      RelaxIsTotalDelta(m, pts, a, k);
      RelaxIsTotalDelta(m, pts, b, k);
      SumPermutation(a, b, (c: Constraint) => Delta(m, pts, c, k).x);
      SumPermutation(a, b, (c: Constraint) => Delta(m, pts, c, k).y);
    }
  }

  // ---------------------------------------------------------------------------------------
  // Rigid translation

  /** Translation keeps velocities, masses and every pairwise distance. */
  lemma TranslatedKeepsShape(m: MathLib, pts: seq<BeamPoint>, d: Vec, a: nat, b: nat)
    requires a < |pts| && b < |pts|
    ensures |Translated(pts, d)| == |pts|
    ensures Translated(pts, d)[a].velocity == pts[a].velocity && Translated(pts, d)[a].mass == pts[a].mass
    ensures Dist(m, Translated(pts, d)[a].position, Translated(pts, d)[b].position)
         == Dist(m, pts[a].position, pts[b].position)
  {
    DistTranslationInvariant(m, pts[a].position, pts[b].position, d);
  }

  lemma TranslatedMass(pts: seq<BeamPoint>, d: Vec)
    ensures TotalMass(Translated(pts, d)) == TotalMass(pts)
  {
    var t := Translated(pts, d);
    assert forall k :: 0 <= k < |pts| ==> Mass(pts[k]) == Mass(t[k]);
    SumPointwise(pts, t, Mass, Mass);
  }

  lemma {:induction false} TranslatedMomentX(pts: seq<BeamPoint>, d: Vec)
    ensures Sum(Translated(pts, d), MomentX) == Sum(pts, MomentX) + d.x * TotalMass(pts)
    decreases |pts|
  {
    if |pts| > 0 {
      var n := |pts| - 1;
      var p := pts[n];
      assert Translated(pts, d)[..n] == Translated(pts[..n], d);
      TranslatedMomentX(pts[..n], d);
      assert MomentX(Translated(pts, d)[n]) == MomentX(p) + d.x * p.mass;
      assert d.x * TotalMass(pts) == d.x * TotalMass(pts[..n]) + d.x * p.mass;
    }
  }

  lemma {:induction false} TranslatedMomentY(pts: seq<BeamPoint>, d: Vec)
    ensures Sum(Translated(pts, d), MomentY) == Sum(pts, MomentY) + d.y * TotalMass(pts)
    decreases |pts|
  {
    if |pts| > 0 {
      var n := |pts| - 1;
      var p := pts[n];
      assert Translated(pts, d)[..n] == Translated(pts[..n], d);
      TranslatedMomentY(pts[..n], d);
      assert MomentY(Translated(pts, d)[n]) == MomentY(p) + d.y * p.mass;
      assert d.y * TotalMass(pts) == d.y * TotalMass(pts[..n]) + d.y * p.mass;
    }
  }

  /** Translating every point keeps the total mass and moves the mass moment by the total mass
      times the translation. */
  lemma TranslatedSums(pts: seq<BeamPoint>, d: Vec)
    ensures TotalMass(Translated(pts, d)) == TotalMass(pts)
    ensures MassMoment(Translated(pts, d)) == MassMoment(pts).Add(d.Scale(TotalMass(pts)))
  {
    TranslatedMass(pts, d);
    TranslatedMomentX(pts, d);
    TranslatedMomentY(pts, d);
  }

  lemma ShiftQuotient(a: real, t: real, d: real)
    requires t != 0.0
    ensures (a + d * t) / t == a / t + d
  {
    assert (a / t + d) * t == a + d * t;
  }

  /** The mass-weighted centre moves by exactly the translation. */
  lemma TranslatedCenter(pts: seq<BeamPoint>, d: Vec)
    requires TotalMass(pts) != 0.0
    ensures TotalMass(Translated(pts, d)) != 0.0
    ensures CenterOf(Translated(pts, d)) == CenterOf(pts).Add(d)
  {
    TranslatedSums(pts, d);
    var t := TotalMass(pts);
    ShiftQuotient(MassMoment(pts).x, t, d.x);
    ShiftQuotient(MassMoment(pts).y, t, d.y);
  }

  // ---------------------------------------------------------------------------------------
  // The body

  class BeamBody {
    const points: array<BeamPoint>
    const constraints: seq<Constraint>

    ghost predicate Valid() {
      ConstraintsFit(constraints, points.Length)
    }

    constructor (points: array<BeamPoint>, constraints: seq<Constraint>)
      requires ConstraintsFit(constraints, points.Length)
      ensures this.points == points && this.constraints == constraints
      ensures Valid()
    {
      this.points := points;
      this.constraints := constraints;
    }

    /** `new BeamBody(points, pairs)`: keeps the given array and records each pair's current
        distance as its rest length, or fails on the first pair index without a point. */
    static method Build(m: MathLib, points: array<BeamPoint>, pairs: seq<IndexPair>)
      returns (r: Result<BeamBody, ConstructionError>)
      ensures r.Success? <==> AllPairsFit(pairs, points.Length)
      ensures r.Success? ==>
        && fresh(r.value) && r.value.points == points && r.value.Valid()
        && r.value.constraints == RestLengths(m, Positions(points[..]), pairs)
      ensures r.Failure? ==>
        exists k :: 0 <= k < |pairs| && !PairFits(pairs[k], points.Length)
          && (forall q :: 0 <= q < k ==> PairFits(pairs[q], points.Length))
          && r.error == MissingPoint(MissingIndex(pairs[k], points.Length), points.Length)
    {
      var cs := ComputeConstraintLengths(m, Positions(points[..]), pairs);
      match cs
      case Failure(e) =>
        r := Failure(e);
      case Success(list) =>
        var body := new BeamBody(points, list);
        r := Success(body);
    }

    /** One tick: the constraint loop, in list order, then `updatePositions`. */
    method Update(m: MathLib)
      requires Valid()
      requires TickReady(m, points[..], constraints)
      modifies points
      ensures points[..] == Tick(m, old(points[..]), constraints)
    {
      ghost var start := points[..];
      var k := 0;
      while k < |constraints|
        invariant 0 <= k <= |constraints|
        invariant TickReady(m, start, constraints[..k])
        invariant points[..] == Relax(m, start, constraints[..k])
      {
        var c := constraints[k];
        assert constraints[..k + 1][..k] == constraints[..k];
        ApplicableOnSameFrame(m, start, points[..], c);
        ApplyAt(m, c);
        k := k + 1;
      }
      assert constraints[..k] == constraints;
      UpdatePositions();
    }

    /** One pass of the constraint loop body, for constraint `c`. */
    method ApplyAt(m: MathLib, c: Constraint)
      requires Applicable(m, points[..], c)
      modifies points
      ensures points[..] == ApplyConstraint(m, old(points[..]), c)
    {
      var a := points[c.i];
      var b := points[c.j];
      var dx := b.position.x - a.position.x;
      var dy := b.position.y - a.position.y;
      var dist := Dist(m, a.position, b.position);
      var diff := (c.restLength - dist) / dist;
      var s1 := Share(a.mass, b.mass);
      var s2 := 1.0 - s1;
      var v := Vec(dx * diff * D, dy * diff * D);
      assert v == Correction(m, a, b, c.restLength);
      points[c.i] := PushA(a, v, s1);
      var b' := points[c.j];
      points[c.j] := PushB(b', v, s2);
    }

    /** `updatePositions`: position += velocity, for every point. */
    method UpdatePositions()
      modifies points
      ensures points[..] == Integrated(old(points[..]))
    {
      var k := 0;
      while k < points.Length
        invariant 0 <= k <= points.Length
        invariant forall q :: 0 <= q < k ==>
          points[q] == old(points[q]).(position := old(points[q]).position.Add(old(points[q]).velocity))
        invariant forall q :: k <= q < points.Length ==> points[q] == old(points[q])
      {
        var p := points[k];
        points[k] := p.(position := Vec(p.position.x + p.velocity.x, p.position.y + p.velocity.y));
        k := k + 1;
      }
    }

    /** `centerOfMass`: the mass-weighted mean position. */
    method CenterOfMass() returns (r: Vec)
      requires TotalMass(points[..]) != 0.0
      ensures r == CenterOf(points[..])
    {
      var xSum, ySum, massSum := 0.0, 0.0, 0.0;
      var k := 0;
      while k < points.Length
        invariant 0 <= k <= points.Length
        invariant Vec(xSum, ySum) == MassMoment(points[..k])
        invariant massSum == TotalMass(points[..k])
      {
        assert points[..k + 1][..k] == points[..k];
        var p := points[k];
        xSum := xSum + p.position.x * p.mass;
        ySum := ySum + p.position.y * p.mass;
        massSum := massSum + p.mass;
        k := k + 1;
      }
      assert points[..k] == points[..];
      r := Vec(xSum / massSum, ySum / massSum);
    }

    /** `translate(x, y)`: every position moves by `(x, y)`. */
    method Translate(x: real, y: real)
      modifies points
      ensures points[..] == Translated(old(points[..]), Vec(x, y))
    {
      var k := 0;
      while k < points.Length
        invariant 0 <= k <= points.Length
        invariant forall q :: 0 <= q < k ==>
          points[q] == old(points[q]).(position := old(points[q]).position.Add(Vec(x, y)))
        invariant forall q :: k <= q < points.Length ==> points[q] == old(points[q])
      {
        var p := points[k];
        points[k] := p.(position := Vec(p.position.x + x, p.position.y + y));
        k := k + 1;
      }
    }
  }
}
