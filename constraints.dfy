/** Distance constraints between indexed points and their construction-time rest lengths
    (`computeConstraintLengths`, which src/lib/beam.ts and src/lib/kine.ts both carry, word for
    word over their own point types; both bodies call the one method below). */
module Constraints {
  import opened Types
  import opened Maths

  type IndexPair = (int, int)

  /** `[i, j, restLength]` */
  datatype Constraint = Constraint(i: int, j: int, restLength: real)

  /** The thrown `Making constraint for <index> in points length <pointCount>`. */
  datatype ConstructionError = MissingPoint(index: int, pointCount: nat)

  predicate Fits(k: int, n: nat) { 0 <= k < n }

  predicate PairFits(p: IndexPair, n: nat) { Fits(p.0, n) && Fits(p.1, n) }

  predicate AllPairsFit(pairs: seq<IndexPair>, n: nat) {
    forall k :: 0 <= k < |pairs| ==> PairFits(pairs[k], n)
  }

  predicate ConstraintsFit(cs: seq<Constraint>, n: nat) {
    forall c :: c in cs ==> Fits(c.i, n) && Fits(c.j, n)
  }

  /** The index reported for an ill-formed pair: the first one, when it has no point. */
  function MissingIndex(p: IndexPair, n: nat): int {
    if !Fits(p.0, n) then p.0 else p.1
  }

  /** One constraint per pair, in order, each with the distance of its points as rest length. */
  function RestLengths(m: MathLib, positions: seq<Vec>, pairs: seq<IndexPair>): seq<Constraint>
    requires AllPairsFit(pairs, |positions|)
  {
    seq(|pairs|, k requires 0 <= k < |pairs| =>
      Constraint(pairs[k].0, pairs[k].1, Dist(m, positions[pairs[k].0], positions[pairs[k].1])))
  }

  /** Walks the pairs in order and fails on the first index that has no point. */
  method ComputeConstraintLengths(m: MathLib, positions: seq<Vec>, pairs: seq<IndexPair>)
    returns (r: Result<seq<Constraint>, ConstructionError>)
    ensures r.Success? <==> AllPairsFit(pairs, |positions|)
    ensures r.Success? ==>
      && |r.value| == |pairs|
      && (forall k :: 0 <= k < |pairs| ==>
            && r.value[k].i == pairs[k].0
            && r.value[k].j == pairs[k].1
            && r.value[k].restLength == Dist(m, positions[pairs[k].0], positions[pairs[k].1]))
      && ConstraintsFit(r.value, |positions|)
      && r.value == RestLengths(m, positions, pairs)
    ensures r.Failure? ==>
      exists k :: 0 <= k < |pairs| && !PairFits(pairs[k], |positions|)
        && (forall q :: 0 <= q < k ==> PairFits(pairs[q], |positions|))
        && r.error == MissingPoint(MissingIndex(pairs[k], |positions|), |positions|)
  {
    var n := |positions|;
    var cs: seq<Constraint> := [];
    var k := 0;
    while k < |pairs|
      invariant 0 <= k <= |pairs|
      invariant forall q :: 0 <= q < k ==> PairFits(pairs[q], n)
      invariant |cs| == k
      invariant forall q :: 0 <= q < k ==>
        cs[q] == Constraint(pairs[q].0, pairs[q].1, Dist(m, positions[pairs[q].0], positions[pairs[q].1]))
    {
      var (i, j) := pairs[k];
      if !Fits(i, n) {
        return Failure(MissingPoint(i, n));
      }
      if !Fits(j, n) {
        return Failure(MissingPoint(j, n));
      }
      cs := cs + [Constraint(i, j, Dist(m, positions[i], positions[j]))];
      k := k + 1;
    }
    assert forall c :: c in cs ==> exists q :: 0 <= q < |cs| && cs[q] == c;
    return Success(cs);
  }
}
