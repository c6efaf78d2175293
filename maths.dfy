/** The host's floating-point `Math` library, as seen by the model. Square root, cosine, sine,
    two-argument arctangent and pi cannot be computed exactly over the reals, so they are a
    parameter of every operation that uses them; the few facts a proof needs are stated as
    predicates and required only where they are used. */
module Maths {
  import opened Types

  datatype MathLib = MathLib(
    sqrt: real -> real,
    cos: real -> real,
    sin: real -> real,
    atan2: (real, real) -> real,
    pi: real)

  /** `sqrt` returns the non-negative square root of every non-negative argument. */
  ghost predicate SqrtLaw(m: MathLib) {
    forall x :: 0.0 <= x ==> 0.0 <= m.sqrt(x) && m.sqrt(x) * m.sqrt(x) == x
  }

  /** The heading identities the tire model relies on at one angle `t`: the side direction
      `t + pi/2` has unit vector `(-sin t, cos t)`, and `(cos t, sin t)` is a unit vector. */
  predicate HeadingLaw(m: MathLib, t: real) {
    && m.cos(t + m.pi / 2.0) == -m.sin(t)
    && m.sin(t + m.pi / 2.0) == m.cos(t)
    && m.cos(t) * m.cos(t) + m.sin(t) * m.sin(t) == 1.0
  }

  /** Euclidean distance between two positions (`BeamPoint.dist`, `PhyPoint.dist`). */
  function Dist(m: MathLib, a: Vec, b: Vec): real {
    Hypot(m, a.x - b.x, a.y - b.y)
  }

  /** Length of the separation `(dx, dy)`. */
  function Hypot(m: MathLib, dx: real, dy: real): real {
    m.sqrt(dx * dx + dy * dy)
  }

  lemma SqrtOfSquare(m: MathLib, x: real)
    requires SqrtLaw(m)
    ensures m.sqrt(x * x) == Abs(x)
  {
    var r := m.sqrt(x * x);
    assert 0.0 <= x * x;
    assert 0.0 <= r && r * r == x * x;
    var a := Abs(x);
    assert a * a == x * x;
    assert (r - a) * (r + a) == r * r - a * a;
    ProductZero(r - a, r + a);
  }

  /** A product of reals is zero only if a factor is. */
  lemma ProductZero(a: real, b: real)
    requires a * b == 0.0
    ensures a == 0.0 || b == 0.0
  {
    if a != 0.0 {
      assert b == (a * b) / a;
    }
  }

  lemma DistSymmetric(m: MathLib, a: Vec, b: Vec)
    ensures Dist(m, a, b) == Dist(m, b, a)
  {
    assert (a.x - b.x) * (a.x - b.x) == (b.x - a.x) * (b.x - a.x);
    assert (a.y - b.y) * (a.y - b.y) == (b.y - a.y) * (b.y - a.y);
  }

  /** Moving both positions by the same offset leaves their distance unchanged. */
  lemma DistTranslationInvariant(m: MathLib, a: Vec, b: Vec, d: Vec)
    ensures Dist(m, a.Add(d), b.Add(d)) == Dist(m, a, b)
  {
  }

  /** With a lawful square root, distance is non-negative and zero exactly for equal positions. */
  lemma DistZeroIffSame(m: MathLib, a: Vec, b: Vec)
    requires SqrtLaw(m)
    ensures 0.0 <= Dist(m, a, b)
    ensures Dist(m, a, b) == 0.0 <==> a == b
  {
    var dx, dy := a.x - b.x, a.y - b.y;
    var s := dx * dx + dy * dy;
    assert 0.0 <= dx * dx && 0.0 <= dy * dy;
    var r := m.sqrt(s);
    assert 0.0 <= r && r * r == s;
    if r == 0.0 {
      assert s == 0.0;
      assert dx * dx == 0.0 && dy * dy == 0.0;
      ProductZero(dx, dx);
      ProductZero(dy, dy);
    }
    if a == b {
      assert dx == 0.0 && dy == 0.0;
      assert s == 0.0;
      assert r * r == 0.0;
      ProductZero(r, r);
    }
  }
}
