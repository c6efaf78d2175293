/** Finite sums `f(s[0]) + ... + f(s[|s|-1])`, used for momentum, total mass, mass moment,
    accumulated corrections and the position and velocity sums of a body. */
module Sums {

  function Sum<T>(s: seq<T>, f: T -> real): real
    decreases |s|
  {
    if |s| == 0 then 0.0 else Sum(s[..|s| - 1], f) + f(s[|s| - 1])
  }

  lemma {:induction false} SumReplace<T>(s: seq<T>, k: nat, v: T, f: T -> real)
    requires k < |s|
    ensures Sum(s[k := v], f) == Sum(s, f) - f(s[k]) + f(v)
    decreases |s|
  {
    var n := |s| - 1;
    if k < n {
      assert s[k := v][..n] == s[..n][k := v];
      SumReplace(s[..n], k, v, f);
    } else {
      assert s[k := v][..n] == s[..n];
    }
  }

  /** Replacing two distinct terms changes the sum by the two differences. */
  lemma SumTwoReplace<T>(s: seq<T>, i: nat, j: nat, u: T, w: T, f: T -> real)
    requires i < |s| && j < |s| && i != j
    ensures Sum(s[i := u][j := w], f) == Sum(s, f) + (f(u) - f(s[i])) + (f(w) - f(s[j]))
  {
    SumReplace(s, i, u, f);
    SumReplace(s[i := u], j, w, f);
  }

  /** Moving an amount `d` from one term to another leaves the sum unchanged. */
  lemma SumTransfer<T>(s: seq<T>, i: nat, j: nat, u: T, w: T, f: T -> real, d: real)
    requires i < |s| && j < |s| && i != j
    requires f(u) == f(s[i]) - d && f(w) == f(s[j]) + d
    ensures Sum(s[i := u][j := w], f) == Sum(s, f)
  {
    SumTwoReplace(s, i, j, u, w, f);
  }

  lemma {:induction false} SumConcat<T>(a: seq<T>, b: seq<T>, f: T -> real)
    ensures Sum(a + b, f) == Sum(a, f) + Sum(b, f)
    decreases |b|
  {
    if |b| == 0 {
      assert a + b == a;
    } else {
      var n := |b| - 1;
      assert (a + b)[..|a + b| - 1] == a + b[..n];
      SumConcat(a, b[..n], f);
    }
  }

  /** A sum depends only on the multiset of its terms, not on their order. */
  lemma {:induction false} SumPermutation<T>(a: seq<T>, b: seq<T>, f: T -> real)
    requires multiset(a) == multiset(b)
    ensures Sum(a, f) == Sum(b, f)
    decreases |a|
  {
    if |a| == 0 {
      assert |multiset(b)| == 0;
    } else {
      var n := |a| - 1;
      var c := a[n];
      assert c in multiset(b);
      var j :| 0 <= j < |b| && b[j] == c;
      var rest := b[..j] + b[j + 1..];
      assert b == b[..j] + [c] + b[j + 1..];
      assert a == a[..n] + [c];
      assert multiset(rest) == multiset(b) - multiset{c};
      assert multiset(a[..n]) == multiset(a) - multiset{c};
      SumPermutation(a[..n], rest, f);
      SumConcat(b[..j], b[j + 1..], f);
      SumConcat(b[..j], [c], f);
      SumConcat(b[..j] + [c], b[j + 1..], f);
      assert [c][..0] == [];
    }
  }

  /** Sums of two sequences agree when their terms agree position by position. */
  lemma {:induction false} SumPointwise<T, U>(a: seq<T>, b: seq<U>, f: T -> real, g: U -> real)
    requires |a| == |b|
    requires forall k :: 0 <= k < |a| ==> f(a[k]) == g(b[k])
    ensures Sum(a, f) == Sum(b, g)
    decreases |a|
  {
    if |a| > 0 {
      SumPointwise(a[..|a| - 1], b[..|b| - 1], f, g);
    }
  }

  function One<T>(x: T): real { 1.0 }

  lemma {:induction false} SumOne<T>(s: seq<T>)
    ensures Sum(s, One) == |s| as real
    decreases |s|
  {
    if |s| > 0 {
      SumOne(s[..|s| - 1]);
    }
  }
}
