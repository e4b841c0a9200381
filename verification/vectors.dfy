/** Vectors of reals as the optimisers use them: `np.sum`, the dot product of
    the expected returns with the weights, and division by a scalar. */
module Vectors {
  function Sum(s: seq<real>): real {
    if s == [] then 0.0 else s[0] + Sum(s[1..])
  }

  /** `np.sum(mu * w)`. */
  function Dot(a: seq<real>, b: seq<real>): real
    requires |a| == |b|
  {
    if a == [] then 0.0 else a[0] * b[0] + Dot(a[1..], b[1..])
  }

  /** `s / d`, element by element. */
  function Scale(s: seq<real>, d: real): (r: seq<real>)
    requires d != 0.0
    ensures |r| == |s| && forall i :: 0 <= i < |s| ==> r[i] == s[i] / d
  {
    seq(|s|, i requires 0 <= i < |s| => s[i] / d)
  }

  predicate NonNegative(s: seq<real>) {
    forall i :: 0 <= i < |s| ==> s[i] >= 0.0
  }

  lemma {:induction false} SumScale(s: seq<real>, d: real)
    requires d != 0.0
    ensures Sum(Scale(s, d)) == Sum(s) / d
  {
    if s != [] {
      SumScale(s[1..], d);
      assert Scale(s, d)[1..] == Scale(s[1..], d);
    }
  }

  lemma {:induction false} SumNonNegative(s: seq<real>)
    requires NonNegative(s)
    ensures Sum(s) >= 0.0
  {
    if s != [] {
      SumNonNegative(s[1..]);
    }
  }

  /** The vector with the same value c in n places. */
  function Constant(n: nat, c: real): (r: seq<real>)
    ensures |r| == n && forall i :: 0 <= i < n ==> r[i] == c
  {
    seq(n, _ => c)
  }

  lemma {:induction false} SumConstant(n: nat, c: real)
    ensures Sum(Constant(n, c)) == n as real * c
  {
    if n > 0 {
      SumConstant(n - 1, c);
      assert Constant(n, c)[1..] == Constant(n - 1, c);
    }
  }

  lemma {:induction false} DotConstant(a: seq<real>, c: real)
    ensures Dot(a, Constant(|a|, c)) == c * Sum(a)
  {
    if a != [] {
      DotConstant(a[1..], c);
      assert Constant(|a|, c)[1..] == Constant(|a| - 1, c);
    }
  }
}
