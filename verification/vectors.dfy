/** Vectors of reals: sums, scaling and the learner's dot product
    (`dotProduct`, MultinomialLogisticRegression.java lines 103-110). */
module Vectors {

  /** Sum of the entries, accumulated left to right as the learner's loops do. */
  function Sum(v: seq<real>): real
  {
    if |v| == 0 then 0.0 else Sum(v[..|v| - 1]) + v[|v| - 1]
  }

  /** Every entry divided by `z`. */
  function Scale(v: seq<real>, z: real): (r: seq<real>)
    requires z != 0.0
    ensures |r| == |v|
  {
    seq(|v|, i requires 0 <= i < |v| => v[i] / z)
  }

  /** After dividing by a common `z`, an entry whose original value is `a`
      is `a` times the entry whose original value was 1. */
  lemma {:induction false} ScaleOdds(p: seq<real>, v: seq<real>, z: real, i: int, c: int, a: real)
    requires z != 0.0 && p == Scale(v, z)
    requires 0 <= i < |v| && 0 <= c < |v| && v[c] == 1.0 && v[i] == a
    ensures p[i] == p[c] * a
  {
    assert p[i] == a / z;
    assert p[c] == 1.0 / z;
  }

  /** A common non-zero factor of numerator and denominator cancels. */
  lemma CancelCommonFactor(a: real, c: real, z: real)
    requires c != 0.0 && z != 0.0
    ensures (a * c) / (z * c) == a / z
  {
  }

  /** Every entry increased by `k`. */
  function Shift(v: seq<real>, k: real): (r: seq<real>)
    ensures |r| == |v|
  {
    seq(|v|, i requires 0 <= i < |v| => v[i] + k)
  }

  /** Every entry multiplied by `c`. */
  function Times(v: seq<real>, c: real): (r: seq<real>)
    ensures |r| == |v|
    ensures forall i :: 0 <= i < |v| ==> r[i] == v[i] * c
  {
    seq(|v|, i requires 0 <= i < |v| => v[i] * c)
  }

  /** Dividing every entry by `z` divides the sum by `z`. */
  lemma {:induction false} SumScale(v: seq<real>, z: real)
    requires z != 0.0
    ensures Sum(Scale(v, z)) == Sum(v) / z
  {
    if |v| > 0 {
      var n := |v| - 1;
      assert Scale(v, z)[..n] == Scale(v[..n], z);
      SumScale(v[..n], z);
    }
  }

  /** Multiplying every entry by `c` multiplies the sum by `c`. */
  lemma {:induction false} SumTimes(v: seq<real>, c: real)
    ensures Sum(Times(v, c)) == Sum(v) * c
  {
    if |v| > 0 {
      var n := |v| - 1;
      forall i | 0 <= i < n
        ensures Times(v, c)[..n][i] == Times(v[..n], c)[i]
      {
        assert v[..n][i] == v[i];
      }
      assert Times(v, c)[..n] == Times(v[..n], c);
      SumTimes(v[..n], c);
    }
  }

  /** A non-empty vector of positive entries has a sum at least each entry, and a positive sum. */
  lemma {:induction false} SumDominatesEntries(v: seq<real>)
    requires forall i :: 0 <= i < |v| ==> v[i] > 0.0
    ensures forall i :: 0 <= i < |v| ==> v[i] <= Sum(v)
    ensures |v| > 0 ==> Sum(v) > 0.0
  {
    if |v| > 0 {
      var n := |v| - 1;
      SumDominatesEntries(v[..n]);
      assert forall i :: 0 <= i < n ==> v[..n][i] == v[i];
    }
  }

  /** Inner product of `input` with the first `|input|` entries of `weights`;
      entries of `weights` at or beyond `|input|` are never read. */
  function DotProduct(input: seq<real>, weights: seq<real>): real
    requires |input| <= |weights|
  {
    if |input| == 0 then 0.0
    else DotProduct(input[..|input| - 1], weights) + input[|input| - 1] * weights[|input| - 1]
  }

  /** The dot product depends only on the prefix of `weights` as long as `input`. */
  lemma {:induction false} DotProductReadsPrefix(input: seq<real>, w1: seq<real>, w2: seq<real>)
    requires |input| <= |w1| && |input| <= |w2|
    requires forall j :: 0 <= j < |input| ==> w1[j] == w2[j]
    ensures DotProduct(input, w1) == DotProduct(input, w2)
  {
    if |input| > 0 {
      DotProductReadsPrefix(input[..|input| - 1], w1, w2);
    }
  }

  /** The Java method's accumulation loop computes `DotProduct`. */
  method ComputeDotProduct(input: seq<real>, weights: seq<real>) returns (product: real)
    requires |input| <= |weights|
    ensures product == DotProduct(input, weights)
  {
    product := 0.0;
    var i := 0;
    while i < |input|
      invariant 0 <= i <= |input|
      invariant product == DotProduct(input[..i], weights)
    {
      assert input[..i + 1][..i] == input[..i];
      product := product + input[i] * weights[i];
      i := i + 1;
    }
    assert input[..|input|] == input;
  }
}
