/** The numerically stabilised softmax of the learner (`softmax`,
    MultinomialLogisticRegression.java lines 112-131): subtract the maximum
    score, exponentiate, divide by the sum of the exponentials. */
module Distribution {
  import opened Vectors
  import opened Exponential

  /** The largest score, found by a left-to-right scan that replaces the
      running maximum only on a strictly larger entry. */
  function Max(s: seq<real>): (m: real)
    requires |s| > 0
    ensures forall i :: 0 <= i < |s| ==> s[i] <= m
    ensures exists i :: 0 <= i < |s| && s[i] == m
  {
    if |s| == 1 then s[0]
    else
      var n := |s| - 1;
      var t := Max(s[..n]);
      assert forall i :: 0 <= i < n ==> s[..n][i] == s[i];
      if s[n] > t then s[n] else t
  }

  /** Shifting every score shifts the maximum by the same amount. */
  lemma {:induction false} MaxShift(s: seq<real>, k: real)
    requires |s| > 0
    ensures Max(Shift(s, k)) == Max(s) + k
  {
    var m := Max(s);
    var i :| 0 <= i < |s| && s[i] == m;
    assert Shift(s, k)[i] == m + k;
    var j :| 0 <= j < |s| && Shift(s, k)[j] == Max(Shift(s, k));
    assert Shift(s, k)[j] == s[j] + k;
  }

  /** `exp(s[i] - max)` for every score: the values the second loop stores. */
  function ShiftedExps(exp: real -> real, s: seq<real>): (e: seq<real>)
    requires IsExp(exp)
    requires |s| > 0
    ensures |e| == |s|
    ensures forall i :: 0 <= i < |s| ==> e[i] == exp(s[i] - Max(s))
    ensures forall i :: 0 <= i < |s| ==> e[i] > 0.0
  {
    var m := Max(s);
    ExpBasics(exp);
    var e := seq(|s|, i requires 0 <= i < |s| => exp(s[i] - m));
    assert forall i :: 0 <= i < |s| ==> e[i] == exp(s[i] - m);
    assert forall x :: exp(x) > 0.0;
    assert forall i :: 0 <= i < |s| ==> exp(s[i] - m) > 0.0;
    e
  }

  /** The normaliser, the sum of the shifted exponentials, is at least 1: the
      entry holding the maximum contributes `exp(0) == 1` and the others are positive. */
  lemma {:induction false} NormaliserAtLeastOne(exp: real -> real, s: seq<real>)
    requires IsExp(exp)
    requires |s| > 0
    ensures Sum(ShiftedExps(exp, s)) >= 1.0
  {
    var e := ShiftedExps(exp, s);
    var k :| 0 <= k < |s| && s[k] == Max(s);
    ExpBasics(exp);
    assert e[k] == 1.0;
    SumDominatesEntries(e);
  }

  /** A positive part of a whole is a fraction in (0, 1]. */
  lemma {:induction false} PartOfWhole(a: real, z: real)
    requires 0.0 < a <= z
    ensures 0.0 < a / z <= 1.0
  {
    assert a / z <= z / z;
  }

  /** Dividing positive entries by their sum gives entries in (0, 1]. */
  lemma {:induction false} ScaleByOwnSum(e: seq<real>)
    requires forall i :: 0 <= i < |e| ==> e[i] > 0.0
    requires |e| > 0
    ensures Sum(e) > 0.0
    ensures forall i :: 0 <= i < |e| ==> 0.0 < Scale(e, Sum(e))[i] <= 1.0
  {
    SumDominatesEntries(e);
    var z := Sum(e);
    forall i | 0 <= i < |e|
      ensures 0.0 < Scale(e, z)[i] <= 1.0
    {
      assert Scale(e, z)[i] == e[i] / z;
      PartOfWhole(e[i], z);
    }
  }

  /** The softmax of `s`: a vector of the same length whose entries are
      strictly positive, at most 1, and (for non-empty input) sum to 1.
      On an empty vector all three loops of the Java method do nothing. */
  function Softmax(exp: real -> real, s: seq<real>): (p: seq<real>)
    requires IsExp(exp)
    ensures |p| == |s|
    ensures forall i :: 0 <= i < |p| ==> 0.0 < p[i] <= 1.0
    ensures |s| > 0 ==> Sum(p) == 1.0
  {
    if |s| == 0 then []
    else
      var e := ShiftedExps(exp, s);
      NormaliserAtLeastOne(exp, s);
      var z := Sum(e);
      SumScale(e, z);
      ScaleByOwnSum(e);
      Scale(e, z)
  }

  /** The textbook softmax `exp(s[i]) / sum_j exp(s[j])`, without the
      subtraction of the maximum; the reference definition for `Softmax`. */
  function TextbookSoftmax(exp: real -> real, s: seq<real>): (p: seq<real>)
    requires IsExp(exp)
    ensures |p| == |s|
  {
    var ex := Exps(exp, s);
    SumDominatesEntries(ex);
    if |s| == 0 then [] else Scale(ex, Sum(ex))
  }

  /** `exp(s[i])` for every score. */
  function Exps(exp: real -> real, s: seq<real>): (ex: seq<real>)
    requires IsExp(exp)
    ensures |ex| == |s|
    ensures forall i :: 0 <= i < |s| ==> ex[i] == exp(s[i])
    ensures forall i :: 0 <= i < |s| ==> ex[i] > 0.0
  {
    ExpBasics(exp);
    var ex := seq(|s|, i requires 0 <= i < |s| => exp(s[i]));
    assert forall i :: 0 <= i < |s| ==> ex[i] == exp(s[i]);
    assert forall x :: exp(x) > 0.0;
    assert forall i :: 0 <= i < |s| ==> exp(s[i]) > 0.0;
    assert forall i :: 0 <= i < |s| ==> ex[i] > 0.0;
    ex
  }

  /** Each plain exponential is the shifted one times `exp(max)`. */
  lemma {:induction false} ExpsFactor(exp: real -> real, s: seq<real>)
    requires IsExp(exp)
    requires |s| > 0
    ensures Exps(exp, s) == Times(ShiftedExps(exp, s), exp(Max(s)))
  {
    var m := Max(s);
    var e := ShiftedExps(exp, s);
    var ex := Exps(exp, s);
    var c := exp(m);
    forall i | 0 <= i < |s|
      ensures ex[i] == Times(e, c)[i]
    {
      assert ex[i] == exp(s[i]);
      assert e[i] == exp(s[i] - m);
      ExpOfDifference(exp, s[i], m);
    }
    assert ex == Times(e, c);
  }

  /** Scaling a vector and its normaliser by the same positive factor cancels. */
  lemma {:induction false} ScaleCancels(e: seq<real>, c: real, z: real)
    requires c > 0.0 && z != 0.0
    ensures Scale(Times(e, c), z * c) == Scale(e, z)
  {
    var t := Times(e, c);
    forall i | 0 <= i < |e|
      ensures Scale(t, z * c)[i] == Scale(e, z)[i]
    {
      assert Scale(t, z * c)[i] == (e[i] * c) / (z * c);
      CancelCommonFactor(e[i], c, z);
    }
  }

  /** The stabilised softmax divides the shifted exponentials by their sum. */
  lemma {:induction false} SoftmaxUnfold(exp: real -> real, s: seq<real>)
    requires IsExp(exp)
    requires |s| > 0
    ensures Sum(ShiftedExps(exp, s)) != 0.0
    ensures Softmax(exp, s) == Scale(ShiftedExps(exp, s), Sum(ShiftedExps(exp, s)))
  {
    NormaliserAtLeastOne(exp, s);
  }

  /** The textbook softmax, written with the shifted exponentials. */
  lemma {:induction false} TextbookUnfold(exp: real -> real, s: seq<real>)
    requires IsExp(exp)
    requires |s| > 0
    ensures Sum(ShiftedExps(exp, s)) != 0.0
    ensures TextbookSoftmax(exp, s) == Scale(ShiftedExps(exp, s), Sum(ShiftedExps(exp, s)))
  {
    var e := ShiftedExps(exp, s);
    var ex := Exps(exp, s);
    var c := exp(Max(s));
    var z := Sum(e);
    assert c > 0.0 by { ExpBasics(exp); }
    assert z >= 1.0 by { NormaliserAtLeastOne(exp, s); }
    assert ex == Times(e, c) by { ExpsFactor(exp, s); }
    assert Sum(ex) == z * c by { SumTimes(e, c); }
    assert TextbookSoftmax(exp, s) == Scale(ex, z * c);
    ScaleCancels(e, c, z);
  }

  /** Subtracting the maximum does not change the result: the stabilised
      softmax equals the textbook one. */
  lemma {:induction false} SoftmaxMatchesTextbook(exp: real -> real, s: seq<real>)
    requires IsExp(exp)
    ensures Softmax(exp, s) == TextbookSoftmax(exp, s)
  {
    if |s| > 0 {
      SoftmaxUnfold(exp, s);
      TextbookUnfold(exp, s);
    }
  }

  /** Adding the same constant to every score leaves the softmax unchanged. */
  lemma {:induction false} SoftmaxShiftInvariant(exp: real -> real, s: seq<real>, k: real)
    requires IsExp(exp)
    ensures Softmax(exp, Shift(s, k)) == Softmax(exp, s)
  {
    if |s| > 0 {
      MaxShift(s, k);
      var m := Max(s);
      forall i | 0 <= i < |s|
        ensures ShiftedExps(exp, Shift(s, k))[i] == ShiftedExps(exp, s)[i]
      {
        assert Shift(s, k)[i] - (m + k) == s[i] - m;
      }
      assert ShiftedExps(exp, Shift(s, k)) == ShiftedExps(exp, s);
    }
  }

  /** The first loop: a running maximum that starts below every score (the
      Java method's negative infinity, here "no entry seen yet") and is replaced
      by each strictly larger entry. */
  method ScanMaximum(posteriori: seq<real>) returns (maximum: real)
    requires |posteriori| > 0
    ensures maximum == Max(posteriori)
  {
    maximum := 0.0;
    var i := 0;
    while i < |posteriori|
      invariant 0 <= i <= |posteriori|
      invariant i > 0 ==> maximum == Max(posteriori[..i])
    {
      assert posteriori[..i + 1][..i] == posteriori[..i];
      if i == 0 || posteriori[i] > maximum {
        maximum := posteriori[i];
      }
      i := i + 1;
    }
    assert posteriori[..|posteriori|] == posteriori;
  }

  /** The second loop: replace each score by `exp(score - maximum)` in place
      and accumulate the normaliser. */
  method ExponentiateInPlace(exp: real -> real, posteriori: seq<real>, maximum: real)
    returns (p: seq<real>, normalizer: real)
    requires IsExp(exp)
    requires |posteriori| > 0 && maximum == Max(posteriori)
    ensures p == ShiftedExps(exp, posteriori)
    ensures normalizer == Sum(p)
  {
    ghost var e := ShiftedExps(exp, posteriori);
    p := posteriori;
    normalizer := 0.0;
    var i := 0;
    while i < |p|
      invariant 0 <= i <= |p| == |posteriori|
      invariant p[..i] == e[..i]
      invariant p[i..] == posteriori[i..]
      invariant normalizer == Sum(e[..i])
    {
      assert p[i] == posteriori[i] by { assert p[i..][0] == posteriori[i..][0]; }
      var ex := exp(p[i] - maximum);
      p := p[i := ex];
      normalizer := normalizer + ex;
      assert e[..i + 1][..i] == e[..i];
      assert p[..i + 1] == e[..i + 1];
      assert p[i + 1..] == posteriori[i + 1..] by { assert p[i + 1..] == p[i..][1..]; }
      i := i + 1;
    }
    assert p == p[..|p|] && e == e[..|p|];
  }

  /** The third loop: divide every entry by the normaliser in place. */
  method DivideInPlace(e: seq<real>, normalizer: real) returns (p: seq<real>)
    requires normalizer != 0.0
    ensures p == Scale(e, normalizer)
  {
    p := e;
    var i := 0;
    while i < |p|
      invariant 0 <= i <= |p| == |e|
      invariant p[..i] == Scale(e, normalizer)[..i]
      invariant p[i..] == e[i..]
    {
      assert p[i] == e[i] by { assert p[i..][0] == e[i..][0]; }
      p := p[i := p[i] / normalizer];
      assert p[..i + 1] == Scale(e, normalizer)[..i + 1];
      assert p[i + 1..] == e[i + 1..] by { assert p[i + 1..] == p[i..][1..]; }
      i := i + 1;
    }
    assert p == p[..|p|];
  }

  /** The Java method's three in-place loops together compute `Softmax`. On an
      empty vector all three loops do nothing. */
  method SoftmaxInPlace(exp: real -> real, posteriori: seq<real>) returns (p: seq<real>)
    requires IsExp(exp)
    ensures p == Softmax(exp, posteriori)
  {
    if |posteriori| == 0 {
      return posteriori;
    }
    var maximum := ScanMaximum(posteriori);
    var normalizer;
    p, normalizer := ExponentiateInPlace(exp, posteriori, maximum);
    NormaliserAtLeastOne(exp, posteriori);
    p := DivideInPlace(p, normalizer);
    SoftmaxUnfold(exp, posteriori);
  }
}
