/** The learner as the object the host framework drives: the fields of
    MultinomialLogisticRegression.java and its three entry points, written
    with the Java class's loops and proved to compute the functions of `Learner`. */
module Classifier {
  import opened Vectors
  import opened Exponential
  import opened Distribution
  import opened Learner

  /** The in-place update of one weight row: the bias first, then the
      gradient loop over the features, then (when `reg > 0`) the shrink loop
      over the same features. */
  method UpdateRowInPlace(row: seq<real>, x: seq<real>, err: real, lr: real, reg: real)
    returns (r: seq<real>)
    requires |row| >= 1 && |row| - 1 <= |x|
    ensures r == UpdateRow(row, x, err, lr, reg)
  {
    var n := |row|;
    r := row[n - 1 := row[n - 1] + lr * err];
    var j := 0;
    while j < n - 1
      invariant 0 <= j <= n - 1
      invariant |r| == n && r[n - 1] == row[n - 1] + lr * err
      invariant forall k :: 0 <= k < j ==> r[k] == row[k] + lr * err * x[k]
      invariant forall k :: j <= k < n - 1 ==> r[k] == row[k]
    {
      r := r[j := r[j] + lr * err * x[j]];
      j := j + 1;
    }
    if reg > 0.0 {
      j := 0;
      while j < n - 1
        invariant 0 <= j <= n - 1
        invariant |r| == n && r[n - 1] == row[n - 1] + lr * err
        invariant forall k :: 0 <= k < j ==>
          r[k] == (row[k] + lr * err * x[k]) - lr * reg * (row[k] + lr * err * x[k])
        invariant forall k :: j <= k < n - 1 ==> r[k] == row[k] + lr * err * x[k]
      {
        r := r[j := r[j] - lr * reg * r[j]];
        j := j + 1;
      }
    }
    assert forall k :: 0 <= k < n ==> r[k] == UpdateRow(row, x, err, lr, reg)[k];
  }

  /** The scoring loop shared by training and classification: one dot
      product per non-reference class, the reference entry left at 0. */
  method ComputeScores(weights: seq<seq<real>>, numClasses: int, x: seq<real>) returns (s: seq<real>)
    requires 1 <= numClasses <= |weights|
    requires forall i :: 0 <= i < numClasses - 1 ==> |x| <= |weights[i]|
    ensures s == Scores(weights, numClasses, x)
  {
    s := seq(numClasses, _ => 0.0);
    var i := 0;
    while i < numClasses - 1
      invariant 0 <= i <= numClasses - 1
      invariant |s| == numClasses
      invariant forall k :: 0 <= k < i ==> s[k] == DotProduct(x, weights[k])
      invariant forall k :: i <= k < numClasses ==> s[k] == 0.0
    {
      var d := ComputeDotProduct(x, weights[i]);
      s := s[i := d];
      i := i + 1;
    }
    assert forall k :: 0 <= k < numClasses ==> s[k] == Scores(weights, numClasses, x)[k];
  }

  /** The training loop over the non-reference rows, each updated in place
      with its class's error. */
  method UpdateRowsInPlace(weights: seq<seq<real>>, numClasses: int, x: seq<real>, groundTruth: int,
                           probabilities: seq<real>, lr: real, reg: real)
    returns (w: seq<seq<real>>)
    requires numClasses <= |probabilities| && numClasses <= |weights|
    requires forall i :: 0 <= i < numClasses - 1 && i < |weights| ==>
      |weights[i]| >= 1 && |weights[i]| - 1 <= |x|
    ensures w == UpdateRows(weights, numClasses, x, groundTruth, probabilities, lr, reg)
  {
    w := weights;
    var i := 0;
    while i < numClasses - 1
      invariant 0 <= i <= if numClasses >= 1 then numClasses - 1 else 0
      invariant |w| == |weights|
      invariant forall k :: 0 <= k < i ==>
        w[k] == UpdateRow(weights[k], x, ClassError(k, groundTruth, probabilities), lr, reg)
      invariant forall k :: i <= k < |w| ==> w[k] == weights[k]
    {
      var isGroundTruthClass := i == groundTruth;
      var error := if isGroundTruthClass then 1.0 - probabilities[i] else -probabilities[i];
      var classWeights := UpdateRowInPlace(w[i], x, error, lr, reg);
      w := w[i := classWeights];
      i := i + 1;
    }
    assert forall k :: 0 <= k < |w| ==>
      w[k] == UpdateRows(weights, numClasses, x, groundTruth, probabilities, lr, reg)[k];
  }

  class MultinomialLogisticRegression {
    var nbInputs: int
    var nbClasses: int
    var regularizationFactor: real
    var learningRate: real
    var weights: seq<seq<real>>
    var shouldReset: bool

    /** The fields, as the value `Learner` reasons about. */
    function State(): Model
      reads this
    {
      Model(shouldReset, nbInputs, nbClasses, learningRate, regularizationFactor, weights)
    }

    constructor ()
      ensures State() == Init()
    {
      nbInputs := 0;
      nbClasses := 0;
      regularizationFactor := 0.0;
      learningRate := 0.0;
      weights := [];
      shouldReset := true;
    }

    method ResetLearningImpl()
      modifies this
      ensures State() == ResetLearning(old(State()))
    {
      shouldReset := true;
    }

    method TrainOnInstanceImpl(exp: real -> real, inst: Instance)
      requires IsExp(exp) && Valid(State()) && inst.Labeled()
      requires !shouldReset ==> Matches(State(), inst)
      modifies this
      ensures State() == Train(exp, old(State()), inst)
    {
      ghost var before := State();
      if shouldReset {
        shouldReset := false;
        nbInputs := inst.numAttributes;
        nbClasses := inst.numClasses;
        regularizationFactor := 0.5;
        learningRate := 0.005;
        var columns := nbInputs;
        weights := seq(inst.numClasses, _ => seq(columns, _ => 0.0));
      }
      assert State() == Initialize(before, inst);
      var inputValues := inst.inputValues;
      var groundTruth := inst.classValue;
      var probabilities := ComputeScores(weights, inst.numClasses, inputValues);
      probabilities := SoftmaxInPlace(exp, probabilities);
      assert probabilities == TrainingProbabilities(exp, before, inst);

      weights := UpdateRowsInPlace(weights, inst.numClasses, inputValues, groundTruth,
                                   probabilities, learningRate, regularizationFactor);
    }

    /** Prediction reads the fields and changes none of them. */
    method GetVotesForInstance(exp: real -> real, inst: Instance) returns (votes: seq<real>)
      requires IsExp(exp) && Valid(State()) && inst.Shaped()
      requires !shouldReset ==> Matches(State(), inst)
      ensures votes == Votes(exp, State(), inst)
    {
      if shouldReset {
        return seq(inst.numClasses, _ => 0.0);
      }
      votes := ClassifyImpl(exp, inst.inputValues);
      votes := Normalize(votes);
    }

    method ClassifyImpl(exp: real -> real, input: seq<real>) returns (posteriori: seq<real>)
      requires IsExp(exp) && Valid(State()) && !shouldReset
      requires |input| == nbInputs - 1
      ensures posteriori == Classify(exp, State(), input)
    {
      posteriori := ComputeScores(weights, nbClasses, input);
      posteriori := SoftmaxInPlace(exp, posteriori);
    }
  }
}
