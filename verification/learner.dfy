/** The online multinomial logistic-regression learner of
    MultinomialLogisticRegression.java, as pure functions over its state:
    lazy initialisation, the training step (softmax of linear scores, then a
    gradient step and a multiplicative shrink per non-reference class), and
    the votes for an instance. Class `nbClasses - 1` is the reference class,
    whose score is pinned at 0 and whose weight row is never written. */
module Learner {
  import opened Vectors
  import opened Exponential
  import opened Distribution

  /** The hyperparameters fixed at every initialisation. */
  const InitialLearningRate: real := 0.005
  const InitialRegularizationFactor: real := 0.5

  /** An instance as the learner sees it: `numAttributes` counts the class
      attribute too, so there are `numAttributes - 1` input values; the class
      label is only read by training, which accepts any integer. */
  datatype Instance = Instance(numAttributes: nat, numClasses: nat, inputValues: seq<real>, classValue: int)
  {
    /** The input values are the attributes other than the class. */
    predicate Shaped() {
      numAttributes >= 1 && |inputValues| == numAttributes - 1
    }

    /** A training instance additionally has at least one class. Its label
        may be any integer: one outside `[0, numClasses)` matches no row. */
    predicate Labeled() {
      Shaped() && numClasses >= 1
    }
  }

  /** The learner's fields. Before the first initialisation `weights` is
      empty, standing for the Java class's null array. */
  datatype Model = Model(
    shouldReset: bool,
    nbInputs: int,
    nbClasses: int,
    learningRate: real,
    regularizationFactor: real,
    weights: seq<seq<real>>)

  /** The shape every initialised model keeps: one row of `nbInputs` weights
      per class (the last entry of a row is the bias), the fixed
      hyperparameters, and an all-zero reference row. */
  ghost predicate Valid(m: Model) {
    !m.shouldReset ==>
      && m.nbInputs >= 1
      && m.nbClasses >= 1
      && m.learningRate == InitialLearningRate
      && m.regularizationFactor == InitialRegularizationFactor
      && |m.weights| == m.nbClasses
      && (forall i :: 0 <= i < |m.weights| ==> |m.weights[i]| == m.nbInputs)
      && IsZero(m.weights[m.nbClasses - 1])
  }

  /** Every entry is 0. */
  predicate IsZero(v: seq<real>) {
    forall j :: 0 <= j < |v| ==> v[j] == 0.0
  }

  /** The instance has the dimensions captured at initialisation. */
  predicate Matches(m: Model, inst: Instance) {
    inst.numAttributes == m.nbInputs && inst.numClasses == m.nbClasses
  }

  /** The state a freshly constructed learner is in. */
  function Init(): (m: Model)
    ensures Valid(m) && m.shouldReset
  {
    Model(true, 0, 0, 0.0, 0.0, [])
  }

  /** Reset raises the flag and nothing else: dimensions, hyperparameters and
      weights stay until the next training call replaces them. */
  function ResetLearning(m: Model): (r: Model)
    ensures Valid(r) && r.shouldReset
    ensures r.nbInputs == m.nbInputs && r.nbClasses == m.nbClasses && r.weights == m.weights
    ensures r.learningRate == m.learningRate && r.regularizationFactor == m.regularizationFactor
  {
    m.(shouldReset := true)
  }

  /** The lazy initialisation at the head of a training call: on a raised
      flag, capture the instance's dimensions, fix the hyperparameters,
      allocate an all-zero `numClasses x numAttributes` matrix and clear the
      flag; otherwise leave the model alone. */
  function Initialize(m: Model, inst: Instance): (r: Model)
    requires Valid(m) && inst.Labeled()
    requires !m.shouldReset ==> Matches(m, inst)
    ensures Valid(r) && !r.shouldReset && Matches(r, inst)
    ensures m.shouldReset ==>
      forall i, j :: 0 <= i < |r.weights| && 0 <= j < |r.weights[i]| ==> r.weights[i][j] == 0.0
    ensures !m.shouldReset ==> r == m
  {
    if m.shouldReset then
      Model(false, inst.numAttributes, inst.numClasses,
            InitialLearningRate, InitialRegularizationFactor,
            seq(inst.numClasses, _ => seq(inst.numAttributes, _ => 0.0)))
    else m
  }

  /** A weight row without its last entry, the bias: the feature weights. */
  function Features(row: seq<real>): seq<real>
  {
    if |row| == 0 then row else row[..|row| - 1]
  }

  /** The raw scores: `DotProduct(x, weights[i])` for each non-reference
      class, 0 for the reference class `numClasses - 1`. */
  function Scores(weights: seq<seq<real>>, numClasses: int, x: seq<real>): (s: seq<real>)
    requires 1 <= numClasses <= |weights|
    requires forall i :: 0 <= i < numClasses - 1 ==> |x| <= |weights[i]|
    ensures |s| == numClasses
    ensures s[numClasses - 1] == 0.0
  {
    seq(numClasses, i requires 0 <= i < numClasses =>
      if i < numClasses - 1 then DotProduct(x, weights[i]) else 0.0)
  }

  /** A score reads only the feature weights of its row: with an input one
      shorter than the row, the bias slot does not enter the score. */
  lemma {:induction false} ScoreIgnoresBias(weights: seq<seq<real>>, numClasses: int, x: seq<real>, i: int)
    requires 1 <= numClasses <= |weights|
    requires forall k :: 0 <= k < numClasses - 1 ==> |x| <= |weights[k]|
    requires 0 <= i < numClasses - 1 && |weights[i]| == |x| + 1
    ensures Scores(weights, numClasses, x)[i] == DotProduct(x, Features(weights[i]))
  {
    DotProductReadsPrefix(x, weights[i], Features(weights[i]));
  }

  /** The class probabilities for input `x` under an initialised model. */
  function Classify(exp: real -> real, m: Model, x: seq<real>): (p: seq<real>)
    requires IsExp(exp) && Valid(m) && !m.shouldReset
    requires |x| == m.nbInputs - 1
    ensures |p| == m.nbClasses
    ensures forall i :: 0 <= i < |p| ==> 0.0 < p[i] <= 1.0
    ensures Sum(p) == 1.0
  {
    Softmax(exp, Scores(m.weights, m.nbClasses, x))
  }

  /** Odds against the reference class: the probability of a non-reference
      class is that of the reference class times `exp` of the class's
      feature-weight score, so the bias of the row never matters. */
  lemma {:induction false} ClassifyOddsAgainstReference(exp: real -> real, m: Model, x: seq<real>, i: int)
    requires IsExp(exp) && Valid(m) && !m.shouldReset
    requires |x| == m.nbInputs - 1
    requires 0 <= i < m.nbClasses - 1
    ensures Classify(exp, m, x)[i]
         == Classify(exp, m, x)[m.nbClasses - 1] * exp(DotProduct(x, Features(m.weights[i])))
  {
    var s := Scores(m.weights, m.nbClasses, x);
    var c := m.nbClasses - 1;
    var ex := Exps(exp, s);
    var z := Sum(ex);
    var p := Classify(exp, m, x);
    assert z > 0.0 by { SumDominatesEntries(ex); }
    assert p == Scale(ex, z) by { SoftmaxMatchesTextbook(exp, s); }
    assert ex[c] == 1.0 by { ExpBasics(exp); }
    assert ex[i] == exp(DotProduct(x, Features(m.weights[i]))) by {
      ScoreIgnoresBias(m.weights, m.nbClasses, x, i);
    }
    ScaleOdds(p, ex, z, i, c, exp(DotProduct(x, Features(m.weights[i]))));
  }

  /** Weka's `Utils.normalize` as the votes see it: divide by the sum; a zero
      sum makes it throw, the exception is swallowed and the vector is
      returned as it was. */
  function Normalize(v: seq<real>): (r: seq<real>)
    ensures |r| == |v|
    ensures Sum(v) == 1.0 ==> r == v
  {
    var z := Sum(v);
    if z == 0.0 then v else Scale(v, z)
  }

  /** The votes for an instance: all zeros of the instance's class count
      while the flag is raised, otherwise the normalised class probabilities,
      a distribution over the captured classes. */
  function Votes(exp: real -> real, m: Model, inst: Instance): (r: seq<real>)
    requires IsExp(exp) && Valid(m) && inst.Shaped()
    requires !m.shouldReset ==> Matches(m, inst)
    ensures |r| == inst.numClasses
    ensures m.shouldReset ==> forall i :: 0 <= i < |r| ==> r[i] == 0.0
    ensures !m.shouldReset ==> Sum(r) == 1.0 && forall i :: 0 <= i < |r| ==> 0.0 < r[i] <= 1.0
    ensures !m.shouldReset ==> r == Classify(exp, m, inst.inputValues)
  {
    if m.shouldReset then seq(inst.numClasses, _ => 0.0)
    else Normalize(Classify(exp, m, inst.inputValues))
  }

  /** The gradient of the log-likelihood with respect to a class score:
      the indicator of the ground-truth class minus the class probability. */
  function ClassError(i: int, groundTruth: int, p: seq<real>): real
    requires 0 <= i < |p|
  {
    if i == groundTruth then 1.0 - p[i] else -p[i]
  }

  /** One row's update: the bias (last slot) moves by `lr * err`; each
      feature weight first takes the gradient step `lr * err * x[j]` and is
      then, when `reg > 0`, shrunk by `lr * reg` times its updated value. */
  function UpdateRow(row: seq<real>, x: seq<real>, err: real, lr: real, reg: real): (r: seq<real>)
    requires |row| >= 1 && |row| - 1 <= |x|
    ensures |r| == |row|
  {
    var n := |row| - 1;
    seq(|row|, j requires 0 <= j < |row| =>
      if j == n then row[n] + lr * err
      else
        var g := row[j] + lr * err * x[j];
        if reg > 0.0 then g - lr * reg * g else g)
  }

  /** The class probabilities a training call computes (after initialisation):
      exactly the prediction of the initialised model, so training and
      prediction score an instance alike. */
  function TrainingProbabilities(exp: real -> real, m: Model, inst: Instance): (p: seq<real>)
    requires IsExp(exp) && Valid(m) && inst.Labeled()
    requires !m.shouldReset ==> Matches(m, inst)
    ensures |p| == inst.numClasses
    ensures p == Classify(exp, Initialize(m, inst), inst.inputValues)
  {
    var w := Initialize(m, inst);
    Softmax(exp, Scores(w.weights, inst.numClasses, inst.inputValues))
  }

  /** One training call: initialise if the flag is raised, compute the class
      probabilities, then update every non-reference row. The result is an
      initialised model of the instance's dimensions; on a model that was
      already initialised only the weights change. */
  function Train(exp: real -> real, m: Model, inst: Instance): (r: Model)
    requires IsExp(exp) && Valid(m) && inst.Labeled()
    requires !m.shouldReset ==> Matches(m, inst)
    ensures Valid(r) && !r.shouldReset && Matches(r, inst)
    ensures !m.shouldReset ==> r == m.(weights := r.weights)
  {
    var w := Initialize(m, inst);
    var p := TrainingProbabilities(exp, m, inst);
    var rows := UpdateRows(w.weights, inst.numClasses, inst.inputValues, inst.classValue, p,
                           w.learningRate, w.regularizationFactor);
    w.(weights := rows)
  }

  /** Every row below `numClasses - 1` updated with its class's error; the
      reference row and any row beyond it left as they are. */
  function UpdateRows(weights: seq<seq<real>>, numClasses: int, x: seq<real>, groundTruth: int,
                      p: seq<real>, lr: real, reg: real): (w: seq<seq<real>>)
    requires numClasses <= |p|
    requires forall i :: 0 <= i < numClasses - 1 && i < |weights| ==>
      |weights[i]| >= 1 && |weights[i]| - 1 <= |x|
    ensures |w| == |weights|
    ensures forall i :: 0 <= i < |w| ==> |w[i]| == |weights[i]|
    ensures forall i :: numClasses - 1 <= i < |w| && 0 <= i ==> w[i] == weights[i]
  {
    seq(|weights|, i requires 0 <= i < |weights| =>
      if i < numClasses - 1
      then UpdateRow(weights[i], x, ClassError(i, groundTruth, p), lr, reg)
      else weights[i])
  }

  /** `after` is `before` after one gradient step with error `err` and one
      shrink: the bias (last slot) gains `lr * err` and is never shrunk; each
      feature weight becomes `(w + lr * err * x[j]) * (1 - lr * reg)`, the
      shrink applying to the already-stepped value. */
  ghost predicate StepAndShrink(before: seq<real>, after: seq<real>, x: seq<real>, err: real, lr: real, reg: real) {
    && |before| >= 1 && |after| == |before| && |before| - 1 <= |x|
    && after[|before| - 1] == before[|before| - 1] + lr * err
    && forall j :: 0 <= j < |before| - 1 ==> after[j] == (before[j] + lr * err * x[j]) * (1.0 - lr * reg)
  }

  /** The per-weight effect of a training call on a non-reference row `i`,
      with `err = [i == y] - p[i]` for the probabilities `p` of the call. */
  lemma {:induction false} TrainUpdatesRow(exp: real -> real, m: Model, inst: Instance, i: int)
    requires IsExp(exp) && Valid(m) && inst.Labeled()
    requires !m.shouldReset ==> Matches(m, inst)
    requires 0 <= i < inst.numClasses - 1
    ensures StepAndShrink(
              Initialize(m, inst).weights[i], Train(exp, m, inst).weights[i], inst.inputValues,
              (if i == inst.classValue then 1.0 else 0.0) - TrainingProbabilities(exp, m, inst)[i],
              InitialLearningRate, InitialRegularizationFactor)
  {
    TrainWritesRow(exp, m, inst, i);
    ClassUpdateIsStepAndShrink(Initialize(m, inst).weights[i], inst.inputValues, inst.classValue,
                               TrainingProbabilities(exp, m, inst), i);
  }

  /** Row `i` updated with its class error, at the learner's fixed rates, is
      one step with `err = [i == y] - p[i]` followed by one shrink. */
  lemma {:induction false} ClassUpdateIsStepAndShrink(row: seq<real>, x: seq<real>, y: int, p: seq<real>, i: int)
    requires |row| >= 1 && |row| - 1 <= |x| && 0 <= i < |p|
    ensures StepAndShrink(
              row, UpdateRow(row, x, ClassError(i, y, p), InitialLearningRate, InitialRegularizationFactor), x,
              (if i == y then 1.0 else 0.0) - p[i], InitialLearningRate, InitialRegularizationFactor)
  {
    assert ClassError(i, y, p) == (if i == y then 1.0 else 0.0) - p[i];
    UpdateRowEffect(row, x, ClassError(i, y, p), InitialLearningRate, InitialRegularizationFactor);
  }

  /** Row `i < numClasses - 1` of the trained model is the updated row. */
  lemma {:induction false} TrainWritesRow(exp: real -> real, m: Model, inst: Instance, i: int)
    requires IsExp(exp) && Valid(m) && inst.Labeled()
    requires !m.shouldReset ==> Matches(m, inst)
    requires 0 <= i < inst.numClasses - 1
    ensures Train(exp, m, inst).weights[i]
         == UpdateRow(Initialize(m, inst).weights[i], inst.inputValues,
                      ClassError(i, inst.classValue, TrainingProbabilities(exp, m, inst)),
                      InitialLearningRate, InitialRegularizationFactor)
  {
  }

  /** With a positive regularisation factor, `UpdateRow` takes one step and one shrink. */
  lemma {:induction false} UpdateRowEffect(row: seq<real>, x: seq<real>, err: real, lr: real, reg: real)
    requires |row| >= 1 && |row| - 1 <= |x|
    requires reg > 0.0
    ensures StepAndShrink(row, UpdateRow(row, x, err, lr, reg), x, err, lr, reg)
  {
    var r := UpdateRow(row, x, err, lr, reg);
    forall j | 0 <= j < |row| - 1
      ensures r[j] == (row[j] + lr * err * x[j]) * (1.0 - lr * reg)
    {
      var g := row[j] + lr * err * x[j];
      assert r[j] == g - lr * reg * g;
    }
  }

  /** A training call never writes the reference row. */
  lemma {:induction false} TrainKeepsReferenceRow(exp: real -> real, m: Model, inst: Instance)
    requires IsExp(exp) && Valid(m) && inst.Labeled()
    requires !m.shouldReset ==> Matches(m, inst)
    ensures Train(exp, m, inst).weights[inst.numClasses - 1]
         == Initialize(m, inst).weights[inst.numClasses - 1]
         == seq(inst.numAttributes, _ => 0.0)
  {
    var w := Initialize(m, inst).weights;
    assert w[inst.numClasses - 1] == seq(inst.numAttributes, _ => 0.0);
  }

  /** Training after a reset does not depend on anything learned before it. */
  lemma {:induction false} TrainAfterResetForgetsHistory(exp: real -> real, m: Model, inst: Instance)
    requires IsExp(exp) && inst.Labeled()
    ensures Train(exp, ResetLearning(m), inst) == Train(exp, Init(), inst)
  {
    assert Initialize(ResetLearning(m), inst) == Initialize(Init(), inst);
  }

  /** A label outside `[0, numClasses)` is accepted: it matches no row, so
      every non-reference row is pushed down by its probability, exactly as
      for an instance of the reference class `numClasses - 1`. */
  lemma {:induction false} OutOfRangeLabelTrainsAsReference(exp: real -> real, m: Model, inst: Instance)
    requires IsExp(exp) && Valid(m) && inst.Labeled()
    requires !m.shouldReset ==> Matches(m, inst)
    requires inst.classValue < 0 || inst.numClasses <= inst.classValue
    ensures Train(exp, m, inst) == Train(exp, m, inst.(classValue := inst.numClasses - 1))
  {
    var ref := inst.(classValue := inst.numClasses - 1);
    var p := TrainingProbabilities(exp, m, inst);
    assert p == TrainingProbabilities(exp, m, ref);
    forall i | 0 <= i < inst.numClasses - 1
      ensures ClassError(i, inst.classValue, p) == ClassError(i, ref.classValue, p)
    {
    }
  }

  /** Two models that differ at most in the bias slots of their rows. */
  ghost predicate SameButBias(m1: Model, m2: Model) {
    && m1.(weights := []) == m2.(weights := [])
    && |m1.weights| == |m2.weights|
    && forall i :: 0 <= i < |m1.weights| ==>
         |m1.weights[i]| == |m2.weights[i]| && Features(m1.weights[i]) == Features(m2.weights[i])
  }

  /** The scores of two models that differ only in their biases coincide. */
  lemma {:induction false} ScoresIgnoreBias(m1: Model, m2: Model, numClasses: int, x: seq<real>)
    requires SameButBias(m1, m2)
    requires 1 <= numClasses <= |m1.weights|
    requires forall i :: 0 <= i < numClasses - 1 ==> |m1.weights[i]| == |x| + 1
    ensures Scores(m1.weights, numClasses, x) == Scores(m2.weights, numClasses, x)
  {
    forall i | 0 <= i < numClasses - 1
      ensures DotProduct(x, m1.weights[i]) == DotProduct(x, m2.weights[i])
    {
      ScoreIgnoresBias(m1.weights, numClasses, x, i);
      ScoreIgnoresBias(m2.weights, numClasses, x, i);
    }
  }

  /** The bias is never scored in prediction: models that differ only in
      their biases classify every input alike. */
  lemma {:induction false} ClassifyIgnoresBias(exp: real -> real, m1: Model, m2: Model, x: seq<real>)
    requires IsExp(exp) && Valid(m1) && Valid(m2) && !m1.shouldReset
    requires SameButBias(m1, m2)
    requires |x| == m1.nbInputs - 1
    ensures Classify(exp, m1, x) == Classify(exp, m2, x)
  {
    ScoresIgnoreBias(m1, m2, m1.nbClasses, x);
  }

  /** The bias is never scored in training either: training two models that
      differ only in their biases yields models that differ only in their
      biases, so the feature weights evolve independently of the bias. */
  lemma {:induction false} TrainIgnoresBias(exp: real -> real, m1: Model, m2: Model, inst: Instance)
    requires IsExp(exp) && Valid(m1) && Valid(m2) && inst.Labeled()
    requires !m1.shouldReset ==> Matches(m1, inst)
    requires SameButBias(m1, m2)
    ensures SameButBias(Train(exp, m1, inst), Train(exp, m2, inst))
  {
    var w1 := Initialize(m1, inst);
    var w2 := Initialize(m2, inst);
    assert SameButBias(w1, w2);
    ClassifyIgnoresBias(exp, w1, w2, inst.inputValues);
    UpdateRowsIgnoreBias(w1.weights, w2.weights, inst.numClasses, inst.inputValues, inst.classValue,
                         TrainingProbabilities(exp, m1, inst), w1.learningRate, w1.regularizationFactor);
  }

  /** The row update reads the bias of a row only to write it back: rows
      with the same feature weights get the same feature weights. */
  lemma {:induction false} UpdateRowsIgnoreBias(w1: seq<seq<real>>, w2: seq<seq<real>>, numClasses: int,
                                                x: seq<real>, y: int, p: seq<real>, lr: real, reg: real)
    requires numClasses <= |p| && |w1| == |w2|
    requires forall i :: 0 <= i < |w1| ==> |w1[i]| == |w2[i]| && Features(w1[i]) == Features(w2[i])
    requires forall i :: 0 <= i < numClasses - 1 && i < |w1| ==> |w1[i]| >= 1 && |w1[i]| - 1 <= |x|
    ensures var r1 := UpdateRows(w1, numClasses, x, y, p, lr, reg);
            var r2 := UpdateRows(w2, numClasses, x, y, p, lr, reg);
            forall i :: 0 <= i < |r1| ==> |r1[i]| == |r2[i]| && Features(r1[i]) == Features(r2[i])
  {
    var r1 := UpdateRows(w1, numClasses, x, y, p, lr, reg);
    var r2 := UpdateRows(w2, numClasses, x, y, p, lr, reg);
    forall i | 0 <= i < |r1|
      ensures Features(r1[i]) == Features(r2[i])
    {
      if i < numClasses - 1 {
        var n := |w1[i]| - 1;
        forall j | 0 <= j < n
          ensures r1[i][j] == r2[i][j]
        {
          assert w1[i][j] == Features(w1[i])[j];
          assert w2[i][j] == Features(w2[i])[j];
        }
      }
    }
  }

  /** The first step from a fresh learner, two classes and one feature,
      on the instance `x = 1.0` of class 0: both scores are 0, both
      probabilities 1/2, the error of class 0 is 1/2; the bias of class 0
      becomes 0.0025 and its feature weight 0.0025 shrunk by 1 - 0.0025.
      The next scores use the feature weight alone. */
  lemma FirstStepExample(exp: real -> real)
    requires IsExp(exp)
    ensures
      var inst := Instance(2, 2, [1.0], 0);
      var r := Train(exp, Init(), inst);
      && TrainingProbabilities(exp, Init(), inst) == [0.5, 0.5]
      && r.weights == [[0.00249375, 0.0025], [0.0, 0.0]]
      && Scores(r.weights, 2, [1.0]) == [0.00249375, 0.0]
  {
    var inst := Instance(2, 2, [1.0], 0);
    var w := Initialize(Init(), inst);
    assert w.weights[0] == [0.0, 0.0] && w.weights[1] == [0.0, 0.0];
    assert w.weights == [[0.0, 0.0], [0.0, 0.0]];
    var s := Scores(w.weights, 2, [1.0]);
    assert DotProduct([1.0], [0.0, 0.0]) == 0.0 by {
      assert [1.0][..0] == [];
    }
    assert s == [0.0, 0.0];
    assert Max(s) == 0.0;
    ExpBasics(exp);
    var e := ShiftedExps(exp, s);
    assert e == [1.0, 1.0];
    assert Sum(e) == 2.0 by {
      assert e[..1] == [1.0];
      assert e[..1][..0] == [];
    }
    SoftmaxUnfold(exp, s);
    assert Softmax(exp, s) == [0.5, 0.5];
    var r := Train(exp, Init(), inst);
    assert r.weights[0] == [0.00249375, 0.0025];
    assert r.weights[1] == [0.0, 0.0];
    assert DotProduct([1.0], r.weights[0]) == 0.00249375 by {
      assert [1.0][..0] == [];
    }
  }
}
