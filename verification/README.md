# Online multinomial logistic regression, modelled in Dafny

This project models MOA's `MultinomialLogisticRegression` classifier, an online
learner for multi-class data streams. It takes one stochastic-gradient step per
labeled instance and can return class votes for any instance at any time.

The learner keeps `nbInputs`, `nbClasses` and a `nbClasses x nbInputs` weight
matrix. Column `nbInputs - 1` of each row is a bias. Row `nbClasses - 1`
belongs to the *reference class*, whose score is pinned at 0.

- The flag `shouldReset` defers initialisation to the first training call after
  construction or `resetLearningImpl`.
- A training call scores the instance, takes the softmax, and updates each
  non-reference row. The bias gains `lr * err`. Each feature weight takes the
  step `lr * err * x[j]` and is then shrunk by `lr * reg` times its new value.
- `dotProduct` runs over the input values only. The input is one entry shorter
  than a row, so the bias is trained but never enters a score.

Files:

- `exponential.dfy` (module `Exponential`): `Math.exp` is a parameter
  `exp: real -> real`. The predicate `IsExp` states the three laws the model
  uses: `exp(x) > 0`, `exp(0) == 1` and `exp(a + b) == exp(a) * exp(b)`.
  `ConstantOneIsExp` shows the laws can be met.
- `vectors.dfy` (module `Vectors`): sums, scaling, and `dotProduct`.
- `distribution.dfy` (module `Distribution`): the stabilised softmax, its three
  in-place loops, and its properties.
- `learner.dfy` (module `Learner`): the learner state as a datatype `Model`, with
  pure functions for construction, reset, initialisation, training and votes.
- `classifier.dfy` (module `Classifier`): the class with the fields and entry
  points of `MultinomialLogisticRegression.java`, written with its loops. Each method is proved to
  compute the corresponding `Learner` function.

Arithmetic is over `real`. Floating-point rounding, overflow and NaN are not
modelled. The SAMOA `Instance` becomes the datatype `Learner.Instance`.

## Model

| member | source | states |
|---|---|---|
| Vectors.ComputeDotProduct | moa/src/main/java/moa/classifiers/functions/MultinomialLogisticRegression.java:103-110 | The accumulation loop returns the inner product of the input with the first `input.length` weights. |
| Vectors.DotProductReadsPrefix | moa/src/main/java/moa/classifiers/functions/MultinomialLogisticRegression.java:103-110 | The dot product reads only the weights at indices below the input length. Two weight vectors that agree there give the same product. |
| Distribution.Max | moa/src/main/java/moa/classifiers/functions/MultinomialLogisticRegression.java:113-118 | The scanned maximum is at least every score and equals one of them. |
| Distribution.ScanMaximum | moa/src/main/java/moa/classifiers/functions/MultinomialLogisticRegression.java:113-118 | The loop starting from "below everything" and keeping strictly larger entries returns the maximum. |
| Distribution.ExponentiateInPlace | moa/src/main/java/moa/classifiers/functions/MultinomialLogisticRegression.java:120-125 | The second loop replaces each score by `exp(score - max)` and returns the sum of the new entries as the normaliser. |
| Distribution.DivideInPlace | moa/src/main/java/moa/classifiers/functions/MultinomialLogisticRegression.java:127-128 | The third loop divides every entry by the normaliser. |
| Distribution.NormaliserAtLeastOne | moa/src/main/java/moa/classifiers/functions/MultinomialLogisticRegression.java:120-125 | The normaliser is at least 1, because the maximal score maps to `exp(0) = 1` and the other terms are positive. |
| Distribution.Softmax | moa/src/main/java/moa/classifiers/functions/MultinomialLogisticRegression.java:112-131 | The output has the input's length, every entry lies in (0, 1], and a non-empty output sums to 1. |
| Distribution.SoftmaxMatchesTextbook | moa/src/main/java/moa/classifiers/functions/MultinomialLogisticRegression.java:112-131 | Subtracting the maximum changes nothing: the result equals `exp(s[i]) / sum_j exp(s[j])`. |
| Distribution.SoftmaxShiftInvariant | moa/src/main/java/moa/classifiers/functions/MultinomialLogisticRegression.java:112-131 | Adding one constant to every score leaves the softmax unchanged. |
| Distribution.SoftmaxInPlace | moa/src/main/java/moa/classifiers/functions/MultinomialLogisticRegression.java:112-131 | The three in-place loops together compute the softmax. On an empty vector they return it unchanged. |
| Learner.Init | moa/src/main/java/moa/classifiers/functions/MultinomialLogisticRegression.java:14-21 | A new learner has `shouldReset` raised and satisfies the state invariant. |
| Learner.ResetLearning | moa/src/main/java/moa/classifiers/functions/MultinomialLogisticRegression.java:28-31 | Reset raises `shouldReset` and keeps the dimensions, hyperparameters and weights. The invariant still holds. |
| Learner.Initialize | moa/src/main/java/moa/classifiers/functions/MultinomialLogisticRegression.java:35-45 | When the flag is raised: clear it, take the instance's dimensions, set the rates 0.005 and 0.5, and create an all-zero matrix of the right shape. Otherwise the model is returned unchanged. |
| Learner.Scores | moa/src/main/java/moa/classifiers/functions/MultinomialLogisticRegression.java:53-55 | There is one score per class, and the reference class's score is 0. |
| Learner.ScoreIgnoresBias | moa/src/main/java/moa/classifiers/functions/MultinomialLogisticRegression.java:47-55 | For an input one entry shorter than the row, a class score is the dot product with the row's feature weights alone. The bias is not read. |
| Learner.Classify | moa/src/main/java/moa/classifiers/functions/MultinomialLogisticRegression.java:92-101 | An initialised model gives a distribution over its `nbClasses` classes: every entry is in (0, 1] and the entries sum to 1. |
| Learner.ClassifyOddsAgainstReference | moa/src/main/java/moa/classifiers/functions/MultinomialLogisticRegression.java:92-101 | `p[i] = p[C-1] * exp(features_i . x)` for every non-reference class `i`. So the odds against the reference class depend only on the feature weights. |
| Learner.ClassifyIgnoresBias | moa/src/main/java/moa/classifiers/functions/MultinomialLogisticRegression.java:79-83 | Two models that differ only in their bias slots classify every input alike. |
| Learner.Normalize | moa/src/main/java/moa/classifiers/functions/MultinomialLogisticRegression.java:85-87 | Normalisation keeps the vector's length and leaves a vector that already sums to 1 unchanged. |
| Learner.Votes | moa/src/main/java/moa/classifiers/functions/MultinomialLogisticRegression.java:76-90 | The result has `numClasses` entries. While `shouldReset` is raised, every entry is 0. Otherwise the votes are exactly `Classify` of the input, because normalising leaves that distribution unchanged. So the entries lie in (0, 1] and sum to 1, and every property of `Classify` reaches the votes. |
| Learner.TrainingProbabilities | moa/src/main/java/moa/classifiers/functions/MultinomialLogisticRegression.java:47-57 | The probabilities a training call computes are exactly `Classify` of the initialised model on the same input. Training and prediction score an instance alike, so the probabilities behind each error form a distribution over the instance's classes. |
| Learner.Train | moa/src/main/java/moa/classifiers/functions/MultinomialLogisticRegression.java:33-73 | Training leaves an initialised, valid model with the instance's dimensions, fixed rates and an all-zero reference row. If the model was already initialised, only the weights change. |
| Learner.TrainUpdatesRow | moa/src/main/java/moa/classifiers/functions/MultinomialLogisticRegression.java:59-72 | Take non-reference row `i` and `err = [i == y] - p[i]`. The bias becomes `b + 0.005 * err` and is never shrunk. Each feature weight becomes `(w + 0.005 * err * x[j]) * (1 - 0.005 * 0.5)`. |
| Learner.ClassUpdateIsStepAndShrink | moa/src/main/java/moa/classifiers/functions/MultinomialLogisticRegression.java:62-71 | Updating a row with the class error of class `i` for label `y` is one step with `err = [i == y] - p[i]` and one shrink at the fixed rates. |
| Learner.UpdateRowEffect | moa/src/main/java/moa/classifiers/functions/MultinomialLogisticRegression.java:62-71 | With a positive regularisation factor, the row update is one gradient step followed by a multiplicative shrink of the feature weights only. |
| Learner.TrainKeepsReferenceRow | moa/src/main/java/moa/classifiers/functions/MultinomialLogisticRegression.java:59-72 | A training call never writes the reference row `numClasses - 1`, so that row stays all zero. |
| Learner.TrainAfterResetForgetsHistory | moa/src/main/java/moa/classifiers/functions/MultinomialLogisticRegression.java:29-45 | Training right after a reset gives the same model as training a new learner. Nothing learned before the reset survives. |
| Learner.OutOfRangeLabelTrainsAsReference | moa/src/main/java/moa/classifiers/functions/MultinomialLogisticRegression.java:51-64 | Any integer label is accepted. A label outside `[0, numClasses)` matches no row, so training on it gives the same model as training on the reference class `numClasses - 1`. |
| Learner.TrainIgnoresBias | moa/src/main/java/moa/classifiers/functions/MultinomialLogisticRegression.java:47-72 | Training two models that differ only in their biases gives two models that again differ only in their biases. |
| Learner.UpdateRowsIgnoreBias | moa/src/main/java/moa/classifiers/functions/MultinomialLogisticRegression.java:59-72 | The row updates read a bias only to write it back. Weight matrices with the same feature weights get updated feature weights that are again the same. |
| Learner.FirstStepExample | moa/src/main/java/moa/classifiers/functions/MultinomialLogisticRegression.java:33-72 | Take a new learner, 2 classes, 1 feature, and instance `x = 1.0` of class 0. The probabilities are `[0.5, 0.5]`. The weights become `[[0.00249375, 0.0025], [0, 0]]`. The next scores are `[0.00249375, 0]`, without the bias. |
| Classifier.UpdateRowInPlace | moa/src/main/java/moa/classifiers/functions/MultinomialLogisticRegression.java:60-71 | The bias update, the gradient loop and the shrink loop, run in place, compute the row update. |
| Classifier.ComputeScores | moa/src/main/java/moa/classifiers/functions/MultinomialLogisticRegression.java:53-55 | The scoring loop computes the scores and leaves the reference entry at 0. |
| Classifier.UpdateRowsInPlace | moa/src/main/java/moa/classifiers/functions/MultinomialLogisticRegression.java:59-72 | The loop over rows `0 .. numClasses-2` updates each row with its own class error. It leaves the other rows alone. |
| Classifier.MultinomialLogisticRegression.ResetLearningImpl | moa/src/main/java/moa/classifiers/functions/MultinomialLogisticRegression.java:28-31 | The object's fields after a reset are `Learner.ResetLearning` of the fields before it. |
| Classifier.MultinomialLogisticRegression.TrainOnInstanceImpl | moa/src/main/java/moa/classifiers/functions/MultinomialLogisticRegression.java:33-73 | The object's fields after a training call are `Learner.Train` of the fields before it. |
| Classifier.MultinomialLogisticRegression.GetVotesForInstance | moa/src/main/java/moa/classifiers/functions/MultinomialLogisticRegression.java:75-90 | The returned votes are `Learner.Votes` of the current fields. The method modifies nothing. |
| Classifier.MultinomialLogisticRegression.ClassifyImpl | moa/src/main/java/moa/classifiers/functions/MultinomialLogisticRegression.java:92-101 | The returned probabilities are `Learner.Classify` of the current fields. |

## Left out

- `Math.exp` is the parameter `exp`, constrained only by the three laws of `IsExp`. IEEE-754 rounding, overflow, infinities and NaN of `double` are not modelled. All arithmetic is exact over `real`.
- The copy of the input values into a fresh array (lines 47-49 and 79-81) is the `inputValues` sequence itself.
- The cast `(int) inst.classValue()` is not modelled. The label is already an integer.
- Some preconditions stand in for conditions `MultinomialLogisticRegression.java` never checks. After initialisation, instances must have the captured `numAttributes` and `numClasses`. Every instance has `numAttributes - 1` input values. Instances that break these make the Java code index outside an array or score them against a matrix of another shape. They are outside the model.
- A training instance has at least one class. With zero classes the Java training call allocates an empty matrix and updates nothing, but the next `classify` writes `posteriori[-1]` and throws. That first call is not modelled. The class label itself may be any integer, as `OutOfRangeLabelTrainsAsReference` states.
- Learner.Normalize: models Weka's `Utils.normalize` as "divide by the sum; when the sum is 0 the exception is swallowed and the vector returned as is". Weka is not part of this model. Its NaN check is not modelled, because reals have no NaN. Only the identity on a vector summing to 1 is relied on.
- `getPurposeString`, `getModelMeasurementsImpl`, `getModelDescription`, `isRandomizable`, `serialVersionUID` and serialisation are left out. They are descriptive hooks with no learning logic.
- MultinomialLogisticRegressionTest.java only registers the learner with an external regression harness. It holds no assertions to model.
- The hyperparameters are the fixed constants 0.005 and 0.5, as in `MultinomialLogisticRegression.java`. There is no property for a regularisation factor of 0, or for the claim that one step raises the probability of the true class. The Java class cannot be configured that way, and the claim would need monotonicity of `exp`, which the three laws do not give.
- Determinism is not stated separately. Every operation is a function of its inputs.
