/** The exponential function the learner calls (`Math.exp`), as the three laws
    the model relies on. The function itself is a parameter of every operation
    that exponentiates; any function meeting these laws may be passed, the real
    exponential among them (up to floating-point rounding, which is not modelled). */
module Exponential {

  /** `a + b`, named only to serve as the trigger of the product law below, so
      that the law fires where a proof asks for it and not on every sum. */
  function Plus(a: real, b: real): real
  {
    a + b
  }

  /** `exp` is strictly positive, maps 0 to 1 and turns sums into products.
      `Plus(a, b)` is just `a + b`; it appears only as the trigger of the third law. */
  ghost predicate IsExp(exp: real -> real) {
    && (forall x :: exp(x) > 0.0)
    && exp(0.0) == 1.0
    && (forall a, b {:trigger Plus(a, b)} :: exp(Plus(a, b)) == exp(a) * exp(b))
  }

  /** Restates the first two laws where they are needed inside a function body;
      it only brings the quantifiers of `IsExp` into the solver's view. */
  lemma ExpBasics(exp: real -> real)
    requires IsExp(exp)
    ensures forall x :: exp(x) > 0.0
    ensures exp(0.0) == 1.0
  {
  }

  /** Subtracting `m` before exponentiating divides the result by `exp(m)`. */
  lemma ExpOfDifference(exp: real -> real, a: real, m: real)
    requires IsExp(exp)
    ensures exp(a) == exp(a - m) * exp(m)
  {
    assert Plus(a - m, m) == a;
  }

  /** The laws are consistent: the constant function 1 meets all three. */
  lemma ConstantOneIsExp()
    ensures IsExp(x => 1.0)
  {
  }
}
