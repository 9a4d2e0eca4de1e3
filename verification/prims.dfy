/**
 * The numeric primitives the toolkit calls but whose values are not modelled:
 * `Math.tanh`, `Math.E ** x`, `Math.sqrt` and the imported `clipValue`.
 * They are passed to the operations that use them as function parameters;
 * only the two facts the arithmetic needs are assumed of them, as subset
 * types: `e ** x` is positive and the square root is non-negative.
 */
module Prims {

  type NonNegFn = f: real -> real | forall x :: 0.0 <= f(x) witness (x: real) => 0.0

  type PosFn = f: real -> real | forall x :: 0.0 < f(x) witness (x: real) => 1.0

  /** A squashing function: every value lies strictly between 0 and 1. */
  ghost predicate Squashes(f: real -> real)
  {
    forall x :: 0.0 < f(x) < 1.0
  }

  /** `clipValue(value, bound)`, imported by the dense layer; its definition is not part of this model. */
  type Clip = (real, real) -> real

  lemma ReciprocalInUnit(d: real)
    requires d > 1.0
    ensures 0.0 < 1.0 / d < 1.0
  {
  }

  /** The logistic function `1 / (1 + e^-x)`; its value lies strictly between 0 and 1. */
  function Sigmoid(exp: PosFn, x: real): (y: real)
    ensures 0.0 < y < 1.0
  {
    var d := 1.0 + exp(-x);
    ReciprocalInUnit(d);
    1.0 / d
  }

  /** `sigmoid` of the two stand-alone network files, built on `Math.E ** -x`: a squashing function. */
  function Logistic(exp: PosFn): (f: real -> real)
    ensures forall x :: f(x) == Sigmoid(exp, x)
    ensures Squashes(f)
  {
    x => Sigmoid(exp, x)
  }
}
