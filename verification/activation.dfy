/** The element-wise activations a Dense layer is built with, and their derivatives. */
module Activations {

  /** The closed set of (activation, derivative) pairs the layers are constructed with. */
  datatype Activation = Relu | Identity

  /** `relu(x) = Math.max(0, x)`, `identity(x) = x`. */
  function Apply(a: Activation, x: real): real
  {
    match a
    case Relu => if 0.0 >= x then 0.0 else x
    case Identity => x
  }

  /** `dRelu(x) = x > 0 ? 1 : 0`, `dIdentity(x) = 1`. */
  function Derivative(a: Activation, x: real): real
  {
    match a
    case Relu => if x > 0.0 then 1.0 else 0.0
    case Identity => 1.0
  }

  lemma ReluFacts(x: real)
    ensures Apply(Relu, x) >= 0.0
    ensures x > 0.0 ==> Apply(Relu, x) == x
    ensures x <= 0.0 ==> Apply(Relu, x) == 0.0
    ensures Derivative(Relu, x) == 0.0 || Derivative(Relu, x) == 1.0
    ensures Derivative(Relu, x) == 1.0 <==> x > 0.0
  {
  }

  lemma IdentityFacts(x: real)
    ensures Apply(Identity, x) == x
    ensures Derivative(Identity, x) == 1.0
  {
  }
}
