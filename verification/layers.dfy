/**
 * The layer records a blur composition is built from.  A plain layer carries
 * the compositing weights; a complex layer adds a chain of blur radii, a
 * simple layer a single radius.  Swift subclassing is modelled by composition:
 * each variant holds the `BlurredLayer` its `super.init` would have built.
 */
module Layers {

  /** The fields shared by every layer; all of them are immutable. */
  class BlurredLayer {
    const scaleFactor: real
    const opacity: real
    const power: real

    constructor (scaleFactor: real, opacity: real, power: real := 1.0)
      ensures this.scaleFactor == scaleFactor
      ensures this.opacity == opacity
      ensures this.power == power
    {
      this.scaleFactor := scaleFactor;
      this.opacity := opacity;
      this.power := power;
    }
  }

  /** A layer that is blurred several times in a row, one radius per level. */
  class ComplexBlurredLayer {
    const base: BlurredLayer
    var pointBlurSteps: seq<real>

    constructor (scaleFactor: real, opacity: real, steps: seq<real>, power: real := 1.0)
      ensures pointBlurSteps == steps
      ensures fresh(base)
      ensures base.scaleFactor == scaleFactor && base.opacity == opacity && base.power == power
    {
      pointBlurSteps := steps;
      base := new BlurredLayer(scaleFactor, opacity, power);
    }

    /** Multiplies every radius of the chain by `factor`, in place, and returns this layer. */
    method AfterScale(factor: real) returns (r: ComplexBlurredLayer)
      modifies this
      ensures r == this
      ensures |pointBlurSteps| == |old(pointBlurSteps)|
      ensures forall i :: 0 <= i < |pointBlurSteps| ==> pointBlurSteps[i] == old(pointBlurSteps)[i] * factor
    {
      var i := 0;
      while i < |pointBlurSteps|
        invariant 0 <= i <= |pointBlurSteps| == |old(pointBlurSteps)|
        invariant forall j :: 0 <= j < i ==> pointBlurSteps[j] == old(pointBlurSteps)[j] * factor
        invariant forall j :: i <= j < |pointBlurSteps| ==> pointBlurSteps[j] == old(pointBlurSteps)[j]
      {
        pointBlurSteps := pointBlurSteps[i := pointBlurSteps[i] * factor];
        i := i + 1;
      }
      r := this;
    }
  }

  /** A layer that is blurred once. */
  class SimpleBlurredLayer {
    const base: BlurredLayer
    var pointBlur: real

    constructor (scaleFactor: real, opacity: real, points: real, power: real := 1.0)
      ensures pointBlur == points
      ensures fresh(base)
      ensures base.scaleFactor == scaleFactor && base.opacity == opacity && base.power == power
    {
      pointBlur := points;
      base := new BlurredLayer(scaleFactor, opacity, power);
    }

    /** Multiplies the radius by `factor`, in place, and returns this layer. */
    method AfterScale(factor: real) returns (r: SimpleBlurredLayer)
      modifies this
      ensures r == this
      ensures pointBlur == old(pointBlur) * factor
    {
      pointBlur := pointBlur * factor;
      r := this;
    }
  }

  /** A reference to a layer together with its dynamic type (the `as?` casts of the caller). */
  datatype LayerRef =
    | Plain(plain: BlurredLayer)
    | Complex(complex: ComplexBlurredLayer)
    | Simple(simple: SimpleBlurredLayer)
  {
    function Obj(): object
    {
      match this
      case Plain(p) => p
      case Complex(c) => c
      case Simple(s) => s
    }

    function Base(): BlurredLayer
    {
      match this
      case Plain(p) => p
      case Complex(c) => c.base
      case Simple(s) => s.base
    }

    /** The radius chain a layer contributes: its steps, its single radius, or nothing for a plain layer. */
    function Chain(): seq<real>
      reads Obj()
    {
      match this
      case Plain(_) => []
      case Complex(c) => c.pointBlurSteps
      case Simple(s) => [s.pointBlur]
    }
  }
}
