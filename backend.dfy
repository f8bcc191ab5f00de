/**
 * The web service's perceptron: the same weights, bias and calculation as the
 * standalone script, plus setters that replace the weights or the bias in place
 * and getters that hand them out.
 */
module Backend {
  import opened Wrappers
  import opened Weighting
  import Standalone

  class Perceptron {
    /** The 16 weights, one per switch. A Python list; a value here, so never shared with a caller. */
    var weights: seq<real>
    /** The bias added to the weighted sum. */
    var bias: real

    /** The class invariant: there is exactly one weight per switch. */
    ghost predicate Valid()
      reads this
    {
      |weights| == Size
    }

    /** Stores already-checked weights and a bias; only `Create` calls it. */
    constructor Init(weights: seq<real>, bias: real)
      requires |weights| == Size
      ensures Valid() && this.weights == weights && this.bias == bias
    {
      this.weights := weights;
      this.bias := bias;
    }

    /**
     * `Perceptron(weights=None, bias=0.0)`: sixteen zero weights when none are
     * given; a `ValueError` and no object when the given list does not hold
     * exactly 16 values; otherwise a new perceptron holding the given weights.
     */
    static method Create(weights: Option<seq<real>>, bias: real) returns (r: Result<Perceptron, ValueError>)
      ensures r.Failure? <==> weights.Some? && |weights.value| != Size
      ensures r.Failure? ==> r.error == WrongWeightCount
      ensures r.Success? ==> fresh(r.value) && r.value.Valid() && r.value.bias == bias
      ensures r.Success? && weights.None? ==> r.value.weights == ZeroWeights
      ensures r.Success? && weights.Some? ==> r.value.weights == weights.value
    {
      if weights.None? {
        var p := new Perceptron.Init(ZeroWeights, bias);
        r := Success(p);
      } else if |weights.value| != Size {
        r := Failure(WrongWeightCount);
      } else {
        var p := new Perceptron.Init(weights.value, bias);
        r := Success(p);
      }
    }

    /**
     * `calculate_output`: a `ValueError` unless there are exactly 16 inputs;
     * otherwise the weighted sum of the inputs plus the bias. The two Python
     * classes share this code, so it is the standalone script's calculation
     * applied to this perceptron's weights and bias.
     */
    function CalculateOutput(inputs: seq<int>): (r: Result<real, ValueError>)
      reads this
      ensures r.Failure? <==> |inputs| != Size
      ensures r.Failure? ==> r.error == WrongInputCount
      ensures r.Success? ==> r.value == Dot(inputs, weights) + bias
    {
      Standalone.Perceptron(weights, bias).CalculateOutput(inputs)
    }

    /**
     * `set_weights`: replaces the weights when the list holds exactly 16
     * values; otherwise raises and changes nothing. The bias never changes.
     */
    method SetWeights(weights: seq<real>) returns (r: Outcome<ValueError>)
      modifies this
      ensures r.Fail? <==> |weights| != Size
      ensures r.Fail? ==> r.error == WrongWeightCount && this.weights == old(this.weights)
      ensures r.Pass? ==> this.weights == weights && Valid()
      ensures old(Valid()) ==> Valid()
      ensures bias == old(bias)
    {
      if |weights| != Size {
        return Fail(WrongWeightCount);
      }
      this.weights := weights;
      r := Pass;
    }

    /** `set_bias`: replaces the bias; the weights do not change. */
    method SetBias(bias: real)
      modifies this
      ensures this.bias == bias && weights == old(weights)
    {
      this.bias := bias;
    }

    /** `get_weights`: a new list holding the current weights, which the caller may change freely. */
    method GetWeights() returns (copy: array<real>)
      ensures fresh(copy) && copy[..] == weights
    {
      copy := new real[|weights|](i requires 0 <= i < |weights| reads this => weights[i]);
    }

    /** `get_bias`: the current bias. */
    function GetBias(): (b: real)
      reads this
      ensures b == bias
    {
      bias
    }
  }

  /** Setting 16 weights and then reading them back gives those weights; the bias stays. */
  method SetWeightsThenGet(p: Perceptron, weights: seq<real>) returns (got: array<real>)
    requires |weights| == Size
    modifies p
    ensures got[..] == weights && p.bias == old(p.bias) && p.Valid()
  {
    var r := p.SetWeights(weights);
    got := p.GetWeights();
  }

  /** Setting the bias and then reading it back gives that bias; the weights stay. */
  method SetBiasThenGet(p: Perceptron, bias: real) returns (got: real)
    modifies p
    ensures got == bias && p.weights == old(p.weights)
  {
    p.SetBias(bias);
    got := p.GetBias();
  }

  /** Changing the list `get_weights` returned leaves the perceptron's weights as they were. */
  method ChangeCopy(p: Perceptron, i: nat, v: real) returns (copy: array<real>)
    requires p.Valid() && i < Size
    ensures copy[..] == p.weights[i := v]
  {
    copy := p.GetWeights();
    copy[i] := v;
  }
}
