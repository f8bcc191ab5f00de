/**
 * The standalone script's perceptron: weights and bias are set once when it is
 * built and only read afterwards, so it is a value. Its demonstration pattern
 * and outputs are kept as lemmas.
 */
module Standalone {
  import opened Wrappers
  import opened Weighting

  /** A perceptron with its weights and its bias. */
  datatype Perceptron = Perceptron(weights: seq<real>, bias: real) {

    /**
     * `calculate_output`: refuses any input list that does not have exactly 16
     * elements; otherwise the weighted sum of the inputs plus the bias. The sum
     * runs over `zip(inputs, weights)`, so it needs no assumption on the weights.
     */
    function CalculateOutput(inputs: seq<int>): (r: Result<real, ValueError>)
      ensures r.Failure? <==> |inputs| != Size
      ensures r.Failure? ==> r.error == WrongInputCount
      ensures r.Success? ==> r.value == Dot(inputs, weights) + bias
    {
      if |inputs| != Size then Failure(WrongInputCount)
      else Success(WeightedSum(inputs, weights) + bias)
    }
  }

  /**
   * `Perceptron(weights=None, bias=0.0)`: sixteen zero weights when none are
   * given, a refusal when the given list does not have 16 elements, and the
   * given weights otherwise. Lists are values here, so the stored weights
   * cannot be changed through the caller's list afterwards.
   */
  function Create(weights: Option<seq<real>>, bias: real): (r: Result<Perceptron, ValueError>)
    ensures r.Failure? <==> weights.Some? && |weights.value| != Size
    ensures r.Failure? ==> r.error == WrongWeightCount
    ensures r.Success? ==> |r.value.weights| == Size && r.value.bias == bias
    ensures r.Success? && weights.None? ==> forall i :: 0 <= i < Size ==> r.value.weights[i] == 0.0
    ensures r.Success? && weights.Some? ==> r.value.weights == weights.value
  {
    if weights.None? then Success(Perceptron(ZeroWeights, bias))
    else if |weights.value| != Size then Failure(WrongWeightCount)
    else Success(Perceptron(weights.value, bias))
  }

  /** With all 16 switches up the output is the sum of the weights plus the bias. */
  lemma AllUpOutput(p: Perceptron, inputs: seq<int>)
    requires |p.weights| == Size && |inputs| == Size
    requires forall i :: 0 <= i < |inputs| ==> inputs[i] == 1
    ensures p.CalculateOutput(inputs) == Success(Sum(p.weights) + p.bias)
  {
    DotAllUp(inputs, p.weights);
  }

  /** With all 16 switches down the output is minus the sum of the weights, plus the bias. */
  lemma AllDownOutput(p: Perceptron, inputs: seq<int>)
    requires |p.weights| == Size && |inputs| == Size
    requires forall i :: 0 <= i < |inputs| ==> inputs[i] == -1
    ensures p.CalculateOutput(inputs) == Success(-Sum(p.weights) + p.bias)
  {
    DotAllDown(inputs, p.weights);
  }

  /** A default perceptron outputs 0.0 for every 16-element input. */
  lemma DefaultOutput(inputs: seq<int>)
    requires |inputs| == Size
    ensures Create(None, 0.0).Success?
    ensures Create(None, 0.0).value.CalculateOutput(inputs) == Success(0.0)
  {
    DotZeroWeights(inputs, ZeroWeights);
  }

  /** The demonstration's weights, row by row of the 4x4 grid. */
  const SampleWeights: seq<real> := Row1Weights + MiddleRowWeights + MiddleRowWeights + Row4Weights
  const Row1Weights: seq<real> := [0.5, 0.5, 0.5, 0.5]
  const MiddleRowWeights: seq<real> := [0.2, 1.0, 1.0, 0.2]
  const Row4Weights: seq<real> := [0.2, 0.2, 0.2, 0.2]

  /** The demonstration's bias. */
  const SampleBias: real := -2.0

  /** The "T" pattern: top row up, middle two columns of rows 2 and 3 up, the rest down. */
  const TPattern: seq<int> := [1, 1, 1, 1] + MiddleRowPattern + MiddleRowPattern + [-1, -1, -1, -1]
  const MiddleRowPattern: seq<int> := [-1, 1, 1, -1]

  /** `[1] * 16` and `[-1] * 16`. */
  const AllUp: seq<int> := Repeat(1, Size)
  const AllDown: seq<int> := Repeat(-1, Size)

  /** One row of the grid: its four products. */
  lemma RowDot(x0: int, x1: int, x2: int, x3: int, w0: real, w1: real, w2: real, w3: real)
    ensures Dot([x0, x1, x2, x3], [w0, w1, w2, w3])
         == (x0 as real) * w0 + (x1 as real) * w1 + (x2 as real) * w2 + (x3 as real) * w3
  {
    assert [x0, x1, x2, x3][1..] == [x1, x2, x3] && [w0, w1, w2, w3][1..] == [w1, w2, w3];
    assert [x1, x2, x3][1..] == [x2, x3] && [w1, w2, w3][1..] == [w2, w3];
    assert [x2, x3][1..] == [x3] && [w2, w3][1..] == [w3];
    assert [x3][1..] == [] && [w3][1..] == [];
    assert Dot([x3], [w3]) == (x3 as real) * w3;
    assert Dot([x2, x3], [w2, w3]) == (x2 as real) * w2 + Dot([x3], [w3]);
    assert Dot([x1, x2, x3], [w1, w2, w3]) == (x1 as real) * w1 + Dot([x2, x3], [w2, w3]);
  }

  /** One row of the grid: its four weights. */
  lemma RowSum(w0: real, w1: real, w2: real, w3: real)
    ensures Sum([w0, w1, w2, w3]) == w0 + w1 + w2 + w3
  {
    assert [w0, w1, w2, w3][1..] == [w1, w2, w3];
    assert [w1, w2, w3][1..] == [w2, w3];
    assert [w2, w3][1..] == [w3];
    assert [w3][1..] == [];
    assert Sum([w3]) == w3;
    assert Sum([w2, w3]) == w2 + Sum([w3]);
    assert Sum([w1, w2, w3]) == w1 + Sum([w2, w3]);
  }

  /** The sample weights add up to 7.6. */
  lemma SampleWeightsSum()
    ensures |SampleWeights| == Size && Sum(SampleWeights) == 7.6
  {
    RowSum(0.5, 0.5, 0.5, 0.5);
    RowSum(0.2, 1.0, 1.0, 0.2);
    RowSum(0.2, 0.2, 0.2, 0.2);
    SumAppend(Row1Weights, MiddleRowWeights);
    SumAppend(Row1Weights + MiddleRowWeights, MiddleRowWeights);
    SumAppend(Row1Weights + MiddleRowWeights + MiddleRowWeights, Row4Weights);
  }

  /** The demonstration's perceptron reads 2.4 for the T pattern. */
  lemma DemoTPattern()
    ensures Create(Some(SampleWeights), SampleBias).Success?
    ensures Create(Some(SampleWeights), SampleBias).value.CalculateOutput(TPattern) == Success(2.4)
  {
    var top: seq<int> := [1, 1, 1, 1];
    var bottom: seq<int> := [-1, -1, -1, -1];
    RowDot(1, 1, 1, 1, 0.5, 0.5, 0.5, 0.5);
    RowDot(-1, 1, 1, -1, 0.2, 1.0, 1.0, 0.2);
    RowDot(-1, -1, -1, -1, 0.2, 0.2, 0.2, 0.2);
    DotAppend(top, Row1Weights, MiddleRowPattern, MiddleRowWeights);
    DotAppend(top + MiddleRowPattern, Row1Weights + MiddleRowWeights, MiddleRowPattern, MiddleRowWeights);
    DotAppend(top + MiddleRowPattern + MiddleRowPattern, Row1Weights + MiddleRowWeights + MiddleRowWeights,
              bottom, Row4Weights);
    assert Dot(TPattern, SampleWeights) == 4.4;
  }

  /** The demonstration's perceptron reads 5.6 with every switch up. */
  lemma DemoAllUp()
    ensures Create(Some(SampleWeights), SampleBias).Success?
    ensures Create(Some(SampleWeights), SampleBias).value.CalculateOutput(AllUp) == Success(5.6)
  {
    SampleWeightsSum();
    AllUpOutput(Perceptron(SampleWeights, SampleBias), AllUp);
  }

  /** The demonstration's perceptron reads -9.6 with every switch down. */
  lemma DemoAllDown()
    ensures Create(Some(SampleWeights), SampleBias).Success?
    ensures Create(Some(SampleWeights), SampleBias).value.CalculateOutput(AllDown) == Success(-9.6)
  {
    SampleWeightsSum();
    AllDownOutput(Perceptron(SampleWeights, SampleBias), AllDown);
  }
}
