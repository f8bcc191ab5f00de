/**
 * The HTTP handlers of the web service as transitions on its one global
 * perceptron. Each request body is checked the way the request models check it
 * before a handler runs; a body that fails those checks is answered with its
 * field errors and changes nothing.
 */
module Api {
  import opened Wrappers
  import opened Weighting
  import opened Backend

  /** A field check a request body failed. */
  datatype FieldError =
    | InputsLength(actual: nat)   // `inputs` does not have exactly 16 items
    | InputsNotSwitches           // `validate_inputs`: some input is neither 1 nor -1
    | WeightsLength(actual: nat)  // `weights` is given but does not have exactly 16 items

  /** The body of a calculate request: `weights` and `bias` may be omitted. */
  datatype CalculateBody = CalculateBody(inputs: seq<int>, weights: Option<seq<real>>, bias: Option<real>)

  /** A calculate request that passed its checks, with the bias default filled in. */
  datatype PerceptronInput = PerceptronInput(inputs: seq<int>, weights: Option<seq<real>>, bias: real)

  /** The response to a calculate request. */
  datatype PerceptronOutput = PerceptronOutput(output: real, weights: seq<real>, bias: real, inputs: seq<int>)

  /** The body of a weights update and of a bias update. */
  datatype WeightsUpdate = WeightsUpdate(weights: seq<real>)
  datatype BiasUpdate = BiasUpdate(bias: real)

  /** The responses of the state, weights, bias and reset handlers. */
  datatype StateResponse = StateResponse(weights: seq<real>, bias: real)
  datatype WeightsResponse = WeightsResponse(message: string, weights: seq<real>)
  datatype BiasResponse = BiasResponse(message: string, bias: real)
  datatype ResetResponse = ResetResponse(message: string, weights: seq<real>, bias: real)

  /** A switch position: up is 1, down is -1. */
  predicate IsSwitch(x: int)
  {
    x == 1 || x == -1
  }

  /** `validate_inputs`: every input is a switch position. */
  function AllSwitches(inputs: seq<int>): (b: bool)
    ensures b <==> forall i :: 0 <= i < |inputs| ==> IsSwitch(inputs[i])
  {
    inputs == [] || (IsSwitch(inputs[0]) && AllSwitches(inputs[1..]))
  }

  /** Whether a reported field error is true of the body it was reported for. */
  predicate Describes(e: FieldError, body: CalculateBody)
  {
    match e
    case InputsLength(n) => n == |body.inputs| && n != Size
    case InputsNotSwitches => |body.inputs| == Size && exists i :: 0 <= i < Size && !IsSwitch(body.inputs[i])
    case WeightsLength(n) => body.weights.Some? && n == |body.weights.value| && n != Size
  }

  /** The errors of the `inputs` field: its length is checked first, its values only when the length is right. */
  function InputsErrors(inputs: seq<int>): seq<FieldError>
  {
    if |inputs| != Size then [InputsLength(|inputs|)]
    else if !AllSwitches(inputs) then [InputsNotSwitches]
    else []
  }

  /** The errors of the optional `weights` field. */
  function WeightsErrors(weights: Option<seq<real>>): seq<FieldError>
  {
    if weights.Some? && |weights.value| != Size then [WeightsLength(|weights.value|)] else []
  }

  /**
   * Checks a calculate request: it is accepted exactly when it has 16 inputs,
   * each 1 or -1, and weights, when given, are 16 values; an omitted bias is
   * 0.0. A refused body gets every field error it has, and only true ones.
   */
  function CheckCalculate(body: CalculateBody): (r: Result<PerceptronInput, seq<FieldError>>)
    ensures r.Success? <==>
      |body.inputs| == Size && (forall i :: 0 <= i < |body.inputs| ==> IsSwitch(body.inputs[i])) &&
      (body.weights.Some? ==> |body.weights.value| == Size)
    ensures r.Success? ==> r.value.inputs == body.inputs && r.value.weights == body.weights
    ensures r.Success? ==> r.value.bias == (if body.bias.Some? then body.bias.value else 0.0)
    ensures r.Failure? ==> r.error != [] && forall e :: e in r.error ==> Describes(e, body)
    ensures r.Failure? ==> forall e :: Describes(e, body) ==> e in r.error
  {
    var errors := InputsErrors(body.inputs) + WeightsErrors(body.weights);
    if errors != [] then Failure(errors)
    else Success(PerceptronInput(body.inputs, body.weights, if body.bias.Some? then body.bias.value else 0.0))
  }

  const WeightsUpdated: string := "Weights updated successfully"
  const BiasUpdated: string := "Bias updated successfully"
  const ResetDone: string := "Perceptron reset to default state"

  /** The service: the process-wide perceptron every handler reads and changes. */
  class Service {
    var perceptron: Perceptron

    ghost predicate Valid()
      reads this, perceptron
    {
      perceptron.Valid()
    }

    /** Process start: the global perceptron is a default one. */
    constructor ()
      ensures Valid() && fresh(perceptron)
      ensures perceptron.weights == ZeroWeights && perceptron.bias == 0.0
    {
      var created := Perceptron.Create(None, 0.0);
      perceptron := created.value;
    }

    /**
     * POST /api/calculate: a refused body changes nothing. Otherwise the
     * weights are replaced when the request gives them and kept when it does
     * not, the bias is always overwritten by the request's bias, and the
     * response carries the output computed from the new weights and bias,
     * those weights and that bias, and the request's inputs.
     */
    method Calculate(body: CalculateBody) returns (r: Result<PerceptronOutput, seq<FieldError>>)
      requires Valid()
      modifies perceptron
      ensures Valid()
      ensures r.Failure? <==> CheckCalculate(body).Failure?
      ensures r.Failure? ==> r.error == CheckCalculate(body).error
      ensures r.Failure? ==> perceptron.weights == old(perceptron.weights) && perceptron.bias == old(perceptron.bias)
      ensures r.Success? ==>
        perceptron.weights == (if body.weights.Some? then body.weights.value else old(perceptron.weights))
      ensures r.Success? ==> perceptron.bias == (if body.bias.Some? then body.bias.value else 0.0)
      ensures r.Success? ==> r.value == PerceptronOutput(
        Dot(body.inputs, perceptron.weights) + perceptron.bias, perceptron.weights, perceptron.bias, body.inputs)
    {
      var checked := CheckCalculate(body);
      if checked.Failure? {
        return Failure(checked.error);
      }
      var data := checked.value;
      if data.weights.Some? {
        var outcome := perceptron.SetWeights(data.weights.value);
        assert outcome.Pass?;  // the request check already demanded 16 weights
      }
      perceptron.SetBias(data.bias);
      var output := perceptron.CalculateOutput(data.inputs);
      assert output.Success?;  // and 16 inputs, so no ValueError reaches the 400 branch
      var weights := perceptron.GetWeights();
      r := Success(PerceptronOutput(output.value, weights[..], perceptron.GetBias(), data.inputs));
    }

    /** GET /api/state: the current weights and bias; changes nothing. */
    method GetState() returns (s: StateResponse)
      ensures s.weights == perceptron.weights && s.bias == perceptron.bias
    {
      var weights := perceptron.GetWeights();
      s := StateResponse(weights[..], perceptron.GetBias());
    }

    /** POST /api/weights: 16 weights replace the stored ones and the bias stays; any other count is refused and changes nothing. */
    method UpdateWeights(body: WeightsUpdate) returns (r: Result<WeightsResponse, seq<FieldError>>)
      requires Valid()
      modifies perceptron
      ensures Valid() && perceptron.bias == old(perceptron.bias)
      ensures r.Failure? <==> |body.weights| != Size
      ensures r.Failure? ==> r.error == [WeightsLength(|body.weights|)] && perceptron.weights == old(perceptron.weights)
      ensures r.Success? ==> perceptron.weights == body.weights
      ensures r.Success? ==> r.value == WeightsResponse(WeightsUpdated, body.weights)
    {
      if |body.weights| != Size {
        return Failure([WeightsLength(|body.weights|)]);
      }
      var outcome := perceptron.SetWeights(body.weights);
      assert outcome.Pass?;
      var weights := perceptron.GetWeights();
      r := Success(WeightsResponse(WeightsUpdated, weights[..]));
    }

    /** POST /api/bias: the bias is replaced and the weights stay. */
    method UpdateBias(body: BiasUpdate) returns (r: BiasResponse)
      requires Valid()
      modifies perceptron
      ensures Valid() && perceptron.bias == body.bias && perceptron.weights == old(perceptron.weights)
      ensures r == BiasResponse(BiasUpdated, body.bias)
    {
      perceptron.SetBias(body.bias);
      r := BiasResponse(BiasUpdated, perceptron.GetBias());
    }

    /** POST /api/reset: the global perceptron becomes a new default one, whatever it was. */
    method Reset() returns (r: ResetResponse)
      modifies this
      ensures Valid() && fresh(perceptron)
      ensures perceptron.weights == ZeroWeights && perceptron.bias == 0.0
      ensures r == ResetResponse(ResetDone, ZeroWeights, 0.0)
    {
      var created := Perceptron.Create(None, 0.0);
      perceptron := created.value;
      var weights := perceptron.GetWeights();
      r := ResetResponse(ResetDone, weights[..], perceptron.GetBias());
    }
  }

  /** A weights update followed by a state request reports the new weights and the old bias. */
  method UpdateWeightsThenGetState(service: Service, weights: seq<real>) returns (s: StateResponse)
    requires service.Valid() && |weights| == Size
    modifies service.perceptron
    ensures s == StateResponse(weights, old(service.perceptron.bias))
  {
    var r := service.UpdateWeights(WeightsUpdate(weights));
    s := service.GetState();
  }

  /** A bias update followed by a state request reports the new bias and the old weights. */
  method UpdateBiasThenGetState(service: Service, bias: real) returns (s: StateResponse)
    requires service.Valid()
    modifies service.perceptron
    ensures s == StateResponse(old(service.perceptron.weights), bias)
  {
    var r := service.UpdateBias(BiasUpdate(bias));
    s := service.GetState();
  }

  /** A reset followed by a state request reports 16 zero weights and a zero bias, whatever came before. */
  method ResetThenGetState(service: Service) returns (s: StateResponse)
    modifies service
    ensures s == StateResponse(ZeroWeights, 0.0)
  {
    var r := service.Reset();
    s := service.GetState();
  }

  /** A calculate request that omits the bias sets the stored bias to 0.0: calculating is not free of side effects. */
  method CalculateClearsBias(service: Service, inputs: seq<int>) returns (s: StateResponse)
    requires service.Valid() && |inputs| == Size && AllSwitches(inputs)
    modifies service.perceptron
    ensures s == StateResponse(old(service.perceptron.weights), 0.0)
  {
    var r := service.Calculate(CalculateBody(inputs, None, None));
    s := service.GetState();
  }

  /** A default service outputs 0.0 for every valid calculate request that gives neither weights nor bias. */
  method FreshCalculate(inputs: seq<int>) returns (output: real)
    requires |inputs| == Size && AllSwitches(inputs)
    ensures output == 0.0
  {
    var service := new Service();
    var r := service.Calculate(CalculateBody(inputs, None, None));
    DotZeroWeights(inputs, ZeroWeights);
    output := r.value.output;
  }
}
