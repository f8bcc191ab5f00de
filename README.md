# Perceptron: a verified model

This project models the computational core of a teaching perceptron: a machine
with 16 input switches (up = 1, down = -1), one weight knob per switch and a
bias knob, whose output is `Σ inputs[i] * weights[i] + bias`. Three Python files
make up that core:

- `perceptron.py`, a standalone script whose `Perceptron` is built once and then
  only read. It is modelled as a value (`Standalone.Perceptron`), and its
  demonstration run is kept as lemmas about the T pattern, all switches up and
  all switches down.
- `backend/perceptron.py`, the same class with setters and getters that change
  the weights and the bias in place. It is modelled as a class
  (`Backend.Perceptron`) whose invariant `Valid()` keeps exactly 16 weights.
- `backend/main.py`, the web service's handlers acting on one process-wide
  perceptron. They are modelled as a class (`Api.Service`) with one method per
  handler, after a function that checks request bodies the way the request
  models do.

Modules: `Wrappers` (Option, Result, Outcome), `Weighting` (the shared
arithmetic and the `ValueError`s), `Standalone`, `Backend`, `Api`.

Python floats become `real`, so the weighted sum is exact. `WeightedSum`
computes it left to right over `zip(inputs, weights)`, as Python's `sum` does.
`Dot` is the head-first mathematical sum. `WeightedSum` is proved equal to
`Dot`, and every contract is stated with `Dot`. Because `zip` stops at the
shorter list, `calculate_output` needs only 16 inputs and places no demand on
the weights. The model keeps that.

Two behaviours of the code are worth knowing, and the model follows the code.
First, the calculate handler is not free of side effects. Weights given in a
calculate request are stored, although its docstring says only that they are
used for this calculation. The stored bias is always overwritten, with 0.0 when
the request omits it (`Api.CalculateClearsBias`). Second, the handlers' 400
branch for `ValueError` cannot be reached. The request checks already demand
16 inputs and 16 weights, so `set_weights` and `calculate_output` cannot raise
there. `Api.Service.Calculate` and `Api.Service.UpdateWeights` assert this.

## Model

| member | source | states |
|---|---|---|
| `Weighting.Repeat` | backend/perceptron.py:31 | `[x] * n` has length n and every element is x |
| `Weighting.WeightedSum` | backend/perceptron.py:56 | summing the products of `zip(inputs, weights)` left to right gives the reference sum `Dot` |
| `Weighting.SumFirstIsDot` | perceptron.py:56 | accumulating the first n products in Python's order equals `Dot` over the first n pairs |
| `Weighting.DotOfZip` | perceptron.py:56 | the sum sees only the first min(len(inputs), len(weights)) pairs, as `zip` truncates |
| `Weighting.DotAppend` | backend/perceptron.py:56 | the weighted sum splits at any point, so the order of summation does not matter over reals |
| `Weighting.SumAppend` | perceptron.py:70-75 | the sum of a weight list splits at any point |
| `Weighting.DotAllUp` | perceptron.py:109 | with every input 1, the weighted sum is the sum of the weights |
| `Weighting.DotAllDown` | perceptron.py:120 | with every input -1, the weighted sum is minus the sum of the weights |
| `Weighting.DotZeroWeights` | backend/perceptron.py:30-31 | all-zero weights give a weighted sum of 0.0 for any inputs |
| `Standalone.Create` | perceptron.py:21-37 | construction fails with the weights `ValueError` exactly when given weights are not 16 values; otherwise 16 weights (all 0.0 when none are given, else the given ones) and the given bias |
| `Standalone.Perceptron.CalculateOutput` | perceptron.py:39-59 | fails with the input `ValueError` exactly when there are not 16 inputs; otherwise returns `Dot(inputs, weights) + bias` |
| `Standalone.AllUpOutput` | perceptron.py:108-117 | with all 16 switches up, the output is the sum of the weights plus the bias |
| `Standalone.AllDownOutput` | perceptron.py:119-128 | with all 16 switches down, the output is minus the sum of the weights plus the bias |
| `Standalone.DefaultOutput` | perceptron.py:30-58 | a perceptron built with no arguments outputs 0.0 for every 16-element input |
| `Standalone.SampleWeightsSum` | perceptron.py:70-75 | the demonstration weights are 16 values that add up to 7.6 |
| `Standalone.DemoTPattern` | perceptron.py:70-106 | the demonstration perceptron (sample weights, bias -2.0) reads 2.4 for the T pattern |
| `Standalone.DemoAllUp` | perceptron.py:109-117 | the demonstration perceptron reads 5.6 with every switch up |
| `Standalone.DemoAllDown` | perceptron.py:120-128 | the demonstration perceptron reads -9.6 with every switch down |
| `Backend.Perceptron.Init` | backend/perceptron.py:35-37 | stores checked weights and the bias, establishing the 16-weight invariant |
| `Backend.Perceptron.Create` | backend/perceptron.py:21-37 | a new valid perceptron with zero weights by default or the given 16 weights, and the given bias; the weights `ValueError` and no object when the given weights are not 16 values |
| `Backend.Perceptron.CalculateOutput` | backend/perceptron.py:39-59 | fails exactly when there are not 16 inputs; otherwise `Dot(inputs, weights) + bias`; the calculation is the one the standalone script defines, applied to this object's weights and bias |
| `Backend.Perceptron.SetWeights` | backend/perceptron.py:61-73 | 16 weights replace the stored ones; any other count raises and leaves the weights unchanged; the bias never changes and the 16-weight invariant is kept |
| `Backend.Perceptron.SetBias` | backend/perceptron.py:75-82 | the bias becomes the given value and the weights are unchanged |
| `Backend.Perceptron.GetWeights` | backend/perceptron.py:84-91 | returns a newly allocated list holding the current weights |
| `Backend.Perceptron.GetBias` | backend/perceptron.py:93-100 | returns the current bias |
| `Backend.SetWeightsThenGet` | backend/perceptron.py:71-91 | setting 16 weights and reading them back gives those weights, with the bias unchanged |
| `Backend.SetBiasThenGet` | backend/perceptron.py:82-100 | setting the bias and reading it back gives that bias, with the weights unchanged |
| `Backend.ChangeCopy` | backend/perceptron.py:91 | changing an element of the list `get_weights` returned leaves the perceptron's weights as they were |
| `Api.AllSwitches` | backend/main.py:44-49 | `validate_inputs` accepts exactly when every input is 1 or -1 |
| `Api.CheckCalculate` | backend/main.py:38-49 | a calculate body is accepted exactly when it has 16 inputs, each 1 or -1, and weights, when given, are 16 values; an omitted bias becomes 0.0; a refused body gets a non-empty list holding exactly the field errors that are true of it, so both the input and the weights errors when both fields are wrong |
| `Api.Service.constructor` | backend/main.py:29-30 | at start the global perceptron has 16 zero weights and bias 0.0 |
| `Api.Service.Calculate` | backend/main.py:95-121 | a refused body changes nothing; otherwise the weights are replaced if given and kept if not, the bias is always overwritten, and the response holds the output computed from the new state, the new weights and bias, and the request's inputs |
| `Api.Service.GetState` | backend/main.py:124-130 | reports the current weights and bias |
| `Api.Service.UpdateWeights` | backend/main.py:133-143 | 16 weights replace the stored ones and are echoed back; another count is refused with a length error and changes nothing; the bias is unchanged |
| `Api.Service.UpdateBias` | backend/main.py:146-153 | the bias is replaced and echoed back; the weights are unchanged |
| `Api.Service.Reset` | backend/main.py:156-165 | the global perceptron becomes a new one with 16 zero weights and bias 0.0, whatever the prior state |
| `Api.UpdateWeightsThenGetState` | backend/main.py:124-143 | a weights update followed by a state request reports the new weights and the old bias |
| `Api.UpdateBiasThenGetState` | backend/main.py:124-153 | a bias update followed by a state request reports the new bias and the old weights |
| `Api.ResetThenGetState` | backend/main.py:124-165 | a reset followed by a state request reports 16 zero weights and bias 0.0 |
| `Api.CalculateClearsBias` | backend/main.py:42-130 | a calculate request without weights or bias keeps the weights and sets the stored bias to 0.0 |
| `Api.FreshCalculate` | backend/main.py:29-119 | on a freshly started service, a valid calculate request without weights or bias outputs 0.0 |

## Left out

- IEEE-754 floats and `float()` coercion: weights, bias and output are exact reals. Rounding that depends on summation order is not modelled.
- The FastAPI layer: routing, CORS, static files, `serve_frontend`, `api_info` and the uvicorn start-up. These are I/O plumbing.
- Pydantic's JSON parsing and type coercion. This includes non-integer or non-numeric values, a missing required field and an explicit `null` for `weights`. Request bodies here always carry their required fields with the declared types.
- The wording of pydantic's error messages: a refused body is reported as a list of `FieldError`s.
- The mapping of `ValueError` to HTTP 400 in the calculate and weights handlers. The model proves that branch is unreachable after the request checks.
- Async handlers and concurrent requests on the shared global perceptron: the model runs one request at a time.
- The console printing of the standalone script's demonstration: only its numbers are kept, as lemmas.
- Caller lists are `seq` values. So the copies that `__init__` and `set_weights` make with `list(weights)` hold by construction: aliasing between a caller's list and the stored weights cannot be expressed. Only the copy that `get_weights` returns is a separate array.
- Assigning `weights` or `bias` directly as attributes, bypassing the checks, is not modelled. `Standalone.Perceptron.CalculateOutput` and `Backend.Perceptron.CalculateOutput` still accept any weight length, following `zip`.
