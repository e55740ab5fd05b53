# radonn: layers, propagation engine and optimizers in Dafny

This project models the core of radonn, a small feed-forward neural-network library written in Rust:

- the layer kinds and the activation functions of `src/radonn/nn/net.rs`;
- the inference, training, loss and step passes of `src/radonn/nn/optim.rs`;
- the three optimizers of `src/radonn/nn/optim.rs` (SGD, SGD with momentum, RMSProp).

Files:

- `vectors.dfy` (module `Vectors`): shared scalars, vectors and arithmetic facts.
- `net.dfy` (module `Net`): the layers.
  - One function per layer operation, over a `LayerState` value (the variant and its flat parameter buffer).
  - Methods carrying the engine's loops, each proved equal to its function.
  - A `Layer` class whose `connections` buffer `step` updates in place.
  - The closed `Kind` datatype (Dense, Bias, Activation, Softmax) stands for the `Box<dyn Layer>` dispatch.
- `optim.dfy` (module `Optim`): the engine and the optimizers.
  - `SeqNet` owns a sequence of `Layer` objects.
  - The passes are methods proved against specification functions over the layer states: `ForwardUpTo`/`Compose` for inference, `TraceUpTo`/`BackwardUpTo`/`TrainGradients` for training, `LossUpTo` for the loss.
  - The optimizers are classes whose accumulator fields `ReversedUpdate` and `GetStep` reassign.

The engine computes on `f32`, while the model computes on `real`. The engine calls `exp` and `sqrt`, which are not interpreted here. Each is passed in as a function value that is known only to be positive (`exp`) or non-negative (`sqrt`). Each place where the engine would panic (an index out of range, `chunks(0)`, an empty network) is a `None` of the specification function, and the method that performs that step requires `Some`.

Proved properties:

- **Dense gradient layout.** Dense `calc_err` writes the gradient of weight (i, o) at output-major position `o*in + i` (`DenseGradAt`). The weight buffer, and therefore `step`, is input-major: weight (i, o) sits at `i*out + o` (`StorageGradAt`). `CalcErrMatchesStorageIff` proves that the emitted gradient equals the gradient in storage order for every error and input vector exactly when `in_num == 1` or `out_num == 1`. In any other shape, `step` subtracts gradients from the wrong weights. Dense `feed_forward` reads the weights as `in_num` chunks of `out_num`, so weight (i, o) is stored input-major (`src/radonn/nn/net.rs:75-78`, `89-95`). Dense `step` subtracts the step vector from the buffer position by position (`src/radonn/nn/net.rs:109-113`). Only a gradient in input-major order therefore lines up with the weights it should update. The code writes it output-major, and the model follows the code: the engine's training pass uses `calc_err` as written.
- **Dense feed-forward.** It equals the column sums `out[o] = Σ_i x[i]·W[i·out+o]`, skipping weights a short last chunk lacks. It is linear in its input.
- **ReLU and Sigmoid.**
  - The ReLU output is the maximum of its input and zero.
  - The ReLU derivative is 1 exactly for positive inputs and 0 otherwise.
  - The Sigmoid output times `1 + exp(-v)` is 1, and the output lies in (0, 1).
  - The Sigmoid derivative is `s·(1-s)`, and it lies in (0, 1/4].
  - `d_activate` agrees with `activate`.
- **Softmax.**
  - The running maximum is a maximum and is attained.
  - The exponential sum is positive.
  - Every output is positive.
  - The output does not change when a constant is added to every input.
- **Propagation order.**
  - Inference is the left-to-right composition of the layers, and it composes over concatenated networks.
  - The training pass records, for each layer, the input it received and its derivative cache.
  - The forward half of training reaches the same output as inference.
  - `errors[j]` is the gradient of layer `n-1-j`.
  - `reversed_update` therefore hands accumulator `i` the gradient of layer `i` itself (`AccumulatorMeetsItsLayer`).
- **Accumulation.** Two `reversed_update` calls equal one call with the summed gradients: the accumulator sums and does not average.
- **Optimizer state.**
  - Each `get_step` drains the transient accumulator to zeros of the same shape.
  - Momentum and the second moment persist and are updated as `acc·a + g·b`.
  - RMSProp steps are `c0/(sqrt(c1)+1e-8)·lr`.
  - `step` subtracts each layer's own step vector, keeps every `param_num`, and so keeps the optimizer shaped after the network.
- **Loss.** The loss is the running sum of squared errors over the examples, and it is never negative. One example's squared error is zero exactly when the output matches the expected values it is compared with. An example whose output is empty reads no expected vector at all.

## Model

| member | source | states |
|---|---|---|
| Net.Unzip | src/radonn/nn/net.rs:288-289 | `unzip` of a sequence of pairs yields two sequences of its length holding the first and second components |
| Net.DActivateAgrees | src/radonn/nn/net.rs:276-280 | `d_activate`'s first output is `activate` of the same input, and its derivative cache has one entry per input |
| Net.ReluSemantics | src/radonn/nn/net.rs:283-290 | ReLU output is max(v, 0); its derivative is 1 iff v > 0 and 0 iff v <= 0 |
| Net.SigmoidSemantics | src/radonn/nn/net.rs:293-307 | Sigmoid output s satisfies s·(1 + exp(-v)) = 1; `sigmoid_w_derivation` returns s and s·(1 - s) |
| Net.LayoutsAgreeIff | src/radonn/nn/net.rs:75-77 | input-major index i·out+o equals output-major index o·in+i for all i, o iff in = 1 or out = 1 |
| Net.DenseForward | src/radonn/nn/net.rs:73-81 | Dense `feed_forward` yields `out_num` outputs |
| Net.ColumnSumStable | src/radonn/nn/net.rs:75 | once the chunks run out, the zip ignores further inputs |
| Net.ShortChunkAddsNothing | src/radonn/nn/net.rs:76 | a weight past the end of a short last chunk contributes nothing |
| Net.ColumnSumLinear | src/radonn/nn/net.rs:75-78 | each column sum of a·x + y is a times the column sum of x plus the column sum of y |
| Net.DenseForwardLinear | src/radonn/nn/net.rs:73-81 | Dense `feed_forward(a·x + y)` = a·`feed_forward(x)` + `feed_forward(y)` |
| Net.DenseFeedForward | src/radonn/nn/net.rs:73-81 | the chunk/zip loops compute out[o] = Σ_i x[i]·W[i·out+o] over the weights that exist |
| Net.DenseBackward | src/radonn/nn/net.rs:87-97 | Dense `back_propagate` yields one error per chunk, i.e. per input neuron |
| Net.DenseBackPropagate | src/radonn/nn/net.rs:87-97 | the loops compute err[i] = Σ_o W[i·out+o]·e[o] over min(out, \|e\|) outputs, defined when chunks are full and e is non-empty |
| Net.DenseGrad | src/radonn/nn/net.rs:99-107 | `calc_err` yields \|prev_err\|·\|input\| entries |
| Net.DenseGradAt | src/radonn/nn/net.rs:101-104 | `calc_err` places e[o]·x[i] at the output-major index o·in+i |
| Net.StorageGradAt | src/radonn/nn/net.rs:110-111 | the storage-order gradient places e[o]·x[i] at the input-major index i·out+o that `step` subtracts from weight (i, o) |
| Net.CalcErrMatchesStorageIff | src/radonn/nn/net.rs:99-113 | `calc_err`'s gradient equals the storage-order gradient for all errors and inputs iff in_num = 1 or out_num = 1 |
| Net.DenseCalcErr | src/radonn/nn/net.rs:99-107 | the nested push loops build exactly the output-major gradient |
| Net.BiasFeedForward | src/radonn/nn/net.rs:121-128 | Bias output has one entry per input, out[i] = input[i] + b[i] |
| Net.ActivationBackPropagate | src/radonn/nn/net.rs:163-169 | delta[i] = out_err[i]·cache[i], one entry per error |
| Net.MaxUpToIsMaximum | src/radonn/nn/net.rs:217-222 | the running maximum bounds every scanned entry and is one of the inputs |
| Net.ExpSumPositive | src/radonn/nn/net.rs:224-229 | the sum of exponentials of a non-empty input is positive, so the division is defined |
| Net.SoftmaxForward | src/radonn/nn/net.rs:216-234 | Softmax yields one output per input |
| Net.SoftmaxPositive | src/radonn/nn/net.rs:216-234 | every Softmax output is positive |
| Net.MaxUpToShift | src/radonn/nn/net.rs:217-222 | shifting every input by c shifts the running maximum by c |
| Net.ExpSumShift | src/radonn/nn/net.rs:225-229 | shifting inputs and maximum together leaves the exponential sum unchanged |
| Net.SoftmaxShiftInvariant | src/radonn/nn/net.rs:216-234 | Softmax of x + c equals Softmax of x |
| Net.SoftmaxFeedForward | src/radonn/nn/net.rs:216-234 | the max, exp-and-sum and in-place division loops compute the Softmax specification |
| Net.OutputWithCacheAgrees | src/radonn/nn/net.rs:83-85 | `d_feed_forward` is defined iff `feed_forward` is, returns the same output, and carries a cache only for Activation |
| Net.PassThroughs | src/radonn/nn/net.rs:134-140 | Bias and Softmax pass errors back unchanged; Bias's gradient is the error; Activation and Softmax have no parameters and ignore `step` |
| Net.ParamGradFitsParamCount | src/radonn/nn/net.rs:69-71 | for a well-shaped Dense or Bias layer, `calc_err` yields exactly `param_num` entries |
| Net.AfterStepShape | src/radonn/nn/net.rs:109-113 | `step` keeps the kind and buffer length, subtracts over the zipped prefix and leaves the rest unchanged |
| Net.SigmoidOf | src/radonn/nn/net.rs:294-296 | the Sigmoid value 1/(1 + exp(-v)) lies strictly between 0 and 1 |
| Net.SigmoidWDerivation | src/radonn/nn/net.rs:304-307 | `sigmoid_w_derivation` returns the Sigmoid value and a slope in (0, 1/4] |
| Net.ActivatePoint | src/radonn/nn/net.rs:283-296 | ReLU yields max(v, 0): at least 0 and v, and equal to one of them; Sigmoid yields a value in (0, 1) |
| Net.DActivatePoint | src/radonn/nn/net.rs:287-307 | the value part equals `activate`; the ReLU slope is 1 iff v > 0 and 0 iff v <= 0; the Sigmoid slope lies in (0, 1/4] |
| Net.Activate | src/radonn/nn/net.rs:283-296 | one output per input; ReLU outputs are non-negative, Sigmoid outputs lie in (0, 1) |
| Net.DActivate | src/radonn/nn/net.rs:287-301 | both halves have one entry per input; ReLU slopes are 0 or 1, Sigmoid slopes lie in (0, 1/4] |
| Net.SigmoidPoint | src/radonn/nn/net.rs:298-307 | at one point, the Sigmoid value s satisfies s·(1 + exp(-v)) = 1 and its slope is s·(1 - s) |
| Net.ColumnSumOfZeros | src/radonn/nn/net.rs:75-78 | a zero input gives a zero Dense output entry |
| Net.RowSumOfZeros | src/radonn/nn/net.rs:89-93 | a zero output error gives a zero back-propagated entry |
| Net.ThinLayoutsAgree | src/radonn/nn/net.rs:99-113 | with a single input or a single output, `calc_err`'s gradient equals the storage-order gradient |
| Net.WideLayoutsDiffer | src/radonn/nn/net.rs:99-113 | with two or more inputs and outputs, error (1, 0, …) and input (0, 1, …) give a `calc_err` gradient that differs from the storage-order one |
| Net.BiasForward | src/radonn/nn/net.rs:121-128 | one output per input, and each output minus its bias is the input |
| Net.ChainRule | src/radonn/nn/net.rs:163-169 | one delta per error; a zero derivative gives a zero delta |
| Net.Stepped | src/radonn/nn/net.rs:109-113 | the buffer keeps its length; over the zipped prefix new weight plus step is the old weight; past it nothing changes |
| Net.MaxUpTo | src/radonn/nn/net.rs:217-222 | the running maximum is at least `input[0]` and every scanned entry |
| Net.ExpSum | src/radonn/nn/net.rs:223-229 | the running sum of exponentials is never negative |
| Net.RunningMax | src/radonn/nn/net.rs:217-222 | the max loop computes the running maximum |
| Net.ShiftedExps | src/radonn/nn/net.rs:223-229 | the exp loop pushes exp(input[k] - max) for every k and sums them |
| Net.ParamCount | src/radonn/nn/net.rs:69-71 | `param_num` is the buffer length for Dense and Bias (also 117-119) and 0 for Activation and Softmax (150-152, 212-214); it is 0 exactly for those two kinds or an empty buffer |
| Net.Output | src/radonn/nn/net.rs:73-234 | `feed_forward` fails exactly for Dense with `out_num` = 0 (`chunks(0)`), Bias with more inputs than biases, and Softmax on an empty input; Dense yields `out_num` outputs, the others one per input |
| Net.OutputWithCache | src/radonn/nn/net.rs:83-85 | `d_feed_forward` is defined iff `feed_forward` is; the cache has one entry per input for Activation and is empty otherwise |
| Net.InputError | src/radonn/nn/net.rs:87-97 | `back_propagate` fails exactly for Dense with `out_num` = 0, a buffer length that is not a multiple of `out_num`, or an empty error with a non-empty buffer, and for Activation with a cache shorter than the error; Dense yields one entry per chunk, the others one per error |
| Net.ParamGrad | src/radonn/nn/net.rs:99-107 | `calc_err` yields \|e\|·\|x\| entries for Dense, the error itself for Bias (138-140), and nothing for Activation and Softmax |
| Net.AfterStep | src/radonn/nn/net.rs:109-113 | `step` keeps the kind and the buffer length; Activation and Softmax are unchanged (175, 248) |
| Net.Layer.FeedForward | src/radonn/nn/net.rs:9 | a layer object's `feed_forward` is its variant's specification |
| Net.Layer.DFeedForward | src/radonn/nn/net.rs:10 | a layer object's `d_feed_forward` is its variant's specification |
| Net.Layer.BackPropagate | src/radonn/nn/net.rs:11 | a layer object's `back_propagate` is its variant's specification |
| Net.Layer.CalcErr | src/radonn/nn/net.rs:12 | a layer object's `calc_err` is its variant's specification |
| Net.Layer.Step | src/radonn/nn/net.rs:142-146 | `step` updates the buffer in place to the stepped state |
| Optim.ForwardUpToPrefix | src/radonn/nn/optim.rs:5-11 | a forward pass through k layers passed through every shorter prefix |
| Optim.ForwardUpToExtend | src/radonn/nn/optim.rs:7-9 | appending layers does not change what the earlier layers compute |
| Optim.ForwardUpToAppend | src/radonn/nn/optim.rs:5-11 | inference over a concatenation is inference over the second network applied to the first's output |
| Optim.FeedForward | src/radonn/nn/optim.rs:5-11 | `feed_forward` is the left-to-right composition of the layers |
| Optim.TraceUpTo | src/radonn/nn/optim.rs:14-24 | after k layers the trace has recorded k inputs and k caches |
| Optim.TraceUpToPrefix | src/radonn/nn/optim.rs:20-24 | a shorter trace is a prefix of a longer one |
| Optim.TraceShape | src/radonn/nn/optim.rs:14-24 | ins[0] is the input; ins[i] is layer i-1's output on ins[i-1]; caches[i] is layer i's cache; the output is the last layer's |
| Optim.TraceAgreesWithForward | src/radonn/nn/optim.rs:14-24 | the forward half of training is defined iff inference is, and ends at the same output |
| Optim.OutputError | src/radonn/nn/optim.rs:26-29 | the output error is defined iff the output is at least as long as expected, and holds out[i] - expected[i] |
| Optim.OutputErrorOf | src/radonn/nn/optim.rs:26-29 | the push loop computes the output error |
| Optim.BackwardUpTo | src/radonn/nn/optim.rs:31-37 | k backward steps collect k gradients |
| Optim.BackwardUpToPrefix | src/radonn/nn/optim.rs:33-37 | a backward walk that gets k steps far got through every shorter one |
| Optim.BackwardShape | src/radonn/nn/optim.rs:33-37 | errors[j] is `calc_err` of layer n-1-j on its recorded input and the error propagated through all later layers |
| Optim.TrainGradients | src/radonn/nn/optim.rs:13-38 | a training pass yields one gradient per layer |
| Optim.ForwardRecord | src/radonn/nn/optim.rs:14-24 | the forward loop records the specified trace |
| Optim.BackwardCollect | src/radonn/nn/optim.rs:31-37 | the backward loop collects the specified gradients |
| Optim.Gradients | src/radonn/nn/optim.rs:13-37 | `back_propagate` hands the optimizer exactly the specified gradients |
| Optim.SeqNet.States | src/radonn/nn/net.rs:3-5 | one state per layer object, each that layer's current state |
| Optim.Compose | src/radonn/nn/optim.rs:5-11 | inference over no layers fails; when it succeeds, every prefix of the network succeeded |
| Optim.TraceStepAgrees | src/radonn/nn/optim.rs:20-24 | one more training step agrees with one more inference step |
| Optim.SquaredError | src/radonn/nn/optim.rs:45-47 | one example's squared error is non-negative, and zero when the output matches the expected values |
| Optim.SquaredErrorZeroOnlyIfExact | src/radonn/nn/optim.rs:45-47 | a zero squared error means every output entry equals its expected value |
| Optim.LossUpTo | src/radonn/nn/optim.rs:41-50 | the loss over the first k examples is non-negative |
| Optim.EmptyOutputNeedsNoExpected | src/radonn/nn/optim.rs:43-47 | a network with an empty output is defined, with loss 0, even with no expected vectors |
| Optim.AddSquaredErrors | src/radonn/nn/optim.rs:45-47 | the inner loop adds one example's squared errors to the running total |
| Optim.Loss | src/radonn/nn/optim.rs:41-50 | `loss` is the sum over examples of squared output errors, and is non-negative; it needs `expected_outs[i]` only for examples whose output is non-empty |
| Optim.ZeroCaches | src/radonn/nn/optim.rs:88-91 | the constructors' accumulators are all zero, one per layer, each `param_num` long |
| Optim.NewCaches | src/radonn/nn/optim.rs:88-91 | the constructor loop builds those accumulators |
| Optim.AddScaled | src/radonn/nn/optim.rs:136-138 | the zip update keeps each accumulator row's length |
| Optim.Accumulated | src/radonn/nn/optim.rs:133-140 | `reversed_update` keeps the shape of the accumulators |
| Optim.ReversedAdd | src/radonn/nn/optim.rs:134-139 | the loops add errors[len-1-i]·scale into accumulator i over the zipped prefix |
| Optim.AddScaledTwice | src/radonn/nn/optim.rs:136-137 | adding two gradients in turn to a row equals adding their sum |
| Optim.AccumulateTwiceIsSum | src/radonn/nn/optim.rs:133-140 | two `reversed_update` calls equal one with the summed gradients (sum, not average) |
| Optim.AccumulatorMeetsItsLayer | src/radonn/nn/optim.rs:134-136 | with the training pass's gradients, accumulator i receives the gradient of layer i itself |
| Optim.Decayed | src/radonn/nn/optim.rs:162-166 | the momentum update keeps the momentum's shape |
| Optim.DecayInPlace | src/radonn/nn/optim.rs:162-166 | the loops compute mc·a + m·b over the zipped prefix |
| Optim.ZeroInPlace | src/radonn/nn/optim.rs:144-146 | every accumulator is replaced by zeros of its own length |
| Optim.Squares | src/radonn/nn/optim.rs:188 | squaring keeps the shape |
| Optim.RmsSteps | src/radonn/nn/optim.rs:191-198 | one step row per accumulator, as long as the shorter of c0 and c1 rows |
| Optim.RmsStepsOf | src/radonn/nn/optim.rs:191-198 | the push loops compute c0/(sqrt(c1) + 1e-8)·lr |
| Optim.SGD.constructor | src/radonn/nn/optim.rs:87-96 | the accumulator starts at zero, shaped after the network |
| Optim.SGD.ReversedUpdate | src/radonn/nn/optim.rs:133-140 | the accumulator absorbs the reversed errors scaled by lr |
| Optim.SGD.GetStep | src/radonn/nn/optim.rs:142-148 | returns the accumulator and leaves zeros of the same shape |
| Optim.SgdDrainsOnce | src/radonn/nn/optim.rs:142-148 | a second `get_step` with nothing accumulated returns only zeros |
| Optim.SGDwMomentum.constructor | src/radonn/nn/optim.rs:100-112 | mom0 = mom, mom1 = 1 - mom; both accumulators start at zero with the same shape |
| Optim.SGDwMomentum.ReversedUpdate | src/radonn/nn/optim.rs:152-159 | the accumulator absorbs the reversed errors scaled by lr; the momentum is untouched |
| Optim.SGDwMomentum.GetStep | src/radonn/nn/optim.rs:161-172 | momentum := momentum·mom0 + accumulator·mom1 and is returned; the accumulator drains; shapes stay equal |
| Optim.RMSProp.constructor | src/radonn/nn/optim.rs:116-128 | beta0 = beta, beta1 = 1 - beta; both accumulators start at zero with the same shape |
| Optim.RMSProp.ReversedUpdate | src/radonn/nn/optim.rs:176-183 | cache0 absorbs the raw reversed errors (no lr); cache1 is untouched |
| Optim.RMSProp.GetStep | src/radonn/nn/optim.rs:185-203 | cache1 := cache1·beta0 + cache0²·beta1; returns cache0/(sqrt(cache1) + 1e-8)·lr shaped like cache0; cache0 drains |
| Optim.AllStepped | src/radonn/nn/optim.rs:52-57 | stepping keeps one state per layer |
| Optim.StepKeepsOptimizerShape | src/radonn/nn/optim.rs:52-57 | after `step` every `param_num` is unchanged, so the optimizer's accumulators still fit the network |
| Optim.ApplySteps | src/radonn/nn/optim.rs:54-56 | each layer takes its own step vector; layers are distinct objects so no other layer changes |
| Optim.BackPropagateSGD | src/radonn/nn/optim.rs:13-39 | `back_propagate` with SGD accumulates the training pass's gradients |
| Optim.BackPropagateMomentum | src/radonn/nn/optim.rs:13-39 | `back_propagate` with momentum accumulates the gradients and leaves the momentum |
| Optim.BackPropagateRMSProp | src/radonn/nn/optim.rs:13-39 | `back_propagate` with RMSProp accumulates the raw gradients and leaves the second moment |
| Optim.StepSGD | src/radonn/nn/optim.rs:52-57 | `step` with SGD subtracts the accumulated step from each layer and drains the accumulator |
| Optim.StepMomentum | src/radonn/nn/optim.rs:52-57 | `step` with momentum subtracts the updated momentum from each layer |
| Optim.StepRMSProp | src/radonn/nn/optim.rs:52-57 | `step` with RMSProp subtracts the RMS-scaled step from each layer |

## Left out

- Floating point: `f32` rounding, overflow, NaN and infinity are not modelled; arithmetic is on `real`.
- `exp` and `sqrt` are parameters known only to be positive and non-negative respectively; their values are not modelled, nor is `f32::sqrt` returning NaN for a negative argument.
- `rand_range`, `rand_range_xavier` and `rand_range_conv2d` draw random numbers; initial weights are taken as given.
- The commented-out `Conv2D` layer is not modelled.
- `src/main.rs`, the example program that builds a network and trains it, is not part of this model.
- `Box<dyn Layer>` and `Box<dyn Function>` dynamic dispatch is modelled as the closed datatypes `Kind` and `Function`.
- The generic `back_propagate<T: Optimizer>` and `step<T: Optimizer>` are modelled as one shared pass (`Gradients`, `ApplySteps`) plus one entry point per optimizer.
- The optimizers' in-place `Vec` updates are modelled as reassignment of `seq` fields, and the per-optimizer copies of the accumulate, decay and zeroing loops as shared methods (`ReversedAdd`, `DecayInPlace`, `ZeroInPlace`).
- Net.SoftmaxForward: the outputs are not proved to sum to 1, since that needs field division facts about the uninterpreted `exp` sums that add nothing about the code.
- Panics are modelled as preconditions (`requires ... .Some?`, `|errors| <= |cache|`) rather than as an error value returned to a caller, since the engine has no error path.
- Convergence or any learning guarantee is out of scope.
