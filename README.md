# Layer arithmetic of the Inteligenics neural network library

This project models the training protocol of the layers in
`NeuralNetworks/NeuralNetworks.cs`. Every layer carries out the same four
steps:

- **ForwardSignal** computes the response to the received signal.
- **FeedBackError** propagates the received error and accumulates the gradient.
- **UpdateGain(gain)** previews the response after a step of the given gain, without committing it.
- **UpdateWeight(gain, momentum)** commits the step and decays the accumulated gradient.

Three layer kinds are modelled:

- `NeuralLayer`: a per-unit bias layer with six length-I buffers.
- `SigmoidNeuralLayer`: a bias layer whose response is the symmetric sigmoid
  2 / (1 + exp(-2u)) - 1. Its error takes the derivative of the sigmoid,
  computed from the cached response.
- `SynapticLayer`: a dense J×I weight layer.
  - Its forward pass is the matrix-vector product.
  - Its backward pass is the transposed product plus an outer-product
    gradient accumulation.
  - Its four buffers start out unset and are wired by the caller.

The model is imperative, like the source. Each layer is a class whose array
buffers are fields that the methods update in place:

- `array<real>` for the bias layers;
- `array?<real>` for the weight layer's buffers, which start out null;
- `array2<real>` for its weights.

Each method is proved against functions over sequences. These
live in module `Linear`:

- `Dot`, the running sum of products, accumulated from index 0 up as the loops do;
- `MatVec` and `TransposeVec`;
- `Outer`;
- `Step`, `MatStep`, `Scale` and `MatScale`.

The lemmas about them state what the protocol is for:

- The backward product is the adjoint of the forward product.
- A zero-gain preview equals the forward pass.
- Momentum 0 clears the accumulator.
- One committed step shrinks a student layer's residual against a teacher
  layer by the factor 1 - gain (bias layer) or 1 - gain·‖x‖² (weight layer).

Module `Scenarios` drives fresh layers through sequences of calls.
`SynapticForwardExample`, `SynapticTeacherStep` and `BiasTeacherStep` follow
tests of `XUnitTests/UnitTest1.cs` (:33-53, :56-126, :240-265) and share
buffers where those tests share them. The other six, `ForwardTwice`,
`ZeroGainPreview`, `PreviewMatchesCommit`, `SigmoidBackwardIsSlope`,
`SynapticZeroGainPreview` and `DiagonalPreviewDiffers`, state single-call
properties of the layers that no test exercises.

Modelling choices:

- Numbers are `real`, so there is no float rounding.
- `Math.Exp` is a parameter `exp: real -> real` and is assumed positive.
- Sizes are `nat`.
- `SigmoidNeuralLayer` derives from `NeuralLayer` in the source. Here it holds
  its base layer as `Base`. Its three overrides act on `Base`'s buffers, and
  `UpdateWeight` is the base layer's own.

`SynapticLayer.UpdateGain` reads the diagonal entries `Weights[i, i]` and
`DeltaWeights[i, i]` (NeuralNetworks/NeuralNetworks.cs:199), where
`ForwardSignal` reads row j's `Weights[j, i]` (:162). The model follows the
source, so every output j receives the same sum. `Scenarios.DiagonalPreviewDiffers` exhibits a layer
whose zero-gain preview differs from its forward pass.

## Model

| member | source | states |
|---|---|---|
| NeuralNetworks.NeuralLayer.constructor | NeuralNetworks/NeuralNetworks.cs:73-88 | size I; Bias, DeltaBias and the four buffers are distinct fresh arrays of length I, all zero |
| NeuralNetworks.NeuralLayer.ForwardSignal | NeuralNetworks/NeuralNetworks.cs:92-98 | SignalRespond = old SignalReceive + Bias elementwise; Bias and DeltaBias unchanged |
| NeuralNetworks.NeuralLayer.FeedBackError | NeuralNetworks/NeuralNetworks.cs:100-107 | ErrorRespond = old ErrorReceive; DeltaBias = old DeltaBias + ErrorReceive (accumulates, does not overwrite); Bias unchanged |
| NeuralNetworks.NeuralLayer.UpdateGain | NeuralNetworks/NeuralNetworks.cs:109-115 | SignalRespond = SignalReceive + (Bias + gain·DeltaBias); Bias and DeltaBias unchanged |
| NeuralNetworks.NeuralLayer.UpdateWeight | NeuralNetworks/NeuralNetworks.cs:117-125 | Bias = old Bias + gain·old DeltaBias; DeltaBias = momentum·old DeltaBias; momentum 0 clears DeltaBias |
| NeuralNetworks.SymmetricSigmoid | NeuralNetworks/NeuralNetworks.cs:36 | 2 / (1 + e) - 1 for e = exp(-2u) > 0 lies strictly between -1 and 1 |
| NeuralNetworks.Squash | NeuralNetworks/NeuralNetworks.cs:36 | the transform applied to a net input u through the exponential parameter lies strictly between -1 and 1 |
| NeuralNetworks.SigmoidSlopeFromOutput | NeuralNetworks/NeuralNetworks.cs:46 | 1 - s² computed from the cached response s equals the derivative 4e / (1 + e)² of the transform, so the backward pass uses the true slope |
| NeuralNetworks.SigmoidNeuralLayer.constructor | NeuralNetworks/NeuralNetworks.cs:27-30 | the base layer of size I with zeroed distinct buffers |
| NeuralNetworks.SigmoidNeuralLayer.ForwardSignal | NeuralNetworks/NeuralNetworks.cs:32-38 | SignalRespond[k] is the transform of old SignalReceive[k] + Bias[k]; every response in (-1, 1); Bias and DeltaBias unchanged |
| NeuralNetworks.SigmoidNeuralLayer.FeedBackError | NeuralNetworks/NeuralNetworks.cs:42-50 | ErrorRespond[k] = ErrorReceive[k]·(1 - SignalRespond[k]²); DeltaBias accumulates the new ErrorRespond; Bias unchanged |
| NeuralNetworks.SigmoidNeuralLayer.UpdateGain | NeuralNetworks/NeuralNetworks.cs:52-58 | SignalRespond[k] is the transform of SignalReceive[k] + (Bias[k] + gain·DeltaBias[k]); responses in (-1, 1); Bias and DeltaBias unchanged |
| NeuralNetworks.SynapticLayer.constructor | NeuralNetworks/NeuralNetworks.cs:141-150 | sizes I and J; fresh distinct zero J×I Weights and DeltaWeights; the four buffers null |
| NeuralNetworks.SynapticLayer.ForwardSignal | NeuralNetworks/NeuralNetworks.cs:154-167 | SignalRespond[j] = Σ_i SignalReceive[i]·Weights[j, i] for every j, overwriting the old contents; input unchanged, weights untouched |
| NeuralNetworks.SynapticLayer.FeedBackError | NeuralNetworks/NeuralNetworks.cs:171-187 | ErrorRespond = transposed product Σ_j ErrorReceive[j]·Weights[j, i], whatever it held before; DeltaWeights = old DeltaWeights + outer product SignalReceive[i]·ErrorReceive[j]; inputs unchanged |
| NeuralNetworks.SynapticLayer.BackwardRow | NeuralNetworks/NeuralNetworks.cs:180-185 | one pass of the inner loop for row j: ErrorRespond gains ErrorReceive[j]·(row j); only row j of DeltaWeights changes, by the outer-product row |
| NeuralNetworks.SynapticLayer.UpdateGain | NeuralNetworks/NeuralNetworks.cs:191-204 | as written: every SignalRespond[j] = Σ_i SignalReceive[i]·(Weights[i, i] + gain·DeltaWeights[i, i]), defined when I <= J or J = 0 (no output, nothing read); input unchanged |
| NeuralNetworks.SynapticLayer.DiagonalEntries | NeuralNetworks/NeuralNetworks.cs:199 | entry i of the gain-shifted diagonal Step(diag W, gain, diag D) is Weights[i, i] + gain·DeltaWeights[i, i], the term the loop reads |
| NeuralNetworks.SynapticLayer.DiagonalSum | NeuralNetworks/NeuralNetworks.cs:195-200 | the running sum of the inner loop equals the dot product of the input with the gain-shifted diagonal |
| NeuralNetworks.SynapticLayer.UpdateWeight | NeuralNetworks/NeuralNetworks.cs:206-217 | Weights = old Weights + gain·old DeltaWeights entrywise; DeltaWeights = momentum·old DeltaWeights; momentum 0 clears it |
| Linear.DotSnoc | NeuralNetworks/NeuralNetworks.cs:158-165 | each iteration of a summing loop adds exactly the next product to the running sum |
| Linear.Adjoint | NeuralNetworks/NeuralNetworks.cs:178-186 | e·(W x) = (Wᵀ e)·x: the error FeedBackError sends back is the adjoint of ForwardSignal's product |
| Linear.OuterResponse | NeuralNetworks/NeuralNetworks.cs:182 | the accumulated outer-product gradient e xᵀ responds to the input x with ‖x‖²·e |
| Linear.MatVecStep | NeuralNetworks/NeuralNetworks.cs:212 | the response of committed weights W + gain·D is the old response plus gain times D's response |
| Linear.CommitResponse | NeuralNetworks/NeuralNetworks.cs:206-217 | committing the gradient e xᵀ moves the response to x by gain·‖x‖²·e |
| Linear.StepResidual | NeuralNetworks/NeuralNetworks.cs:121 | if the response moves by gain·c·e toward a target whose residual was e, the new residual is (1 - gain·c)·e |
| Linear.CommitScalesResidual | NeuralNetworks/NeuralNetworks.cs:206-217 | one committed step of a weight layer from an empty accumulator, with residual e as error, leaves residual (1 - gain·‖x‖²)·e |
| Linear.BiasCommitScalesResidual | NeuralNetworks/NeuralNetworks.cs:117-125 | one committed step of a bias layer with residual e as gradient leaves residual (1 - gain)·e |
| Linear.StepZeroGain | NeuralNetworks/NeuralNetworks.cs:113 | a step of gain 0 leaves the parameters as they are |
| Linear.AddZeros | NeuralNetworks/NeuralNetworks.cs:104 | accumulating into a cleared accumulator stores the error itself |
| Linear.MatAddZero | NeuralNetworks/NeuralNetworks.cs:182 | accumulating into a cleared matrix accumulator stores the gradient itself |
| Linear.MatScaleZero | NeuralNetworks/NeuralNetworks.cs:214 | momentum 0 clears the matrix accumulator |
| Scenarios.SynapticForwardExample | XUnitTests/UnitTest1.cs:33-53 | with rows {1,2,3}, three zero rows and {6,5,4} on input {1,2,3}, the forward pass gives 14, 0, 0, 0, 28 over a buffer of ones |
| Scenarios.ExampleRows | XUnitTests/UnitTest1.cs:48-52 | the three row products of that example are 14, 0 and 28 |
| Scenarios.ForwardTwice | NeuralNetworks/NeuralNetworks.cs:92-98 | a second ForwardSignal with unchanged inputs gives the same response x + b |
| Scenarios.ZeroGainPreview | NeuralNetworks/NeuralNetworks.cs:109-115 | on a bias layer UpdateGain(0) gives the same response as ForwardSignal |
| Scenarios.PreviewMatchesCommit | NeuralNetworks/NeuralNetworks.cs:109-125 | the bias layer's UpdateGain(gain) preview equals the forward response after UpdateWeight(gain, momentum) |
| Scenarios.SigmoidBackwardIsSlope | NeuralNetworks/NeuralNetworks.cs:32-50 | after ForwardSignal, the sigmoid layer's FeedBackError scales each error by the derivative of the transform at the net input |
| Scenarios.BiasTeacherStep | XUnitTests/UnitTest1.cs:240-265 | a student bias layer sharing the teacher's input, fed teacher minus student as error, reduces that residual to (1 - gain) times itself in one FeedBackError/UpdateWeight round |
| Scenarios.SynapticTeacherStep | XUnitTests/UnitTest1.cs:56-126 | the same round on weight layers sharing one input reduces the residual to (1 - gain·‖x‖²) times itself |
| Scenarios.SynapticZeroGainPreview | NeuralNetworks/NeuralNetworks.cs:191-204 | on a fresh weight layer UpdateGain(0) gives every output the diagonal sum, while ForwardSignal gives W x |
| Scenarios.DiagonalPreviewDiffers | NeuralNetworks/NeuralNetworks.cs:199 | with rows {0}, {1} and input {1}, the diagonal preview is 0 where the forward pass is 1 |

## Left out

- Float rounding: numbers are `real`, so overflow to infinity and rounding of `float` are not modelled. The strict bound -1 < s < 1 proved for the sigmoid holds only over the reals: in `float`, 2 / (1 + exp(-2u)) - 1 rounds to exactly ±1 once |u| is about 9 or more, and the backward slope 1 - s² is then 0.
- `Math.Exp` (NeuralNetworks/NeuralNetworks.cs:36, 56) is the parameter `exp`, assumed positive. Its values and the `(float)` cast are not modelled.
- `NeuralNetwork` (NeuralNetworks/NeuralNetworks.cs:17-23) is an empty subclass of `SynapticLayer` that ignores its hidden-layer sizes. It adds nothing to model.
- The `ITrain` interface is not modelled as a type; each class declares the four methods itself.
- The convergence loops of the tests (XUnitTests/UnitTest1.cs:89-125, 250-264, 281-295) use `System.Random` and many iterations. The scenarios prove one iteration exactly instead of the approximate asymptotic equality the tests check.
- The end-to-end test `TestAll` (XUnitTests/UnitTest1.cs:128-209) is not modelled. It would need one scenario per wiring of five layers.
- That test writes the output error into `OutputLayer.ErrorRespond` (XUnitTests/UnitTest1.cs:191), which the next `OutputLayer.FeedBackError` overwrites with `ErrorReceive`. Its backward pass therefore carries zeros. This is a property of the test, not of the layers.
- Sizes are `nat`. A negative size raises an exception in the source's array allocation; the model has no such case.
- Buffer requirements go beyond what the source checks. The source raises an index or null exception when a buffer is too short or unset. The model requires every buffer a method touches to be non-null and of the exact length.
- NeuralNetworks.SynapticLayer.ForwardSignal: requires SignalRespond to be a different array from SignalReceive, so it does not model a layer that writes its own input as it reads it.
- NeuralNetworks.SynapticLayer.FeedBackError: requires ErrorRespond to differ from ErrorReceive and SignalReceive, so the zeroing pass never clears an input.
- NeuralNetworks.SynapticLayer.UpdateGain: requires SignalRespond to differ from SignalReceive, for the same reason as ForwardSignal.
- NeuralNetworks.NeuralLayer: its methods and those of SigmoidNeuralLayer allow any aliasing among the four buffers, since each index is read before it is written. They require Bias and DeltaBias to be distinct from each other and from the buffers.
- NeuralNetworks.SynapticLayer.UpdateGain: covers I <= J and J = 0. For I > J > 0 the source reads `Weights[J, J]`, a row outside the matrix, in its first outer pass and throws before writing any output; the model has no exception case.
- `I` and `J` are `const` fields. In the source they are public mutable `int` fields (NeuralNetworks/NeuralNetworks.cs:63, 130) that bound every loop; no caller reassigns them, and the model does not cover a size that disagrees with the arrays.
- NeuralNetworks.SynapticLayer.Valid: requires `Weights` and `DeltaWeights` to be different arrays, as the constructor allocates them. A caller that assigns one array to both fields (which the public fields allow) is not modelled.
- The inner loops of `SynapticLayer.FeedBackError` and `UpdateGain` are the separate methods `BackwardRow` and `DiagonalSum`, which the outer loops call. The order of reads and writes is the same.
