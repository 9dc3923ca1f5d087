# Feed-forward neural network with back-propagation, in Dafny

This project models the core of a small C# neural-network library: a
fully connected feed-forward network (a multi-layer perceptron) together with
its on-line back-propagation trainer with momentum.

- **Transfer functions** (`transfer_functions.dfy`, module `TransferFunctions`).
  The closed tag `None | Sigmoid | Linear | Gaussian | RationalSigmoid` is
  dispatched to an activation and to its derivative. `Math.Exp` and
  `Math.Sqrt` are uninterpreted constants. Their types record the only facts
  the proofs use: the exponential is positive, and the square root sends
  `[1, oo)` into `[1, oo)`.
- **The numbers** (`network_math.dfy`, module `NetworkMath`). Value-level
  definitions of:
  - the topology;
  - the trainable parameters (weights, biases and their momentum histories);
  - the forward pass (`Run`), the deltas (`Deltas`) and the momentum updates
    (`Updated`);
  - one whole training step (`TrainStep`);
  - the nudge (`Nudged`) and the initial parameters (`Initial`).

  The lemmas about the training step and the perturbation live here too.
- **The network** (`neural_network.dfy`, module `NeuralNetworks`).
  - The class `NeuralNetwork` holds the fixed topology as constants.
  - Its jagged per-layer collections are mutable fields: weights, biases,
    both momentum histories, the cached layer inputs and outputs, and the
    deltas.
  - The constructor, `Run`, `Nudge` and the getters are modelled on it.
  - Their loops are methods proved against the `NetworkMath` definitions.
- **The trainer** (`neural_trainer.dfy`, module `NeuralTrainers`).
  - The class `NeuralTrainer` holds the network and its topology.
  - `BackPropagationTrain` validates the example and runs the network. It then
    computes the deltas from the output layer down and the updated weights,
    biases and histories as values, and stores them into the network's
    fields once they are complete.
  - Every loop is a method whose `ensures` ties its result to a `NetworkMath`
    definition.

Doubles are modelled as `real`. Random draws come from an oracle
`z: Site -> real`, which gives one standard-normal draw per weight or bias
position. `GaussianSample(mean, stddev, z)` is `stddev * z + mean`, which is how
the polar Box-Muller routine scales its draw (Gaussian.cs:41). Thrown exceptions
are the `Failure` case of a `Result`.

## Model

| member | source | states |
|---|---|---|
| TransferFunctions.Evaluate | TransferFunction.cs:23-43 | dispatches each tag to its own activation: None gives 0, Linear gives x, Sigmoid a value in (0, 1), Gaussian a positive value, RationalSigmoid a value of the sign of x |
| TransferFunctions.EvaluateDerivative | TransferFunction.cs:44-64 | dispatches each tag to its own derivative: None gives 0, Linear 1, Sigmoid a value in (0, 1/4], RationalSigmoid a value in (0, 1/2], Gaussian a value that is zero only at x = 0 |
| TransferFunctions.LinearValue | TransferFunction.cs:76-79 | the linear activation keeps the sign of x and is zero only at 0 |
| TransferFunctions.LinearDerivative | TransferFunction.cs:80-83 | the linear derivative is positive and at most 1 |
| TransferFunctions.SigmoidValue | TransferFunction.cs:67-70 | the logistic value lies strictly between 0 and 1 |
| TransferFunctions.SigmoidDerivative | TransferFunction.cs:71-74 | the sigmoid derivative lies in (0, 1/4] |
| TransferFunctions.GaussianValue | TransferFunction.cs:85-88 | the Gaussian activation is positive everywhere |
| TransferFunctions.GaussianDerivative | TransferFunction.cs:89-92 | the Gaussian derivative is negative exactly for positive x and zero exactly at x = 0 |
| TransferFunctions.RationalSigmoidValue | TransferFunction.cs:94-97 | the rational sigmoid has the sign of x, is zero only at 0, and is at most half of x in size |
| TransferFunctions.RationalSigmoidDerivative | TransferFunction.cs:98-102 | with v = sqrt(1 + x^2) >= 1, the derivative 1/(v(1+v)) lies in (0, 1/2] |
| TransferFunctions.NoneIsZero | TransferFunction.cs:39-62 | the None tag evaluates to 0 and differentiates to 0 for every x |
| TransferFunctions.LinearIsIdentity | TransferFunction.cs:76-83 | the linear activation is the identity and its derivative is 1 |
| TransferFunctions.SigmoidDerivativeFromValue | TransferFunction.cs:71-74 | the sigmoid derivative is s(1 - s), with s the sigmoid at the same raw argument |
| TransferFunctions.GaussianDerivativeFromValue | TransferFunction.cs:89-92 | the Gaussian derivative is -2x times the Gaussian at the same argument |
| TransferFunctions.DerivativeZeroIff | TransferFunction.cs:44-63 | the dispatched derivative is zero if and only if the tag is None, or the tag is Gaussian at x = 0 |
| TransferFunctions.MonotoneDerivativeBounds | TransferFunction.cs:44-63 | for Sigmoid, Linear and RationalSigmoid the dispatched derivative lies in (0, 1] |
| NetworkMath.Run | NeuralNetwork.cs:111-124 | the forward pass yields one pre-activation and one post-activation vector per layer, each of the layer's width |
| NetworkMath.LayerPre | NeuralNetwork.cs:113-120 | a layer input has one entry per unit, and a layer with no sources sees only its biases |
| NetworkMath.PreActivation | NeuralNetwork.cs:113-120 | the cached input of layer l has the layer's width |
| NetworkMath.PostActivation | NeuralNetwork.cs:122 | the cached output of layer l has the layer's width, and is all zeros for a layer tagged None |
| NetworkMath.NoneLayerBlocksSignal | NeuralNetwork.cs:113-122 | a hidden layer tagged None outputs zeros, so the next layer's input is exactly its bias vector |
| NetworkMath.SquaredError | NeuralTrainer.cs:68-71 | the accumulated error is a sum of squares and never negative |
| NetworkMath.OutputError | NeuralTrainer.cs:68-71 | the error of the last layer's output against the target is never negative |
| NetworkMath.SquaredErrorZeroIff | NeuralTrainer.cs:68-71 | the error is zero if and only if the output equals the target |
| NetworkMath.OutputDelta | NeuralTrainer.cs:68-74 | one output delta per unit; a unit whose output meets its target, or whose derivative vanishes at its cached input, gets delta 0 |
| NetworkMath.HiddenDelta | NeuralTrainer.cs:78-88 | one hidden delta per unit; a unit whose derivative vanishes at its cached input gets delta 0 |
| NetworkMath.Delta | NeuralTrainer.cs:63-90 | the deltas of layer l have the layer's width and are all zero for a layer tagged None |
| NetworkMath.Deltas | NeuralTrainer.cs:63-90 | the backward pass gives one delta vector per layer, of the layer's width |
| NetworkMath.UpdatedWeights | NeuralTrainer.cs:93-101 | the updated weights of a layer keep its source-count by width shape |
| NetworkMath.WeightHistory | NeuralTrainer.cs:93-101 | the new weight history of a layer keeps the same shape |
| NetworkMath.UpdatedBias | NeuralTrainer.cs:107-108 | one new bias per unit; a unit with delta 0 and no momentum contribution keeps its bias |
| NetworkMath.BiasHistory | NeuralTrainer.cs:107-110 | one history entry per unit, zero exactly when the rate or the unit's delta is zero |
| NetworkMath.Updated | NeuralTrainer.cs:92-111 | the updates keep weights, biases and both histories in the topology's shape |
| NetworkMath.TrainStep | NeuralTrainer.cs:60-113 | a training step keeps every parameter in the topology's shape, gives caches and deltas of each layer's width, and reports an error of at least 0 |
| NetworkMath.TrainStepParts | NeuralTrainer.cs:60-113 | a training step is made of the forward pass, the deltas of that pass, the updates those deltas and the pass's sources drive, and the squared error of the pass's output |
| NetworkMath.SourcesAreCached | NeuralTrainer.cs:97 | the sources read off the caches (the input for layer 0, the cached output of layer l - 1 otherwise) are the forward pass's sources |
| NetworkMath.OutputDeltaOfExactOutput | NeuralTrainer.cs:68-74 | output deltas of an output equal to its target are all zero |
| NetworkMath.HiddenDeltaOfZeros | NeuralTrainer.cs:78-88 | hidden deltas pulled back from all-zero deltas are all zero |
| NetworkMath.DeltasVanishOnExactOutput | NeuralTrainer.cs:63-90 | when the cached output equals the target, the deltas of layer l are zero, by induction down from the output layer |
| NetworkMath.AllDeltasVanishOnExactOutput | NeuralTrainer.cs:63-90 | when the cached output equals the target, every delta of every layer is zero |
| NetworkMath.ZeroDeltaLayerMovesOnlyByMomentum | NeuralTrainer.cs:92-111 | with all-zero deltas every weight and bias moves only by momentum times its history and the bias history is cleared; with zero momentum nothing moves |
| NetworkMath.ZeroDeltasUpdate | NeuralTrainer.cs:92-111 | all-zero deltas clear every bias history, and with zero momentum leave every weight and bias unchanged |
| NetworkMath.ExactFitHasNoError | NeuralTrainer.cs:60-113 | training on an example the network already reproduces reports error 0 |
| NetworkMath.ExactFitHasNoDeltas | NeuralTrainer.cs:60-111 | training on an example the network already reproduces gives all-zero deltas and clears the bias history |
| NetworkMath.ExactFitWithoutMomentumStandsStill | NeuralTrainer.cs:60-111 | without momentum, training on an example the network already reproduces leaves every weight and bias unchanged |
| NetworkMath.MomentumZeroIsGradientDescent | NeuralTrainer.cs:97-108 | with momentum 0 a weight becomes w - rate·delta·source and a bias becomes b - rate·delta, and both histories record exactly these steps |
| NetworkMath.TrainStepWithoutMomentum | NeuralTrainer.cs:92-111 | with momentum 0 a whole training step moves every weight by rate·delta·source and every bias by rate·delta, for the deltas and sources of its own forward pass, and both histories record exactly these steps |
| NetworkMath.BiasHistoryOmitsMomentum | NeuralTrainer.cs:97-110 | the weight history equals the whole change applied to the weight, but the bias change exceeds its recorded history by momentum times the old bias history |
| NetworkMath.LinearOutputDeltaIsError | NeuralTrainer.cs:68-74 | with a linear output layer the output deltas are the raw errors output - desired |
| NetworkMath.GaussianSample | Gaussian.cs:41 | a zero standard deviation or a zero draw gives the mean itself |
| NetworkMath.Perturbed | NeuralNetwork.cs:321-323 | a zero parameter, a zero scalar or a zero draw leaves the parameter as it was |
| NetworkMath.ProportionalNoise | NeuralNetwork.cs:321-323 | adding noise of standard deviation x·scalar from draw z scales x by 1 + scalar·z |
| NetworkMath.NudgedWeights | NeuralNetwork.cs:319-325 | the nudged weights of a layer keep the layer's shape |
| NetworkMath.NudgedBias | NeuralNetwork.cs:328-331 | the nudged biases of a layer keep the layer's width |
| NetworkMath.NudgeIsProportional | NeuralNetwork.cs:314-333 | every nudged weight and bias is its old value times 1 + scalar·z for its own draw, so a zero parameter stays zero and a zero scalar changes nothing |
| NetworkMath.Nudged | NeuralNetwork.cs:311-334 | the nudged parameters keep the topology's shape |
| NetworkMath.InitialBiasDraws | NeuralNetwork.cs:67-69 | every initial bias is the standard-normal draw of its own unit |
| NetworkMath.InitialRowDraws | NeuralNetwork.cs:78-80 | every initial weight out of a source unit is the draw of its own connection |
| NetworkMath.InitialWeightRows | NeuralNetwork.cs:76-83 | row i of a layer's initial weights holds the draws of the connections out of source unit i |
| NetworkMath.InitialWeightDraws | NeuralNetwork.cs:54-83 | a layer's initial weights form a matrix of InWidth rows by width columns whose every entry is its own draw |
| NetworkMath.InitialLayerContents | NeuralNetwork.cs:65-84 | layer l of the initial parameters holds the drawn weights and biases, and both its histories are zero |
| NetworkMath.InitialLayersShaped | NeuralNetwork.cs:46-62 | the initial parameters have the shape of the topology |
| NetworkMath.Initial | NeuralNetwork.cs:46-84 | the initial parameters are shaped by the topology |
| NeuralNetworks.ForwardLayer | NeuralNetwork.cs:113-123 | the loop computes each unit's bias plus weighted sum of the sources as the layer input, and its activation as the layer output |
| NeuralNetworks.Copy | NeuralNetwork.cs:127-128 | the copy is equal to the copied vector |
| NeuralNetworks.ForwardPass | NeuralNetwork.cs:111-124 | the layer-by-layer pass over the caches leaves exactly the forward pass's pre- and post-activations |
| NeuralNetworks.InitialLayer | NeuralNetwork.cs:67-83 | the loops draw each bias and each weight of a layer from the draw of its own site |
| NeuralNetworks.InitialParameters | NeuralNetwork.cs:65-84 | the initialisation loop yields the initial parameters: drawn weights and biases, zero histories |
| NeuralNetworks.NudgeLayer | NeuralNetwork.cs:316-332 | the loops perturb each weight and bias of a layer by its own draw and zero both histories of the layer |
| NeuralNetworks.NudgeAll | NeuralNetwork.cs:314-333 | the loop over the layers yields the nudged parameters |
| NeuralNetworks.NeuralNetwork.constructor | NeuralNetwork.cs:24-84 | inputSize, layer sizes and transfer functions are layerSizes[0] and the tails of the arguments; the parameters are the initial ones; caches and deltas are zero; every collection has the topology's shape |
| NeuralNetworks.Create | NeuralNetwork.cs:17-85 | construction fails with the ArgumentException exactly when the argument lengths differ or the first tag is not None, and otherwise yields a fresh, valid, initialised network |
| NeuralNetworks.NeuralNetwork.Run | NeuralNetwork.cs:101-129 | fails exactly on an input of the wrong length and then changes nothing; otherwise the caches become the forward pass and the result is the last layer's output; parameters and deltas are unchanged |
| NeuralNetworks.NeuralNetwork.Nudge | NeuralNetwork.cs:311-334 | the parameters become the nudged ones, histories zero; caches and deltas are unchanged; the shape is preserved |
| NeuralNetworks.NeuralNetwork.GetInputSize | NeuralNetwork.cs:133-136 | the input size is the source width of layer 0 |
| NeuralNetworks.NeuralNetwork.GetLayerCount | NeuralNetwork.cs:348-359 | there is at least one computed layer, and the layer count matches the lengths of the layer sizes and the transfer functions |
| NeuralNetworks.NeuralNetwork.GetDelta | NeuralNetwork.cs:360-363 | the deltas have one vector per layer, of the layer's width |
| NeuralNetworks.NeuralNetwork.GetLayerInput | NeuralNetwork.cs:365-368 | the cached layer inputs have one vector per layer, of the layer's width |
| NeuralNetworks.NeuralNetwork.GetLayerOutput | NeuralNetwork.cs:369-372 | the cached layer outputs have one vector per layer, of the layer's width |
| NeuralNetworks.NeuralNetwork.GetBias | NeuralNetwork.cs:373-376 | the biases have one vector per layer, of the layer's width |
| NeuralNetworks.NeuralNetwork.GetPreviousBias | NeuralNetwork.cs:377-380 | the bias history has one vector per layer, of the layer's width |
| NeuralNetworks.NeuralNetwork.GetWeights | NeuralNetwork.cs:381-384 | the weights of layer l form a source-count by width matrix |
| NeuralNetworks.NeuralNetwork.GetPreviousWeight | NeuralNetwork.cs:385-388 | the weight history of layer l has the same shape as its weights |
| NeuralTrainers.OutputLayerDelta | NeuralTrainer.cs:68-74 | each output delta is (output - desired) times the derivative at the cached layer input, and the accumulated error is the sum of the squared raw errors |
| NeuralTrainers.HiddenLayerDelta | NeuralTrainer.cs:78-88 | each hidden delta is the next layer's deltas summed through the weights out of the unit, times the derivative at the cached layer input |
| NeuralTrainers.BackPropagate | NeuralTrainer.cs:63-90 | the downward loop yields every layer's deltas, and the error is the squared error of the output |
| NeuralTrainers.UpdateRow | NeuralTrainer.cs:94-101 | each weight out of a source unit is lowered by rate·delta·source + momentum·history, and that change becomes its history |
| NeuralTrainers.UpdateLayerWeights | NeuralTrainer.cs:93-101 | the loop yields the updated weights and weight history of a layer |
| NeuralTrainers.UpdateAllWeights | NeuralTrainer.cs:92-102 | the loop over the layers, fed by the input and the cached outputs, yields every layer's updated weights and weight history |
| NeuralTrainers.UpdateLayerBias | NeuralTrainer.cs:105-111 | each bias is lowered by rate·delta + momentum·history, and the history keeps rate·delta alone |
| NeuralTrainers.UpdateAllBiases | NeuralTrainer.cs:104-111 | the loop over the layers yields every layer's updated biases and bias history |
| NeuralTrainers.UpdateAll | NeuralTrainer.cs:92-111 | both update loops together yield the updated parameters |
| NeuralTrainers.TrainOnCaches | NeuralTrainer.cs:60-113 | after the forward pass, the backward pass and both update loops are exactly one training step |
| NeuralTrainers.TrainStepFromCaches | NeuralTrainer.cs:92-102 | the training step's updates can be read off the caches its forward pass leaves behind |
| NeuralTrainers.TrainStepError | NeuralTrainer.cs:68-113 | the error a training step returns is the squared error of the output the forward pass returned |
| NeuralTrainers.NeuralTrainer.constructor | NeuralTrainer.cs:28-43 | the trainer is bound to the network and its topology is the network's |
| NeuralTrainers.NeuralTrainer.BackPropagationTrain | NeuralTrainer.cs:44-114 | fails exactly on an input or target of the wrong length, naming the argument, and then changes nothing; otherwise the network's caches, deltas, weights, biases and histories become those of one training step, whose error is returned; the topology is unchanged |

## Left out

- XML persistence is not part of this model: `Save`, `Load`, `xPathValue`
  and the file-path constructor (NeuralNetwork.cs:87-94, 138-345). They are
  file I/O and XPath lookups. The unused fields `m_loaded` and `m_name` are
  left out too.
- Gaussian.cs is not modelled. The process-global random generator and the
  polar Box-Muller rejection loop become the oracle `z`: one standard-normal
  draw per weight or bias site, scaled as `stddev * z + mean`. Which call
  consumes which draw, and in what order, is not modelled.
- `Math.Exp` and `Math.Sqrt` are uninterpreted. Only their sign and range
  facts are used, so analytic claims (training lowers the error, convergence)
  are not stated.
- Doubles are reals: IEEE-754 rounding, overflow, NaN and summation order are
  not modelled.
- Degenerate topologies are preconditions, not modelled behaviour: fewer than
  two entries in `layerSizes` (`Create` requires at least two). Negative
  sizes cannot occur, because sizes are `nat`.
- Array aliasing is not modelled. The trainer holds the network itself and
  writes the network's fields, instead of holding aliases of its arrays. The
  stale aliases left by a later `Load` are therefore not captured. Neither is
  the fact that getters hand out the live arrays.
- Transfer-function tags are a closed datatype of the five named tags. A C#
  enum variable can hold other values, for which the `default` branches
  (TransferFunction.cs:40, 61) return 0; such values cannot occur here.
- An exception thrown without a parameter name (by the network constructor
  and by `Run`) carries the parameter name `""`.
