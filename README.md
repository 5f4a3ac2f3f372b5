# WolframTest network core in Dafny

This project models the core of WolframTest, a small WinForms demo. The demo
trains nine tiny feedforward networks to fit the step curve from Stephen
Wolfram's article "What is ChatGPT doing". Each network has one input and one
output, tanh neurons, and trains by back-propagation.

The model covers two source files.

- `NeuralNetwork.cs`: the `NeuralNetwork` class and its static registry.
  - Construction: layers, zeroed neurons, and biases and weights drawn at
    random in [-0.5, 0.5). The new network is entered in the registry under its
    id.
  - The forward pass and one back-propagation step, with learning rate 0.05.
  - The parameter file written by `Save` and read by `Load`.
  - The closed-form formula `Formula` builds for a one-input, one-output
    network.
- `Form1.cs`: the driver.
  - The 255 training samples cut from the six anchors of the target curve, and
    their pixels.
  - Creation of the nine networks.
  - The timer tick. It trains every network on every sample, guarded by a
    re-entrancy flag. It also steps a 32-bit counter that says when the graphs
    are redrawn.

Modules:

- `NetworkValues` (`network_values.dfy`): a network's state as values (`NetState`).
  - The forward pass `Forward`.
  - One training step `TrainStep`.
  - Lemmas giving both in closed form.
- `InitialValues` (`initial_values.dfy`): how the random draws become the
  starting biases and weights.
- `ParameterFile` (`parameter_file.dfy`):
  - the file layout `Flatten`;
  - the reading `LoadValues`;
  - their round trip and the partial-read behaviour.
- `NetworkFormula` (`formula.dfy`): formula expressions, their evaluation, and
  the map of live neuron keys the formula is built in.
- `NeuralNetworkModel` (`neural_network.dfy`): the imperative layer.
  - `NeuralNetwork` is a class over `array<real>` / `array2<real>` per layer.
    Its methods are proved against the value functions above through the ghost
    function `State()`.
  - `Registry` is the id-to-network map.
  - `Create` is construction plus registration.
- `Training` (`training.dfy`):
  - the samples and the pixel mapping;
  - `Epoch`, one tick's training of one network;
  - the 32-bit tick counter;
  - the `Form` class with its constructor and the `TimerTick` handler.

Three behaviours of the code are worth stating outright, because textbook
versions of these operations differ:

- **Hidden-layer deltas.** A hidden layer's deltas are computed from the
  weights of the layer above as this same step has already adjusted them
  (NeuralNetwork.cs:256-277). Textbook back-propagation uses the weights from
  before the step. `TrainStepClosedForm` states the order the code uses.
- **Order inside a layer.** The code interleaves each neuron's delta with that
  neuron's adjustment (NeuralNetwork.cs:241-251, 258-272). The model computes
  all of a layer's deltas (`OutputDeltas`, `HiddenDeltas`) and then adjusts
  the layer (`AdjustParameters`). The result is the same, because the deltas
  read only the activations, the weights out of the layer and the deltas
  above, while the adjustment writes only the biases and weights into the
  layer.
- **A file that does not match the network.** A short file overwrites
  parameters up to the first missing line, then reports failure. Extra lines
  are ignored, and the load succeeds.
- **One tick.** Every tick trains each network on all 255 samples in order.

## Model

| member | source | states |
|---|---|---|
| NetworkValues.DerivativeOfTanh | NeuralNetwork.cs:106-109 | the derivative of tanh, taken at tanh's output, is at most 1, and it is non-negative for outputs in [-1, 1] |
| NetworkValues.ForwardAt | NeuralNetwork.cs:194-218 | the forward pass overwrites the first inputs.Length input neurons and keeps the rest of layer 0; every later neuron j of layer l + 1 is tanh of the weighted sum of layer l's new activations plus its bias |
| NetworkValues.ForwardNeuron | NeuralNetwork.cs:202-215 | one neuron of a computed layer is tanh of its dot product with the previous layer's activations plus its bias |
| NetworkValues.ForwardIgnoresPreviousActivations | NeuralNetwork.cs:194-218 | with a full-width input, the forward pass does not depend on the activations earlier calls left behind, only on the parameters and the input |
| NetworkValues.TrainStepClosedForm | NeuralNetwork.cs:225-278 | a training step leaves the forward pass's activations. It adjusts every layer's biases and weights once, against that layer's delta. The output layer uses the output delta. Each hidden layer uses the delta propagated through the weights above it, as already adjusted in this step |
| NetworkValues.TrainStepLayer | NeuralNetwork.cs:241-272 | the biases and weights into layer m + 1 are the old ones minus 0.05 times its delta, and, for weights, times the previous layer's activation |
| InitialValues.RandomValue | NeuralNetwork.cs:130-133 | a draw in [0, 100000) gives a starting value in [-0.5, 0.5) |
| InitialValues.InitialInRange | NeuralNetwork.cs:114-187 | a new network's neurons are all 0, and every bias and weight lies in [-0.5, 0.5) |
| InitialValues.InitialSaved | NeuralNetwork.cs:138-187 | the biases and weights of a new network, written in file order, are exactly the values of its draws in draw order |
| ParameterFile.FlattenLength | NeuralNetwork.cs:353-380 | a saved file has one line per bias and weight: ParamCount(layers) lines |
| ParameterFile.ParamCountIsPerLayerSum | NeuralNetwork.cs:353-380 | the parameter count is the sum over layers l >= 1 of layers[l] * (layers[l - 1] + 1) |
| ParameterFile.LoadSaved | NeuralNetwork.cs:284-316 | loading what Save wrote from a network of the same shape restores exactly its biases and weights, whatever the target held before, and keeps the target's activations |
| ParameterFile.LoadInFileOrder | NeuralNetwork.cs:284-316 | after a load, the parameters in file order are the file's lines followed by the unread old parameters when the file is short, and the first ParamCount lines otherwise |
| ParameterFile.LoadIgnoresSurplus | NeuralNetwork.cs:284-316 | lines beyond the network's parameter count have no effect on a load |
| ParameterFile.LoadOverlaysFile | NeuralNetwork.cs:284-316 | a load overwrites parameter p with line p where the file has one, and keeps the old parameter p elsewhere |
| ParameterFile.ShortFileKeepsWeights | NeuralNetwork.cs:293-311 | a file that runs out inside the biases leaves every weight unchanged |
| NetworkFormula.FormulaIsForward | NeuralNetwork.cs:386-441 | for a one-input, one-output network, the formula's output expression evaluated at x equals the output of the forward pass on input x |
| NetworkFormula.LiveIsLastLayer | NeuralNetwork.cs:396-422 | with no empty layer, removing the previous layer's keys after each layer leaves exactly the current layer's keys in the map |
| NeuralNetworkModel.NeuralNetwork.constructor | NeuralNetwork.cs:71-96 | a new network has the id and layer sizes given, its own fresh arrays shaped by the layers, and the starting values made from the draws |
| NeuralNetworkModel.NeuralNetwork.InitialIsInitialState | NeuralNetwork.cs:114-187 | a constructed network's state is InitialState: zero neurons, then biases and then weights taken from the draws in file order |
| NeuralNetworkModel.NeuralNetwork.FeedForward | NeuralNetwork.cs:194-218 | the returned array is the output layer's own neuron array, and the new state is Forward of the old state and the inputs; biases and weights are unchanged |
| NeuralNetworkModel.NeuralNetwork.CopyInputs | NeuralNetwork.cs:197-200 | the inputs overwrite the leading neurons of layer 0 and the others keep their values |
| NeuralNetworkModel.NeuralNetwork.ComputeLayer | NeuralNetwork.cs:204-214 | each neuron of the layer becomes tanh of its weighted sum plus its bias; the lower layers and the parameters stay as they were |
| NeuralNetworkModel.NeuralNetwork.BackPropagate | NeuralNetwork.cs:225-278 | the new state is TrainStep of the old state, the inputs and the expected outputs |
| NeuralNetworkModel.NeuralNetwork.OutputDeltas | NeuralNetwork.cs:241-243 | output delta j is (output[j] - expected[j]) times the tanh derivative at output[j] |
| NeuralNetworkModel.NeuralNetwork.HiddenDeltas | NeuralNetwork.cs:258-265 | hidden delta j is the sum over k of gammaNext[k] * Weights[i][k, j], times the tanh derivative at neuron j |
| NeuralNetworkModel.NeuralNetwork.Save | NeuralNetwork.cs:353-380 | the lines written are every bias, layer by layer and neuron by neuron, then every weight, layer by layer, neuron by neuron and by neuron of the previous layer |
| NeuralNetworkModel.NeuralNetwork.Load | NeuralNetwork.cs:284-316 | with no file, nothing changes and the outcome is NoFile. Otherwise the new state is LoadValues of the old state and the lines. The outcome is Loaded exactly when the file holds at least ParamCount lines, and Unreadable (the caught exception) when it holds fewer |
| NeuralNetworkModel.NeuralNetwork.Formula | NeuralNetwork.cs:386-441 | the notice is returned exactly when the input or output layer is not a single neuron. Otherwise the result is the output neuron's expression, which by FormulaIsForward computes the forward pass |
| NeuralNetworkModel.NeuralNetwork.FormulaExprs | NeuralNetwork.cs:390-422 | after the layer loop, the map holds exactly the live keys, each mapped to the expression of its neuron |
| NeuralNetworkModel.Registry.Register | NeuralNetwork.cs:98 | the network is entered under its id, replacing any earlier entry and keeping every other |
| NeuralNetworkModel.Registry.Clear | Form1.cs:164 | the registry becomes empty |
| NeuralNetworkModel.Create | NeuralNetwork.cs:71-99 | fewer than two layers fails and leaves the registry unchanged. Otherwise a fresh, initialised network with the given id and layers replaces the registry's entry for that id, and every other entry is kept |
| Training.TrainingSampleCount | Form1.cs:182-218 | the target curve yields 5 * 51 = 255 training samples |
| Training.SampleAt | Form1.cs:187-213 | sample (i - 1) * 51 + j is step j of 51 from anchor i - 1 towards anchor i, and step 0 is the anchor itself |
| Training.TrainingSamplesSorted | Form1.cs:182-218 | the samples' x-coordinates never decrease |
| Training.LastAnchorNeverSampled | Form1.cs:206-213 | every sample lies left of x = 1, so the curve's last anchor (1, 0) is never a training sample |
| Training.RoundHalfEven | Form1.cs:382-385 | the pixel coordinate is within 0.5 of the real value, and a tie goes to the even integer, as Math.Round does |
| Training.EpochSplit | Form1.cs:241-244 | training on a + b is training on a, then on b |
| Training.TrainSample | Form1.cs:243 | one sample trains the network by TrainStep with its x as the only input and its y as the only expected output |
| Training.TrainNetwork | Form1.cs:241-244 | the network's new state is Epoch: TrainStep applied for each sample in order |
| Training.Increment | Form1.cs:236 | ++ on the 32-bit counter is the old value plus one, modulo 2^32 |
| Training.TicksCounted | Form1.cs:236 | before the counter wraps, it equals the number of ticks, and the graphs are redrawn exactly on every tenth tick |
| Training.TrainAll | Form1.cs:238-255 | every registered network is trained by Epoch from the state it had before the tick, the networks not interfering with one another |
| Training.Form.constructor | Form1.cs:101-114 | the form starts idle with counter 0, the 255 samples as training data, and networks 0 to 8 registered with their shapes |
| Training.Form.CreateTrainingPoints | Form1.cs:182-218 | the training data is the samples of every segment in order, and point i is the pixel of sample i |
| Training.Form.CreateNeuralNetworks | Form1.cs:162-177 | after clearing the registry, it holds exactly ids 0 to 8, each with its architecture from the listing |
| Training.Form.TimerTick | Form1.cs:230-257 | a tick while one is running changes nothing. Otherwise the counter is incremented with wrap-around, each network is trained by Epoch on the training data, the flag ends cleared, and a redraw is signalled exactly when the new counter is a multiple of 10 |
| Training.Form.Train | Form1.cs:234-255 | a tick's body: the flag is set, the counter incremented, the redraw decided, and every network trained by Epoch |
| Training.Form.Finish | Form1.cs:256 | the flag is cleared and nothing else changes |

## Left out

- Floating point: `float`/`double` arithmetic is modelled as exact `real`. The 0.05f learning rate is the exact 0.05. Rounding, NaN and overflow are not modelled.
- `Math.Tanh` is an uninterpreted function `Tanh`. Nothing proved depends on its values.
- Randomness: `RandomNumberGenerator.GetInt32(0, 100000)` is not called. Its results are an input `draws` to the constructor, consumed biases first, then weights.
- File I/O: `Save` returns the lines instead of writing them. `Load` takes the file as `Option<seq<real>>`, where `None` means the file does not exist.
  - Text parsing with `double.Parse` is not modelled, so a line that fails to parse is not a case of the model.
  - The MessageBox in the catch block becomes the `Unreadable` outcome.
  - `SaveTrainedModel`/`LoadTrainedModel` (NeuralNetwork.cs:322-347) only loop over the registry, building a path per id. They are not part of this model.
- NeuralNetworkModel.NeuralNetwork.Formula: returns the output neuron's expression tree, not the C# source text.
  - Number formatting, the "+-" and "++" rewriting, and the code template are left out.
  - The two `File.WriteAllText` calls are left out.
  - When a layer is empty, the source's map can keep stale keys. The model shows which keys stay live (`Live`) but proves the one-key result only for networks without an empty layer.
- NeuralNetworkModel.NeuralNetwork.constructor: registration, the constructor's last statement, is done by `Create`. The constructor's `ArgumentException` for fewer than two layers is `Create`'s `None` result. Negative layer sizes cannot occur: sizes are `nat`.
- NeuralNetworkModel.NeuralNetwork.FeedForward: requires the input to be no wider than layer 0. A wider input makes the source throw `IndexOutOfRangeException`, which the model does not represent.
- NeuralNetworkModel.NeuralNetwork.BackPropagate: requires `expected` to be at least as wide as the output layer, and the input no wider than layer 0. Outside those bounds the source throws.
- Training.Form.CreateNeuralNetworks: states the ids and architectures of the nine networks, not their starting values. `Create`, which each creation goes through, states those per network.
- Training.Form.constructor: the same as CreateNeuralNetworks. It also does not state the pixels of the target curve; `CreateTrainingPoints` states them.
- Training.Form.TimerTick: `updateGraphs` is returned, but disposing and redrawing the picture boxes, `DrawGraph` and the title text are not modelled.
  - On a redraw tick, `DrawGraph` (Form1.cs:246-249, through Form1.cs:340-347) runs `FeedForward` on each network after its training, for the plotted x values. The activations the tick leaves are then those of the last plotted x. Only the biases and weights are as the ensures states.
  - On other ticks, the whole state is as stated.
  - The networks are trained in id order 0 to count - 1, as in the source.
- Training.Form.Train: the same as TimerTick. On a redraw tick only the biases and weights are as stated, because the plotting's forward passes are not modelled.
- The C# `%` truncates toward zero and Dafny's `%` does not. This changes nothing for the redraw test, which only compares the remainder with zero.
- User interface: `InitializeComponent`, picture boxes, the timer's creation, key handling, `DrawGraph`, `NonAI` and `BreakDownOfNonAI` are not part of this model.
- Only the anchor listing the source compiles (`StephenWolframShape` is defined) is modelled, not the alternative seven-anchor curve.
- Re-entrancy: the `inTimer` flag is modelled as state. Concurrent timer events are not modelled.
