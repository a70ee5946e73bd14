# A verified model of the neuroblast feedforward network (go/nn.go)

This project models the core of `go/nn.go`, the small feedforward neural
network of the neuroblast game, in Dafny. The model covers:

- the `synapse`, `neuron`, `layer` and `network` structs;
- construction of a network from a list of layer widths and a flat weight list (`NewNetwork`);
- the forward pass (`neuron.Think`, `layer.Think`, `network.Think`);
- the backward pass (`neuron.Train`, `network.Train`, `ResetErrors`).

The model follows Go's value semantics exactly as the code is written:

- `synapse`, `neuron` and `layer` are Go structs, which are copied on assignment and by `range`, so they are datatypes here. A copied struct still shares its slice fields (`layer.neurons`, `neuron.synapses`) with the original. The datatype view is nevertheless exact: no modelled code writes through the slice of a copy, and the one shared reference it does write through, `previousLayer`, is modelled as a layer index.
- `network` is updated through a pointer receiver, so it is a class whose `layers` field its methods reassign.
- A layer's `previousLayer` pointer becomes `Some(i - 1)`, the index of the layer it points to (`None` for the input layer).
- Numbers are `real`.
- The logistic function is a parameter `sigmoid: real -> real` of every forward and training member. Nothing proved depends on its values.

Two consequences of the value semantics are modelled as written and proved:

- `neuron.Train` updates the weight of a `range` copy of the synapse, so no stored weight ever changes.
- `ResetErrors` zeroes the `err` of the `neuron` copy made by its inner `range` (go/nn.go:217-218), so it changes nothing. Errors in every layer below the output layer therefore accumulate from one `Train` call to the next.

Files:

- `types.dfy` (module `NetTypes`): the structs, `sigmoid_derivative`, and the wiring invariant `WellFormed` that every constructed network has.
- `forward.dfy` (module `Forward`): the forward pass as functions of the network state, and its properties.
- `backward.dfy` (module `Backward`): the backward pass as functions of the network state, and its properties.
- `construction.dfy` (module `Construction`): the network `NewNetwork` builds and the order in which it consumes weights.
- `network.dfy` (module `NeuralNet`): the Go methods as imperative Dafny methods. Each is proved equal to the functions above.

## Model

| member | source | states |
|---|---|---|
| NetTypes.SigmoidDerivative | go/nn.go:83-85 | y·(1−y) is at most 1/4, and is positive for every y strictly between 0 and 1 (every sigmoid output) |
| NetTypes.WellFormedWired | go/nn.go:158-192 | in a network with the constructed wiring, every synapse of a layer i ≥ 1 reads an existing neuron of layer i−1 |
| NetTypes.WellFormedTopology | go/nn.go:158-192 | the constructed wiring depends only on flags, widths, synapse indices and weights, so any state with the same topology is still well formed |
| Forward.ThinkStateLayer | go/nn.go:128-132 | after network.Think, layer j ≥ 1 is its old neurons each thought against the NEW outputs of layer j−1, so layers are processed in order |
| Forward.ThinkStateInputs | go/nn.go:223-229 | network.Think writes inputs[k] into input neuron k and leaves the input neurons beyond len(inputs) unchanged |
| Forward.ThinkStateKeepsWeights | go/nn.go:119-126 | network.Think changes no flag, width, synapse index, weight or error; only outputs and signals |
| Forward.ThinkNeuronIdempotent | go/nn.go:119-126 | a neuron that thinks twice against the same preceding layer ends as after thinking once |
| Forward.ThinkIdempotent | go/nn.go:223-234 | calling network.Think twice with the same inputs leaves the state of the first call, and so returns the same prediction |
| Forward.WeightedSumZero | go/nn.go:120-124 | with every weight zero, the activity Σ weight·signal is 0 whatever the signals |
| Forward.ZeroWeightsThink | go/nn.go:119-126 | with every weight zero, every non-input neuron that has a synapse outputs sigmoid(0) after network.Think, whatever the inputs |
| Backward.DeliverError | go/nn.go:111-117 | after neuron.Train, neuron k of the preceding layer has its old error plus the contributions of exactly the synapses that read k |
| Backward.DeliverOnlyErrors | go/nn.go:111-117 | neuron.Train changes only `err` fields of the preceding layer: outputs and synapses stay |
| Backward.ErrorForDense | go/nn.go:111-117 | with dense wiring (synapse k reads neuron k), neuron k receives exactly the contribution of synapse k, and nothing if there is none |
| Backward.TrainNeuronDense | go/nn.go:111-117 | for a constructed neuron, neuron.Train leaves neuron k of the preceding layer as it was except err += n.err·weight_k·sigmoid_derivative(n.output) |
| Backward.TrainLayerError | go/nn.go:207-210 | after every neuron of a layer has trained, neuron k of the layer before holds its old error plus the sum of what every neuron sent it |
| Backward.TrainLayerOnlyErrors | go/nn.go:207-210 | a layer's training changes only `err` fields of the layer before it |
| Backward.BackPropagateAbove | go/nn.go:207 | the backward loop from layer i down never changes layers i, i+1, … |
| Backward.BackPropagateLayer | go/nn.go:207-211 | layer j−1 receives the error of the FINAL layer j: all of layer j's contributions land before layer j−1 propagates |
| Backward.BackPropagateOnlyErrors | go/nn.go:207-211 | the backward loop changes `err` fields only: flags, outputs, signals and weights stay |
| Backward.TrainOnlyErrors | go/nn.go:203-213 | after network.Train every layer has the flags, width, outputs and synapses network.Think gave it; only errors differ |
| Backward.TrainKeepsWeights | go/nn.go:111-117 | network.Train leaves the topology and every weight exactly as before: the weight update at line 114 is made on a copy |
| Backward.TrainSeedsOutput | go/nn.go:204-206 | after network.Train, neuron 0 of the last layer has error target − prediction and the other output neurons keep their errors |
| Backward.TrainAccumulates | go/nn.go:205-221 | after network.Train, neuron k of every layer below the last has its error from BEFORE the call plus what the final layer above sent it, so errors are never reset and accumulate |
| Construction.RowStartFormula | go/nn.go:172-192 | neuron j of layer i ≥ 1 starts reading weights at LayerStart(i) + j·Width(requested[i−1]), where Width(w) = max(w, 0) |
| Construction.RowEnd | go/nn.go:172-192 | the weights of layer i end exactly where those of layer i+1 start |
| Construction.CursorBound | go/nn.go:183 | the weight of synapse k of neuron j of layer i lies before the end of layer i's weights and before the total weight count |
| Construction.BuildShape | go/nn.go:143-199 | the built network has len(requested) layers; layer 0 is the only input layer; layer i has predecessor i−1 and max(requested[i], 0) neurons; every output, error and signal is 0; synapse k reads neuron k of the layer before |
| Construction.BuildPrefixStep | go/nn.go:158-200 | building one more layer appends exactly that layer to the layers already built |
| Construction.NeuronWeightsInOrder | go/nn.go:180-192 | neuron j of layer i ≥ 1 holds the next Width(requested[i−1]) weights of the list, in synapse order |
| Construction.RowsInOrder | go/nn.go:172-197 | neurons holding consecutive rows of weights hold, together, the contiguous run of the list from the first row on |
| Construction.LayerWeightsInOrder | go/nn.go:172-197 | the neurons of layer i ≥ 1 hold exactly the weights between the start of layer i and the start of layer i+1 |
| Construction.LayerWeights | go/nn.go:158-199 | the input layer holds no weight; every later layer holds its own contiguous run of the list |
| Construction.BuildPrefixWeights | go/nn.go:156-200 | the first n layers built hold the first LayerStart(n) weights of the list, in order |
| Construction.BuildWeightsInOrder | go/nn.go:156-200 | listing the built network's weights layer by layer, neuron by neuron, synapse by synapse gives back the first Σ Width(requested[i−1])·Width(requested[i]) weights of the list |
| Construction.WeightCountExample | go/nn.go:156-192 | a [2, 2, 1] network consumes 2·2 + 2·1 = 6 weights; a [1, 1] network consumes 1 |
| NeuralNet.NeuronThink | go/nn.go:119-126 | neuron.Think's loop refreshes every signal from the neuron it reads and leaves as output the sigmoid of the full weighted sum, or the old output if there is no synapse (equals Forward.ThinkNeuron) |
| NeuralNet.NeuronTrain | go/nn.go:111-117 | neuron.Train's loop returns the preceding layer with each synapse's contribution added to the error of the neuron it reads, and no weight changed (equals Backward.TrainNeuron) |
| NeuralNet.LayerTrain | go/nn.go:208-210 | the inner loop of network.Train returns the layer before after every neuron of the layer, in order, has trained into it (equals Backward.TrainLayer) |
| NeuralNet.NewNeuron | go/nn.go:172-195 | builds neuron j of layer i ≥ 1 from the weight cursor and advances the cursor by one per synapse; fails exactly when the list runs out |
| NeuralNet.NewLayer | go/nn.go:158-199 | builds layer i from the weight cursor and leaves the cursor at the start of layer i+1; fails exactly when the list runs out |
| NeuralNet.Network.NewNetwork | go/nn.go:140-201 | succeeds exactly when the list holds at least Σ Width(requested[i−1])·Width(requested[i]) weights (Go panics at line 183 otherwise); on success the network is well formed and is the one Construction.Build describes |
| NeuralNet.Network.LayerThink | go/nn.go:128-132 | every neuron of layer j, in order, thinks against layer j−1; the wiring invariant is kept |
| NeuralNet.Network.Think | go/nn.go:223-234 | the new state is Forward.ThinkState of the old one and the result is the output of neuron 0 of the last layer; the wiring invariant is kept |
| NeuralNet.Network.ResetErrors | go/nn.go:215-221 | leaves the network unchanged, since it only zeroes the errors of range copies |
| NeuralNet.Network.Train | go/nn.go:203-213 | the new state is Backward.TrainState of the old one (think, seed the output error, train from the last layer down to layer 1); the result is \|target − prediction\|; the wiring invariant is kept |

## Left out

- Drawing is not modelled, because it is UI code on the pixel, imdraw and text libraries. This covers `synapse.Draw`, `neuron.Draw`, `layer.Draw`, `network.Draw` and `layer_left_margin`. It also covers the x/y coordinate fields and the surface and text handles of `network`.
- The unused `index` field of `neuron` is not modelled, because no modelled code reads or writes it.
- `NewNetwork` does not read `weights.csv`. The weights are a `seq<real>` parameter, already parsed: the file opening, the CSV parsing and their panics are I/O.
- `trainModel` is not modelled: it is file reading, printing and string parsing.
- `sigmoid`'s body (`math.Exp`) is not modelled. It is a parameter and stays uninterpreted.
- Floating-point rounding is not modelled. Arithmetic is exact over `real`, so nothing is claimed about float64 results or about convergence of training.
- The Go functions panic on an empty network, an empty output layer or more inputs than input neurons. `Network.Think` and `Network.Train` instead require those cases away (a non-empty last layer and `len(inputs) <= len(layers[0].neurons)`).
- `Forward.Fed` and `Backward.Deliver`: where Go would panic on a synapse whose index is outside the preceding layer, these leave the synapse or the layer unchanged. No well-formed network has such a synapse: `NeuronThink`, `NeuronTrain` and `LayerTrain` require the wiring that every constructed network has.
- `NeuralNet.Network.NewNetwork`: when the weight list is too short, Go panics part way through. The model returns `false` at that same point and claims nothing about the partly built network.
- Negative widths in `requested` are not an error in Go, because the loop `for j := 0; j < requested[i]; j++` makes no neurons for them. The model reads them as width 0 through `Construction.Width`.
- Line 114 (`s.weight += s.signal * n.err * …`) and the method `ResetErrors` (go/nn.go:215-221), called at line 205, show that training is meant to update every weight and clear every error on each `Train` call. As written, the code does neither, and the model follows the code:
  - The weight update in `neuron.Train` is lost (`Backward.TrainKeepsWeights`).
  - `ResetErrors` resets nothing (`NeuralNet.Network.ResetErrors`, `Backward.TrainAccumulates`).
