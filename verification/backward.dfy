/**
 * The backward pass ("train") as functions of the network's state, as the Go
 * code behaves: every synapse and every trained neuron is a `range` copy, so
 * the weight update is lost and only the `err` fields of the preceding layers
 * change.
 */
module Backward {
  import opened NetTypes
  import opened Forward

  /** What neuron n adds, through synapse s, to the error of the neuron s reads. */
  function Contribution(n: Neuron, s: Synapse): real
  {
    n.err * s.weight * SigmoidDerivative(n.output)
  }

  /**
   * The preceding layer after neuron.Train has gone through `syns` (a prefix of
   * n's synapses) in order. Go would panic on an index outside `prev`; that case
   * never arises in a WellFormed network, and here it adds nothing.
   */
  function Deliver(n: Neuron, syns: seq<Synapse>, prev: seq<Neuron>): (r: seq<Neuron>)
    ensures |r| == |prev|
  {
    if |syns| == 0 then prev
    else
      var p := Deliver(n, syns[..|syns| - 1], prev);
      var s := syns[|syns| - 1];
      var i := s.inputNeuronIndex;
      if 0 <= i < |p| then p[i := p[i].(err := p[i].err + Contribution(n, s))] else p
  }

  /** Delivering one more synapse adds its contribution to the neuron it reads. */
  lemma DeliverStep(n: Neuron, syns: seq<Synapse>, prev: seq<Neuron>, i: nat)
    requires i < |syns|
    ensures var p := Deliver(n, syns[..i], prev); var s := syns[i]; var k := s.inputNeuronIndex;
      Deliver(n, syns[..i + 1], prev) ==
        if 0 <= k < |p| then p[k := p[k].(err := p[k].err + Contribution(n, s))] else p
  {
    assert syns[..i + 1][..i] == syns[..i];
  }

  /** The preceding layer after neuron.Train(n). */
  function TrainNeuron(n: Neuron, prev: seq<Neuron>): seq<Neuron>
  {
    Deliver(n, n.synapses, prev)
  }

  /** The preceding layer after every neuron of `ups`, in order, has run neuron.Train against it. */
  function TrainLayer(ups: seq<Neuron>, prev: seq<Neuron>): (r: seq<Neuron>)
    ensures |r| == |prev|
  {
    if |ups| == 0 then prev else TrainNeuron(ups[|ups| - 1], TrainLayer(ups[..|ups| - 1], prev))
  }

  /** neuron.Train changes only the `err` fields of the preceding layer. */
  lemma {:induction false} DeliverOnlyErrors(n: Neuron, syns: seq<Synapse>, prev: seq<Neuron>)
    ensures forall k :: 0 <= k < |prev| ==> Deliver(n, syns, prev)[k] == prev[k].(err := Deliver(n, syns, prev)[k].err)
  {
    if |syns| > 0 {
      DeliverOnlyErrors(n, syns[..|syns| - 1], prev);
    }
  }

  /** A layer's training changes only the `err` fields of the layer before it. */
  lemma {:induction false} TrainLayerOnlyErrors(ups: seq<Neuron>, prev: seq<Neuron>)
    ensures forall k :: 0 <= k < |prev| ==> TrainLayer(ups, prev)[k] == prev[k].(err := TrainLayer(ups, prev)[k].err)
  {
    if |ups| > 0 {
      var p := TrainLayer(ups[..|ups| - 1], prev);
      TrainLayerOnlyErrors(ups[..|ups| - 1], prev);
      DeliverOnlyErrors(ups[|ups| - 1], ups[|ups| - 1].synapses, p);
    }
  }

  /** The state after layer i has trained into layer i-1. */
  function TrainAt(ls: seq<Layer>, i: nat): (r: seq<Layer>)
    requires 1 <= i < |ls|
    ensures |r| == |ls|
  {
    ls[i - 1 := ls[i - 1].(neurons := TrainLayer(ls[i].neurons, ls[i - 1].neurons))]
  }

  /** The state after layers i, i-1, ..., 1 have each trained into the layer before, in that order. */
  function BackPropagate(ls: seq<Layer>, i: nat): (r: seq<Layer>)
    requires i < |ls|
    ensures |r| == |ls| && forall m :: 0 <= m < |r| ==> |r[m].neurons| == |ls[m].neurons|
    decreases i
  {
    if i == 0 then ls else BackPropagate(TrainAt(ls, i), i - 1)
  }

  /** The state after the output error has been stored in neuron 0 of the last layer. */
  function Seed(ls: seq<Layer>, e: real): (r: seq<Layer>)
    requires 0 < |ls| && 0 < |ls[|ls| - 1].neurons|
    ensures |r| == |ls|
  {
    var last := ls[|ls| - 1];
    ls[|ls| - 1 := last.(neurons := last.neurons[0 := last.neurons[0].(err := e)])]
  }

  /** Seeding the output error keeps the topology. */
  lemma SeedTopology(ls: seq<Layer>, e: real)
    requires 0 < |ls| && 0 < |ls[|ls| - 1].neurons|
    ensures SameTopology(ls, Seed(ls, e))
  {
  }

  /** One layer training into the layer before keeps the topology. */
  lemma TrainAtTopology(ls: seq<Layer>, i: nat)
    requires 1 <= i < |ls|
    ensures SameTopology(ls, TrainAt(ls, i))
  {
    TrainLayerOnlyErrors(ls[i].neurons, ls[i - 1].neurons);
  }

  /** What network.Train demands of its caller: a non-empty output layer and no more inputs than input neurons. */
  predicate Trainable(ls: seq<Layer>, ex: Example)
  {
    0 < |ls| && 0 < |ls[|ls| - 1].neurons| && |ex.input| <= |ls[0].neurons|
  }

  /** The signed error network.Train computes: target minus prediction. */
  function OutputError(ls: seq<Layer>, ex: Example, sigmoid: real -> real): real
    requires Trainable(ls, ex)
  {
    ex.output - Prediction(ThinkState(ls, ex.input, sigmoid))
  }

  /** The state after network.Train(ex): think, seed the output error, train from the last layer down. */
  function TrainState(ls: seq<Layer>, ex: Example, sigmoid: real -> real): (r: seq<Layer>)
    requires Trainable(ls, ex)
    ensures |r| == |ls|
  {
    var thought := ThinkState(ls, ex.input, sigmoid);
    BackPropagate(Seed(thought, OutputError(ls, ex, sigmoid)), |ls| - 1)
  }

  /** The total error that the synapses `syns` of n send to neuron k of the preceding layer. */
  function ErrorFor(n: Neuron, syns: seq<Synapse>, k: int): real
  {
    if |syns| == 0 then 0.0
    else
      ErrorFor(n, syns[..|syns| - 1], k) +
      (if syns[|syns| - 1].inputNeuronIndex == k then Contribution(n, syns[|syns| - 1]) else 0.0)
  }

  /** The total error that the neurons `ups` send to neuron k of the layer before them. */
  function LayerErrorFor(ups: seq<Neuron>, k: int): real
  {
    if |ups| == 0 then 0.0
    else LayerErrorFor(ups[..|ups| - 1], k) + ErrorFor(ups[|ups| - 1], ups[|ups| - 1].synapses, k)
  }

  /** neuron.Train adds to each neuron of the preceding layer exactly what its synapses send it. */
  lemma {:induction false} DeliverError(n: Neuron, syns: seq<Synapse>, prev: seq<Neuron>, k: nat)
    requires k < |prev|
    ensures Deliver(n, syns, prev)[k].err == prev[k].err + ErrorFor(n, syns, k)
  {
    if |syns| > 0 {
      DeliverError(n, syns[..|syns| - 1], prev, k);
    }
  }

  /** With dense wiring, synapse k is the only one that sends error to neuron k. */
  lemma {:induction false} ErrorForDense(n: Neuron, syns: seq<Synapse>, k: nat)
    requires forall m :: 0 <= m < |syns| ==> syns[m].inputNeuronIndex == m
    ensures ErrorFor(n, syns, k) == if k < |syns| then Contribution(n, syns[k]) else 0.0
  {
    if |syns| > 0 {
      var init := syns[..|syns| - 1];
      assert forall m :: 0 <= m < |init| ==> init[m].inputNeuronIndex == m;
      ErrorForDense(n, init, k);
      if k < |init| {
        assert init[k] == syns[k];
      }
    }
  }

  /**
   * neuron.Train on a neuron with dense wiring adds n.err * weight_k *
   * sigmoid_derivative(n.output) to the error of neuron k of the preceding
   * layer, and changes nothing else there.
   */
  lemma TrainNeuronDense(n: Neuron, prev: seq<Neuron>, k: nat)
    requires Dense(n.synapses, |prev|) && k < |prev|
    ensures TrainNeuron(n, prev)[k] ==
              prev[k].(err := prev[k].err + n.err * n.synapses[k].weight * SigmoidDerivative(n.output))
  {
    DeliverError(n, n.synapses, prev, k);
    DeliverOnlyErrors(n, n.synapses, prev);
    ErrorForDense(n, n.synapses, k);
  }

  /** A layer's training adds to neuron k of the layer before it the error all its neurons send there. */
  lemma {:induction false} TrainLayerError(ups: seq<Neuron>, prev: seq<Neuron>, k: nat)
    requires k < |prev|
    ensures TrainLayer(ups, prev)[k].err == prev[k].err + LayerErrorFor(ups, k)
  {
    if |ups| > 0 {
      TrainLayerError(ups[..|ups| - 1], prev, k);
      DeliverError(ups[|ups| - 1], ups[|ups| - 1].synapses, TrainLayer(ups[..|ups| - 1], prev), k);
    }
  }

  /** Training from layer i downwards leaves layers i, i+1, ... as they were. */
  lemma {:induction false} BackPropagateAbove(ls: seq<Layer>, i: nat, m: nat)
    requires i <= m < |ls|
    ensures BackPropagate(ls, i)[m] == ls[m]
    decreases i
  {
    if i > 0 {
      BackPropagateAbove(TrainAt(ls, i), i - 1, m);
    }
  }

  /**
   * Layer j-1 (1 <= j <= i) ends up as its old neurons with the error of the
   * FINAL layer j added: all of layer j's contributions land before layer j-1
   * propagates in its turn.
   */
  lemma {:induction false} BackPropagateLayer(ls: seq<Layer>, i: nat, j: nat)
    requires 1 <= j <= i < |ls|
    ensures var r := BackPropagate(ls, i);
      r[j - 1] == ls[j - 1].(neurons := TrainLayer(r[j].neurons, ls[j - 1].neurons))
    decreases i
  {
    var next := TrainAt(ls, i);
    if j == i {
      BackPropagateAbove(next, i - 1, j - 1);
      BackPropagateAbove(next, i - 1, j);
    } else {
      BackPropagateLayer(next, i - 1, j);
    }
  }

  /** BackPropagate changes the `err` fields and nothing else: outputs, signals and weights stay. */
  lemma BackPropagateOnlyErrors(ls: seq<Layer>, i: nat, m: nat)
    requires i < |ls| && m < |ls|
    ensures BackPropagate(ls, i)[m].inputLayer == ls[m].inputLayer
    ensures BackPropagate(ls, i)[m].previousLayer == ls[m].previousLayer
    ensures forall k :: 0 <= k < |ls[m].neurons| ==>
              BackPropagate(ls, i)[m].neurons[k] == ls[m].neurons[k].(err := BackPropagate(ls, i)[m].neurons[k].err)
  {
    if m >= i {
      BackPropagateAbove(ls, i, m);
    } else {
      BackPropagateLayer(ls, i, m + 1);
      TrainLayerOnlyErrors(BackPropagate(ls, i)[m + 1].neurons, ls[m].neurons);
    }
  }

  /**
   * network.Train changes nothing but errors after its forward pass: every
   * layer keeps the flags, width, outputs and synapses (signals and weights,
   * since the weight update of neuron.Train is made on a copy) that
   * network.Think gave it.
   */
  lemma TrainOnlyErrors(ls: seq<Layer>, ex: Example, sigmoid: real -> real, m: nat)
    requires Trainable(ls, ex) && m < |ls|
    ensures var r := TrainState(ls, ex, sigmoid); var thought := ThinkState(ls, ex.input, sigmoid);
      r[m].inputLayer == thought[m].inputLayer && r[m].previousLayer == thought[m].previousLayer &&
      |r[m].neurons| == |thought[m].neurons| &&
      forall k :: 0 <= k < |r[m].neurons| ==> r[m].neurons[k] == thought[m].neurons[k].(err := r[m].neurons[k].err)
  {
    var thought := ThinkState(ls, ex.input, sigmoid);
    var seeded := Seed(thought, OutputError(ls, ex, sigmoid));
    BackPropagateOnlyErrors(seeded, |ls| - 1, m);
    assert forall k :: 0 <= k < |seeded[m].neurons| ==>
             seeded[m].neurons[k] == thought[m].neurons[k].(err := seeded[m].neurons[k].err);
  }

  /** network.Train leaves the topology and every weight as they were. */
  lemma TrainKeepsWeights(ls: seq<Layer>, ex: Example, sigmoid: real -> real)
    requires Trainable(ls, ex)
    ensures SameTopology(TrainState(ls, ex, sigmoid), ls)
  {
    var thought := ThinkState(ls, ex.input, sigmoid);
    var r := TrainState(ls, ex, sigmoid);
    ThinkStateKeepsWeights(ls, ex.input, sigmoid);
    forall m | 0 <= m < |r|
      ensures r[m].inputLayer == ls[m].inputLayer && r[m].previousLayer == ls[m].previousLayer
      ensures |r[m].neurons| == |ls[m].neurons|
      ensures forall k :: 0 <= k < |r[m].neurons| ==> SameWeights(r[m].neurons[k], ls[m].neurons[k])
    {
      TrainOnlyErrors(ls, ex, sigmoid, m);
      forall k | 0 <= k < |r[m].neurons|
        ensures SameWeights(r[m].neurons[k], ls[m].neurons[k])
      {
        assert r[m].neurons[k].synapses == thought[m].neurons[k].synapses;
        assert SameWeights(thought[m].neurons[k], ls[m].neurons[k]);
      }
    }
  }

  /**
   * After network.Train, neuron 0 of the last layer holds target - prediction
   * as its error; the other neurons of the last layer keep theirs.
   */
  lemma TrainSeedsOutput(ls: seq<Layer>, ex: Example, sigmoid: real -> real, k: nat)
    requires Trainable(ls, ex) && k < |ls[|ls| - 1].neurons|
    ensures TrainState(ls, ex, sigmoid)[|ls| - 1].neurons[k].err ==
              if k == 0 then OutputError(ls, ex, sigmoid) else ls[|ls| - 1].neurons[k].err
  {
    var thought := ThinkState(ls, ex.input, sigmoid);
    ThinkStateKeepsWeights(ls, ex.input, sigmoid);
    BackPropagateAbove(Seed(thought, OutputError(ls, ex, sigmoid)), |ls| - 1, |ls| - 1);
  }

  /**
   * The errors are never reset: after network.Train, the error of neuron k of
   * every layer below the last is its error BEFORE the call plus everything the
   * (final) layer above sends it. Repeated calls therefore accumulate.
   */
  lemma TrainAccumulates(ls: seq<Layer>, ex: Example, sigmoid: real -> real, j: nat, k: nat)
    requires Trainable(ls, ex) && j + 1 < |ls| && k < |ls[j].neurons|
    ensures var r := TrainState(ls, ex, sigmoid);
      r[j].neurons[k].err == ls[j].neurons[k].err + LayerErrorFor(r[j + 1].neurons, k)
  {
    var thought := ThinkState(ls, ex.input, sigmoid);
    var seeded := Seed(thought, OutputError(ls, ex, sigmoid));
    var r := TrainState(ls, ex, sigmoid);
    ThinkStateKeepsWeights(ls, ex.input, sigmoid);
    BackPropagateLayer(seeded, |ls| - 1, j + 1);
    assert seeded[j] == thought[j];
    TrainLayerError(r[j + 1].neurons, seeded[j].neurons, k);
  }
}
