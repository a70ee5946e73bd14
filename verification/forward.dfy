/**
 * The forward pass ("think") as functions of the network's state. The logistic
 * function is a parameter `sigmoid` of every member: nothing proved here depends
 * on its values.
 */
module Forward {
  import opened NetTypes

  /** The weighted sum Σ weight · signal, accumulated from the first synapse to the last. */
  function WeightedSum(syns: seq<Synapse>): real
  {
    if |syns| == 0 then 0.0
    else WeightedSum(syns[..|syns| - 1]) + syns[|syns| - 1].weight * syns[|syns| - 1].signal
  }

  /**
   * A synapse after it has cached the current output of the neuron it reads.
   * Go would panic on an index outside `prev`; that case never arises in a
   * WellFormed network, and here it leaves the synapse as it was.
   */
  function Fed(s: Synapse, prev: seq<Neuron>): Synapse
  {
    if 0 <= s.inputNeuronIndex < |prev| then s.(signal := prev[s.inputNeuronIndex].output) else s
  }

  /** Every synapse of a neuron after one forward pass. */
  function Feed(syns: seq<Synapse>, prev: seq<Neuron>): (r: seq<Synapse>)
    ensures |r| == |syns|
  {
    seq(|syns|, k requires 0 <= k < |syns| => Fed(syns[k], prev))
  }

  /**
   * The neuron after neuron.Think against the preceding layer `prev`: every
   * signal is refreshed and, when there is at least one synapse, the output is
   * the sigmoid of the full weighted sum; a neuron with no synapse keeps its output.
   */
  function ThinkNeuron(n: Neuron, prev: seq<Neuron>, sigmoid: real -> real): Neuron
  {
    var fed := Feed(n.synapses, prev);
    n.(synapses := fed, output := if |fed| == 0 then n.output else sigmoid(WeightedSum(fed)))
  }

  /** Every neuron of a layer after layer.Think. */
  function ThinkLayer(ns: seq<Neuron>, prev: seq<Neuron>, sigmoid: real -> real): (r: seq<Neuron>)
    ensures |r| == |ns|
  {
    seq(|ns|, j requires 0 <= j < |ns| => ThinkNeuron(ns[j], prev, sigmoid))
  }

  /** The input layer after network.Think copied `inputs` into the first |inputs| outputs. */
  function LoadInputs(ns: seq<Neuron>, inputs: seq<real>): (r: seq<Neuron>)
    requires |inputs| <= |ns|
    ensures |r| == |ns|
  {
    seq(|ns|, i requires 0 <= i < |ns| => if i < |inputs| then ns[i].(output := inputs[i]) else ns[i])
  }

  /** The state after layer j has run layer.Think against layer j-1. */
  function ThinkAt(ls: seq<Layer>, j: nat, sigmoid: real -> real): (r: seq<Layer>)
    requires 1 <= j < |ls|
    ensures |r| == |ls|
  {
    ls[j := ls[j].(neurons := ThinkLayer(ls[j].neurons, ls[j - 1].neurons, sigmoid))]
  }

  /**
   * The state after layers j, j+1, ... have each run layer.Think in that order,
   * every one of them against the already updated layer before it.
   */
  function Propagate(ls: seq<Layer>, j: nat, sigmoid: real -> real): (r: seq<Layer>)
    requires 1 <= j <= |ls|
    ensures |r| == |ls| && forall i :: 0 <= i < |r| ==> |r[i].neurons| == |ls[i].neurons|
    decreases |ls| - j
  {
    if j == |ls| then ls else Propagate(ThinkAt(ls, j, sigmoid), j + 1, sigmoid)
  }

  /** The state after network.Think(inputs): the inputs are written into the input layer, then every later layer thinks in order. */
  function ThinkState(ls: seq<Layer>, inputs: seq<real>, sigmoid: real -> real): (r: seq<Layer>)
    requires 0 < |ls| && |inputs| <= |ls[0].neurons|
    ensures |r| == |ls| && forall i :: 0 <= i < |r| ==> |r[i].neurons| == |ls[i].neurons|
  {
    Propagate(ls[0 := ls[0].(neurons := LoadInputs(ls[0].neurons, inputs))], 1, sigmoid)
  }

  /** The value network.Think returns: the output of neuron 0 of the last layer. */
  function Prediction(ls: seq<Layer>): real
    requires 0 < |ls| && 0 < |ls[|ls| - 1].neurons|
  {
    ls[|ls| - 1].neurons[0].output
  }

  /** Writing the inputs keeps the topology. */
  lemma LoadInputsTopology(ls: seq<Layer>, inputs: seq<real>)
    requires 0 < |ls| && |inputs| <= |ls[0].neurons|
    ensures SameTopology(ls, ls[0 := ls[0].(neurons := LoadInputs(ls[0].neurons, inputs))])
  {
  }

  /** One layer thinking keeps the topology. */
  lemma ThinkAtTopology(ls: seq<Layer>, j: nat, sigmoid: real -> real)
    requires 1 <= j < |ls|
    ensures SameTopology(ls, ThinkAt(ls, j, sigmoid))
  {
  }

  /** Propagating from layer j leaves the layers below j as they were. */
  lemma {:induction false} PropagateBelow(ls: seq<Layer>, j: nat, i: nat, sigmoid: real -> real)
    requires 1 <= j <= |ls| && i < j
    ensures Propagate(ls, j, sigmoid)[i] == ls[i]
    decreases |ls| - j
  {
    if j < |ls| {
      PropagateBelow(ThinkAt(ls, j, sigmoid), j + 1, i, sigmoid);
    }
  }

  /** Each layer j >= `from` ends up as ThinkLayer of its old neurons against the NEW layer j-1. */
  lemma {:induction false} PropagateLayer(ls: seq<Layer>, from: nat, j: nat, sigmoid: real -> real)
    requires 1 <= from <= j < |ls|
    ensures var r := Propagate(ls, from, sigmoid);
      r[j] == ls[j].(neurons := ThinkLayer(ls[j].neurons, r[j - 1].neurons, sigmoid))
    decreases |ls| - from
  {
    var next := ThinkAt(ls, from, sigmoid);
    if j == from {
      PropagateBelow(next, from + 1, j, sigmoid);
      PropagateBelow(next, from + 1, j - 1, sigmoid);
    } else {
      PropagateLayer(next, from + 1, j, sigmoid);
    }
  }

  /**
   * After network.Think, layer j (j >= 1) is exactly its old neurons thought
   * against the new outputs of layer j-1: the layers are processed in order.
   */
  lemma ThinkStateLayer(ls: seq<Layer>, inputs: seq<real>, j: nat, sigmoid: real -> real)
    requires 0 < |ls| && |inputs| <= |ls[0].neurons| && 1 <= j < |ls|
    ensures var r := ThinkState(ls, inputs, sigmoid);
      r[j] == ls[j].(neurons := ThinkLayer(ls[j].neurons, r[j - 1].neurons, sigmoid))
  {
    var loaded := ls[0 := ls[0].(neurons := LoadInputs(ls[0].neurons, inputs))];
    PropagateLayer(loaded, 1, j, sigmoid);
  }

  /**
   * network.Think writes inputs[k] into input neuron k and leaves the other
   * input neurons (those beyond |inputs|) alone.
   */
  lemma ThinkStateInputs(ls: seq<Layer>, inputs: seq<real>, sigmoid: real -> real)
    requires 0 < |ls| && |inputs| <= |ls[0].neurons|
    ensures var r := ThinkState(ls, inputs, sigmoid);
      r[0].inputLayer == ls[0].inputLayer && r[0].previousLayer == ls[0].previousLayer &&
      forall k :: 0 <= k < |r[0].neurons| ==>
        r[0].neurons[k] == if k < |inputs| then ls[0].neurons[k].(output := inputs[k]) else ls[0].neurons[k]
  {
    var loaded := ls[0 := ls[0].(neurons := LoadInputs(ls[0].neurons, inputs))];
    PropagateBelow(loaded, 1, 0, sigmoid);
  }

  /**
   * network.Think changes no topology, no weight and no error: only outputs
   * and cached signals.
   */
  lemma {:induction false} ThinkStateKeepsWeights(ls: seq<Layer>, inputs: seq<real>, sigmoid: real -> real)
    requires 0 < |ls| && |inputs| <= |ls[0].neurons|
    ensures var r := ThinkState(ls, inputs, sigmoid);
      SameTopology(r, ls) &&
      forall i, k :: 0 <= i < |r| && 0 <= k < |r[i].neurons| && |r[i].neurons| == |ls[i].neurons| ==>
        r[i].neurons[k].err == ls[i].neurons[k].err
  {
    var r := ThinkState(ls, inputs, sigmoid);
    ThinkStateInputs(ls, inputs, sigmoid);
    forall i | 0 <= i < |r|
      ensures r[i].inputLayer == ls[i].inputLayer && r[i].previousLayer == ls[i].previousLayer
      ensures |r[i].neurons| == |ls[i].neurons|
      ensures forall k :: 0 <= k < |r[i].neurons| ==>
                SameWeights(r[i].neurons[k], ls[i].neurons[k]) && r[i].neurons[k].err == ls[i].neurons[k].err
    {
      if i > 0 {
        ThinkStateLayer(ls, inputs, i, sigmoid);
      }
    }
  }

  /** Thinking twice against the same preceding layer gives the same neuron. */
  lemma ThinkNeuronIdempotent(n: Neuron, prev: seq<Neuron>, sigmoid: real -> real)
    ensures ThinkNeuron(ThinkNeuron(n, prev, sigmoid), prev, sigmoid) == ThinkNeuron(n, prev, sigmoid)
  {
    var once := ThinkNeuron(n, prev, sigmoid);
    assert Feed(once.synapses, prev) == once.synapses;
  }

  /**
   * network.Think is idempotent: a second call with the same inputs leaves the
   * state of the first call unchanged, and so returns the same prediction.
   */
  lemma {:induction false} ThinkIdempotent(ls: seq<Layer>, inputs: seq<real>, sigmoid: real -> real)
    requires 0 < |ls| && |inputs| <= |ls[0].neurons|
    ensures var once := ThinkState(ls, inputs, sigmoid);
      ThinkState(once, inputs, sigmoid) == once
  {
    var once := ThinkState(ls, inputs, sigmoid);
    var twice := ThinkState(once, inputs, sigmoid);
    ThinkStateInputs(ls, inputs, sigmoid);
    ThinkStateInputs(once, inputs, sigmoid);
    assert twice[0].neurons == once[0].neurons;
    PropagateBelow(ls[0 := ls[0].(neurons := LoadInputs(ls[0].neurons, inputs))], 1, 0, sigmoid);
    PropagateBelow(once[0 := once[0].(neurons := LoadInputs(once[0].neurons, inputs))], 1, 0, sigmoid);
    assert twice[0] == once[0];
    var j := 1;
    while j < |ls|
      invariant 1 <= j <= |ls|
      invariant forall i :: 0 <= i < j ==> twice[i] == once[i]
    {
      ThinkStateLayer(ls, inputs, j, sigmoid);
      ThinkStateLayer(once, inputs, j, sigmoid);
      forall k | 0 <= k < |once[j].neurons|
        ensures twice[j].neurons[k] == once[j].neurons[k]
      {
        ThinkNeuronIdempotent(ls[j].neurons[k], once[j - 1].neurons, sigmoid);
      }
      assert twice[j].neurons == once[j].neurons;
      j := j + 1;
    }
    assert twice == once;
  }

  /** With every weight zero the weighted sum is zero, whatever the signals. */
  lemma {:induction false} WeightedSumZero(syns: seq<Synapse>)
    requires forall k :: 0 <= k < |syns| ==> syns[k].weight == 0.0
    ensures WeightedSum(syns) == 0.0
  {
    if |syns| > 0 {
      WeightedSumZero(syns[..|syns| - 1]);
    }
  }

  /**
   * With all weights zero, every neuron after the input layer that has at least
   * one synapse outputs sigmoid(0) after network.Think, whatever the inputs.
   */
  lemma ZeroWeightsThink(ls: seq<Layer>, inputs: seq<real>, sigmoid: real -> real, j: nat, k: nat)
    requires 0 < |ls| && |inputs| <= |ls[0].neurons|
    requires forall i, n, s :: 0 <= i < |ls| && 0 <= n < |ls[i].neurons| && 0 <= s < |ls[i].neurons[n].synapses| ==>
               ls[i].neurons[n].synapses[s].weight == 0.0
    requires 1 <= j < |ls| && k < |ls[j].neurons| && 0 < |ls[j].neurons[k].synapses|
    ensures ThinkState(ls, inputs, sigmoid)[j].neurons[k].output == sigmoid(0.0)
  {
    var r := ThinkState(ls, inputs, sigmoid);
    ThinkStateLayer(ls, inputs, j, sigmoid);
    var fed := Feed(ls[j].neurons[k].synapses, r[j - 1].neurons);
    WeightedSumZero(fed);
  }
}
