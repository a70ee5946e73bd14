/**
 * The data model of the network: synapses, neurons and layers are Go structs,
 * that is values that are copied on assignment and on `range`, so they are
 * datatypes here. The drawing coordinates of every struct are not modelled.
 */
module NetTypes {

  datatype Option<T> = None | Some(value: T)

  /** A weighted connection into a neuron; `signal` caches the input last seen by the forward pass. */
  datatype Synapse = Synapse(inputNeuronIndex: int, weight: real, signal: real)

  /** A unit: its activation, its incoming synapses (none in the input layer) and its error accumulator. */
  datatype Neuron = Neuron(output: real, synapses: seq<Synapse>, err: real)

  /**
   * A layer. The Go struct holds a pointer to the preceding layer of the same
   * network; here it holds that layer's index in the network.
   */
  datatype Layer = Layer(inputLayer: bool, previousLayer: Option<nat>, neurons: seq<Neuron>)

  /** One training record: the input vector and the target value. */
  datatype Example = Example(input: seq<real>, output: real)

  /**
   * The derivative of the logistic function expressed through its value:
   * for y = sigmoid(x), sigmoid'(x) = y * (1 - y).
   */
  function SigmoidDerivative(y: real): (r: real)
    ensures r <= 1.0 / 4.0
    ensures 0.0 < y < 1.0 ==> 0.0 < r
  {
    assert y * (1.0 - y) == 1.0 / 4.0 - (y - 1.0 / 2.0) * (y - 1.0 / 2.0);
    y * (1.0 - y)
  }

  /** Go's math.Abs on the reals. */
  function Abs(x: real): (r: real)
    ensures 0.0 <= r && (r == x || r == -x)
  {
    if x < 0.0 then -x else x
  }

  /** Synapse k reads neuron k of a preceding layer that has `width` neurons. */
  predicate Dense(syns: seq<Synapse>, width: nat)
  {
    |syns| == width && forall k :: 0 <= k < |syns| ==> syns[k].inputNeuronIndex == k
  }

  /** The width of the layer a neuron at layer `i` reads from (the input layer reads nothing). */
  function InWidth(ls: seq<Layer>, i: nat): nat
    requires i < |ls|
  {
    if i == 0 then 0 else |ls[i - 1].neurons|
  }

  /** Every synapse reads an existing neuron of the preceding layer `prev`. */
  predicate Wired(syns: seq<Synapse>, prev: seq<Neuron>)
  {
    forall k :: 0 <= k < |syns| ==> 0 <= syns[k].inputNeuronIndex < |prev|
  }

  /** The neurons of every layer after the first read only neurons of the layer before. */
  lemma WellFormedWired(ls: seq<Layer>, i: nat)
    requires WellFormed(ls) && 0 < i < |ls|
    ensures forall j :: 0 <= j < |ls[i].neurons| ==> Wired(ls[i].neurons[j].synapses, ls[i - 1].neurons)
  {
    forall j | 0 <= j < |ls[i].neurons|
      ensures Wired(ls[i].neurons[j].synapses, ls[i - 1].neurons)
    {
      assert Dense(ls[i].neurons[j].synapses, InWidth(ls, i));
    }
  }

  /**
   * The wiring every network built by NewNetwork has: only layer 0 is an input
   * layer, every later layer refers to its predecessor, and every neuron has one
   * synapse per neuron of the preceding layer, in that layer's order.
   */
  predicate WellFormed(ls: seq<Layer>)
  {
    (forall i :: 0 <= i < |ls| ==>
       ls[i].inputLayer == (i == 0) &&
       ls[i].previousLayer == (if i == 0 then None else Some(i - 1))) &&
    (forall i, j :: 0 <= i < |ls| && 0 <= j < |ls[i].neurons| ==>
       Dense(ls[i].neurons[j].synapses, InWidth(ls, i)))
  }

  /** Two neurons that agree on their wiring and weights (outputs, signals and errors may differ). */
  predicate SameWeights(a: Neuron, b: Neuron)
  {
    |a.synapses| == |b.synapses| &&
    forall k :: 0 <= k < |a.synapses| ==>
      a.synapses[k].inputNeuronIndex == b.synapses[k].inputNeuronIndex &&
      a.synapses[k].weight == b.synapses[k].weight
  }

  /** Two networks with the same layers, widths, wiring and weights. */
  predicate SameTopology(a: seq<Layer>, b: seq<Layer>)
  {
    |a| == |b| &&
    (forall i :: 0 <= i < |a| ==>
       a[i].inputLayer == b[i].inputLayer &&
       a[i].previousLayer == b[i].previousLayer &&
       |a[i].neurons| == |b[i].neurons|) &&
    (forall i, j :: 0 <= i < |a| && 0 <= j < |a[i].neurons| ==>
       SameWeights(a[i].neurons[j], b[i].neurons[j]))
  }

  /** The wiring invariant depends on the topology only. */
  lemma WellFormedTopology(a: seq<Layer>, b: seq<Layer>)
    requires WellFormed(a) && SameTopology(a, b)
    ensures WellFormed(b)
  {
    forall i, j | 0 <= i < |b| && 0 <= j < |b[i].neurons|
      ensures Dense(b[i].neurons[j].synapses, InWidth(b, i))
    {
      assert SameWeights(a[i].neurons[j], b[i].neurons[j]);
      assert Dense(a[i].neurons[j].synapses, InWidth(a, i));
    }
  }
}
