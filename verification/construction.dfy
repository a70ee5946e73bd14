/**
 * What NewNetwork builds from the requested layer widths and the flat list of
 * initial weights, and in which order it consumes those weights.
 */
module Construction {
  import opened NetTypes

  /** The number of neurons `for j := 0; j < requested[i]; j++` creates: none for a negative width. */
  function Width(w: int): nat
  {
    if w < 0 then 0 else w
  }

  /** The number of weights consumed by the layers before layer i: layer l >= 1 takes |layer l-1| * |layer l|. */
  function LayerStart(req: seq<int>, i: nat): nat
    requires i <= |req|
  {
    if i <= 1 then 0 else LayerStart(req, i - 1) + Width(req[i - 2]) * Width(req[i - 1])
  }

  /** The number of weights a network of the requested widths needs. */
  function WeightCount(req: seq<int>): nat
  {
    LayerStart(req, |req|)
  }

  /**
   * Where the weights of neuron j of layer i >= 1 start: after the layers
   * before i and after the j neurons before it, each of which takes one weight
   * per neuron of layer i-1.
   */
  function RowStart(req: seq<int>, i: nat, j: nat): nat
    requires 1 <= i < |req|
  {
    if j == 0 then LayerStart(req, i) else RowStart(req, i, j - 1) + Width(req[i - 1])
  }

  /** The position in the weight list of the weight of synapse k of neuron j of layer i >= 1. */
  function Cursor(req: seq<int>, i: nat, j: nat, k: nat): nat
    requires 1 <= i < |req|
  {
    RowStart(req, i, j) + k
  }

  lemma {:induction false} LayerStartMonotone(req: seq<int>, i: nat, m: nat)
    requires i <= m <= |req|
    ensures LayerStart(req, i) <= LayerStart(req, m)
    decreases m - i
  {
    if i < m {
      LayerStartMonotone(req, i, m - 1);
    }
  }

  /** Row starts grow with the neuron index. */
  lemma {:induction false} RowStartMonotone(req: seq<int>, i: nat, j: nat, m: nat)
    requires 1 <= i < |req| && j <= m
    ensures RowStart(req, i, j) <= RowStart(req, i, m)
    decreases m - j
  {
    if j < m {
      RowStartMonotone(req, i, j, m - 1);
    }
  }

  /** Closed form of the row start: j neurons of |layer i-1| weights each after the start of layer i. */
  lemma {:induction false} RowStartFormula(req: seq<int>, i: nat, j: nat)
    requires 1 <= i < |req|
    ensures RowStart(req, i, j) == LayerStart(req, i) + j * Width(req[i - 1])
  {
    if j > 0 {
      RowStartFormula(req, i, j - 1);
      assert (j - 1) * Width(req[i - 1]) + Width(req[i - 1]) == j * Width(req[i - 1]);
    }
  }

  /** The row after the last neuron of layer i is where layer i+1 starts. */
  lemma RowEnd(req: seq<int>, i: nat)
    requires 1 <= i < |req|
    ensures RowStart(req, i, Width(req[i])) == LayerStart(req, i + 1)
  {
    RowStartFormula(req, i, Width(req[i]));
    assert Width(req[i]) * Width(req[i - 1]) == Width(req[i - 1]) * Width(req[i]);
  }

  /** The first m neurons of layer i >= 1 take their weights from the part of the list that layer i consumes. */
  lemma WithinLayer(req: seq<int>, i: nat, m: nat)
    requires 1 <= i < |req| && m <= Width(req[i])
    ensures RowStart(req, i, m) <= LayerStart(req, i + 1)
  {
    RowStartMonotone(req, i, m, Width(req[i]));
    RowEnd(req, i);
  }

  /** Neuron j of layer i >= 1 takes its weights from the part of the list that layer i consumes. */
  lemma NeuronWithinLayer(req: seq<int>, i: nat, j: nat)
    requires 1 <= i < |req| && j < Width(req[i])
    ensures Cursor(req, i, j, 0) + Width(req[i - 1]) <= LayerStart(req, i + 1)
  {
    WithinLayer(req, i, j + 1);
  }

  /** The weight of synapse k of neuron j of layer i lies in the part of the list that layer i consumes. */
  lemma CursorBound(req: seq<int>, i: nat, j: nat, k: nat)
    requires 1 <= i < |req| && j < Width(req[i]) && k < Width(req[i - 1])
    ensures Cursor(req, i, j, k) < LayerStart(req, i + 1) <= WeightCount(req)
  {
    NeuronWithinLayer(req, i, j);
    LayerStartMonotone(req, i + 1, |req|);
  }

  /** The synapses of neuron j of layer i >= 1: one per neuron of layer i-1, weights taken in order. */
  function BuildSynapses(req: seq<int>, w: seq<real>, i: nat, j: nat): (r: seq<Synapse>)
    requires 1 <= i < |req| && Cursor(req, i, j, 0) + Width(req[i - 1]) <= |w|
    ensures Dense(r, Width(req[i - 1]))
  {
    seq(Width(req[i - 1]), k requires 0 <= k < Width(req[i - 1]) => Synapse(k, w[Cursor(req, i, j, k)], 0.0))
  }

  /** Neuron j of layer i as NewNetwork creates it: output and error zero. */
  function BuildNeuron(req: seq<int>, w: seq<real>, i: nat, j: nat): Neuron
    requires i < |req| && (i == 0 || Cursor(req, i, j, 0) + Width(req[i - 1]) <= |w|)
  {
    Neuron(0.0, if i == 0 then [] else BuildSynapses(req, w, i, j), 0.0)
  }

  /** Layer i as NewNetwork creates it. */
  function BuildLayer(req: seq<int>, w: seq<real>, i: nat): (r: Layer)
    requires i < |req| && (i == 0 || LayerStart(req, i + 1) <= |w|)
    ensures |r.neurons| == Width(req[i])
  {
    Layer(i == 0, if i == 0 then None else Some(i - 1),
          seq(Width(req[i]), j requires 0 <= j < Width(req[i]) =>
            if i == 0 then BuildNeuron(req, w, i, j)
            else NeuronWithinLayer(req, i, j); BuildNeuron(req, w, i, j)))
  }

  /** The first n layers NewNetwork builds, when the weight list holds the weights they need. */
  function BuildPrefix(req: seq<int>, w: seq<real>, n: nat): (r: seq<Layer>)
    requires n <= |req| && LayerStart(req, n) <= |w|
    ensures |r| == n && forall i :: 0 <= i < n ==> |r[i].neurons| == Width(req[i])
  {
    seq(n, i requires 0 <= i < n =>
      LayerStartMonotone(req, i + 1, n);
      BuildLayer(req, w, i))
  }

  /** The network NewNetwork builds when the weight list is long enough. */
  function Build(req: seq<int>, w: seq<real>): (r: seq<Layer>)
    requires WeightCount(req) <= |w|
    ensures |r| == |req|
  {
    BuildPrefix(req, w, |req|)
  }

  /** Building one more layer appends BuildLayer to the prefix. */
  lemma BuildPrefixStep(req: seq<int>, w: seq<real>, n: nat)
    requires n < |req| && LayerStart(req, n + 1) <= |w|
    ensures LayerStart(req, n) <= |w|
    ensures BuildPrefix(req, w, n + 1) == BuildPrefix(req, w, n) + [BuildLayer(req, w, n)]
  {
    LayerStartMonotone(req, n, n + 1);
  }

  /**
   * A freshly built network has one layer per requested width, layer i has
   * requested[i] neurons (none if negative), every output, error and signal is
   * zero, and the wiring is the one WellFormed describes.
   */
  lemma BuildShape(req: seq<int>, w: seq<real>)
    requires WeightCount(req) <= |w|
    ensures var r := Build(req, w);
      WellFormed(r) &&
      (forall i :: 0 <= i < |r| ==> |r[i].neurons| == Width(req[i])) &&
      (forall i, j :: 0 <= i < |r| && 0 <= j < |r[i].neurons| ==>
         r[i].neurons[j].output == 0.0 && r[i].neurons[j].err == 0.0 &&
         forall k :: 0 <= k < |r[i].neurons[j].synapses| ==> r[i].neurons[j].synapses[k].signal == 0.0)
  {
    var r := Build(req, w);
    forall i, j | 0 <= i < |r| && 0 <= j < |r[i].neurons|
      ensures Dense(r[i].neurons[j].synapses, InWidth(r, i))
    {
      if i > 0 {
        LayerStartMonotone(req, i + 1, |req|);
        NeuronWithinLayer(req, i, j);
        assert r[i].neurons[j] == BuildNeuron(req, w, i, j);
      }
    }
  }

  /** The weights of some synapses, in order. */
  function SynapseWeights(syns: seq<Synapse>): (r: seq<real>)
    ensures |r| == |syns|
  {
    seq(|syns|, k requires 0 <= k < |syns| => syns[k].weight)
  }

  /** The weights of some neurons, neuron by neuron and synapse by synapse. */
  function NeuronWeights(ns: seq<Neuron>): seq<real>
  {
    if |ns| == 0 then [] else NeuronWeights(ns[..|ns| - 1]) + SynapseWeights(ns[|ns| - 1].synapses)
  }

  /** Every weight of a network, layer by layer, neuron by neuron, synapse by synapse. */
  function AllWeights(ls: seq<Layer>): seq<real>
  {
    if |ls| == 0 then [] else AllWeights(ls[..|ls| - 1]) + NeuronWeights(ls[|ls| - 1].neurons)
  }

  /** The input layer holds no weights. */
  lemma {:induction false} NoWeightsInInputLayer(ns: seq<Neuron>)
    requires forall j :: 0 <= j < |ns| ==> ns[j].synapses == []
    ensures NeuronWeights(ns) == []
  {
    if |ns| > 0 {
      NoWeightsInInputLayer(ns[..|ns| - 1]);
    }
  }

  lemma SliceConcat(w: seq<real>, a: nat, b: nat, c: nat)
    requires a <= b <= c <= |w|
    ensures w[a..b] + w[b..c] == w[a..c]
  {
  }

  /** Neuron j of layer i >= 1 holds the |layer i-1| weights that follow the j neurons before it. */
  lemma NeuronWeightsInOrder(req: seq<int>, w: seq<real>, i: nat, j: nat)
    requires 1 <= i < |req| && LayerStart(req, i + 1) <= |w| && j < Width(req[i])
    ensures RowStart(req, i, j) <= RowStart(req, i, j + 1) <= |w|
    ensures SynapseWeights(BuildLayer(req, w, i).neurons[j].synapses) == w[RowStart(req, i, j) .. RowStart(req, i, j + 1)]
  {
    var p := Width(req[i - 1]);
    var c := RowStart(req, i, j);
    NeuronWithinLayer(req, i, j);
    var syns := BuildLayer(req, w, i).neurons[j].synapses;
    assert syns == BuildSynapses(req, w, i, j);
    forall k | 0 <= k < p
      ensures SynapseWeights(syns)[k] == w[c .. c + p][k]
    {
      assert Cursor(req, i, j, k) == c + k;
    }
  }

  /** Neuron j of `ns` holds row j of layer i's part of the weight list. */
  predicate HoldsRow(req: seq<int>, w: seq<real>, i: nat, ns: seq<Neuron>, j: nat)
    requires 1 <= i < |req| && j < |ns|
  {
    RowStart(req, i, j) <= RowStart(req, i, j + 1) <= |w| &&
    SynapseWeights(ns[j].synapses) == w[RowStart(req, i, j) .. RowStart(req, i, j + 1)]
  }

  /**
   * Neurons whose synapses hold consecutive rows of the weight list, row j for
   * neuron j, hold together the run from the first row's start to the end of row m-1.
   */
  lemma {:induction false} RowsInOrder(req: seq<int>, w: seq<real>, i: nat, ns: seq<Neuron>, m: nat)
    requires 1 <= i < |req| && m <= |ns| && RowStart(req, i, |ns|) <= |w|
    requires forall j :: 0 <= j < |ns| ==> HoldsRow(req, w, i, ns, j)
    ensures LayerStart(req, i) <= RowStart(req, i, m) <= |w|
    ensures NeuronWeights(ns[..m]) == w[LayerStart(req, i) .. RowStart(req, i, m)]
  {
    RowStartMonotone(req, i, m, |ns|);
    if m == 0 {
      assert ns[..0] == [];
    } else {
      RowsInOrder(req, w, i, ns, m - 1);
      assert HoldsRow(req, w, i, ns, m - 1);
      var prefix := ns[..m];
      assert prefix[..m - 1] == ns[..m - 1] && prefix[m - 1] == ns[m - 1];
      SliceConcat(w, LayerStart(req, i), RowStart(req, i, m - 1), RowStart(req, i, m));
    }
  }

  /** The neurons of layer i >= 1 hold the weights between the start of layer i and the start of layer i+1. */
  lemma LayerWeightsInOrder(req: seq<int>, w: seq<real>, i: nat)
    requires 1 <= i < |req| && LayerStart(req, i + 1) <= |w|
    ensures LayerStart(req, i) <= LayerStart(req, i + 1)
    ensures NeuronWeights(BuildLayer(req, w, i).neurons) == w[LayerStart(req, i) .. LayerStart(req, i + 1)]
  {
    var ns := BuildLayer(req, w, i).neurons;
    forall j | 0 <= j < |ns|
      ensures HoldsRow(req, w, i, ns, j)
    {
      NeuronWeightsInOrder(req, w, i, j);
    }
    RowEnd(req, i);
    RowsInOrder(req, w, i, ns, |ns|);
    assert ns[..|ns|] == ns;
  }

  /** Layer i holds exactly the weights between the start of layer i and the start of layer i+1. */
  lemma LayerWeights(req: seq<int>, w: seq<real>, i: nat)
    requires i < |req| && (i == 0 || LayerStart(req, i + 1) <= |w|)
    ensures LayerStart(req, i) <= LayerStart(req, i + 1) <= |w| || i == 0
    ensures i == 0 ==> NeuronWeights(BuildLayer(req, w, i).neurons) == []
    ensures 0 < i ==> NeuronWeights(BuildLayer(req, w, i).neurons) == w[LayerStart(req, i) .. LayerStart(req, i + 1)]
  {
    var ns := BuildLayer(req, w, i).neurons;
    if i == 0 {
      NoWeightsInInputLayer(ns);
    } else {
      LayerWeightsInOrder(req, w, i);
    }
  }

  /** The first n layers NewNetwork builds hold the first LayerStart(requested, n) weights of the list, in order. */
  lemma {:induction false} BuildPrefixWeights(req: seq<int>, w: seq<real>, n: nat)
    requires n <= |req| && LayerStart(req, n) <= |w|
    ensures AllWeights(BuildPrefix(req, w, n)) == w[..LayerStart(req, n)]
  {
    if n > 0 {
      BuildPrefixStep(req, w, n - 1);
      BuildPrefixWeights(req, w, n - 1);
      var p := BuildPrefix(req, w, n - 1);
      assert (p + [BuildLayer(req, w, n - 1)])[..|p|] == p;
      LayerWeights(req, w, n - 1);
      if n > 1 {
        SliceConcat(w, 0, LayerStart(req, n - 1), LayerStart(req, n));
      }
    }
  }

  /**
   * NewNetwork consumes the weight list in layer, then neuron, then synapse
   * order: listing the built network's weights in that order gives back the
   * first WeightCount(requested) entries of the list.
   */
  lemma BuildWeightsInOrder(req: seq<int>, w: seq<real>)
    requires WeightCount(req) <= |w|
    ensures AllWeights(Build(req, w)) == w[..WeightCount(req)]
  {
    BuildPrefixWeights(req, w, |req|);
  }

  /** A [2, 2, 1] network needs 2*2 + 2*1 = 6 weights. */
  lemma WeightCountExample()
    ensures WeightCount([2, 2, 1]) == 6
    ensures WeightCount([1, 1]) == 1
  {
    assert LayerStart([2, 2, 1], 2) == 4;
  }
}
