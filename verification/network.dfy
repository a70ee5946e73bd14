/**
 * The network object of go/nn.go and the passes that change it in place.
 * `network` is the one entity updated through a pointer receiver, so it is a
 * class whose `layers` field the methods reassign. neuron.Think and
 * neuron.Train take a neuron (a slice element, or a range copy) and a
 * preceding layer; they are methods on those values that return the updated
 * value, which the caller stores back where Go writes through its pointer.
 */
module NeuralNet {
  import opened NetTypes
  import opened Forward
  import opened Backward
  import opened Construction

  /**
   * neuron.Think: for every synapse in order, cache the output of the neuron
   * it reads, add weight * signal to the activity and set the output to the
   * sigmoid of the activity so far.
   */
  method NeuronThink(n: Neuron, prev: seq<Neuron>, sigmoid: real -> real) returns (r: Neuron)
    requires Wired(n.synapses, prev)
    ensures r == ThinkNeuron(n, prev, sigmoid)
  {
    r := n;
    var activity := 0.0;
    var i := 0;
    while i < |r.synapses|
      invariant 0 <= i <= |n.synapses| == |r.synapses|
      invariant r.err == n.err
      invariant forall k :: 0 <= k < |n.synapses| ==>
                  r.synapses[k] == if k < i then Fed(n.synapses[k], prev) else n.synapses[k]
      invariant activity == WeightedSum(r.synapses[..i])
      invariant r.output == if i == 0 then n.output else sigmoid(activity)
    {
      var s := r.synapses[i];
      s := s.(signal := prev[s.inputNeuronIndex].output);
      r := r.(synapses := r.synapses[i := s]);
      assert r.synapses[..i + 1][..i] == r.synapses[..i];
      activity := activity + s.weight * s.signal;
      r := r.(output := sigmoid(activity));
      i := i + 1;
    }
    assert r.synapses == Feed(n.synapses, prev);
    assert r.synapses[..i] == r.synapses;
  }

  /**
   * neuron.Train, as written: for every synapse (a range copy), add
   * n.err * weight * sigmoid_derivative(n.output) to the error of the neuron it
   * reads in the preceding layer. The weight update is made on the copy `s`
   * and is lost, so no weight changes. Returns the updated preceding layer.
   */
  method NeuronTrain(n: Neuron, prevLayer: Layer) returns (r: Layer)
    requires Wired(n.synapses, prevLayer.neurons)
    ensures r == prevLayer.(neurons := TrainNeuron(n, prevLayer.neurons))
  {
    r := prevLayer;
    var i := 0;
    while i < |n.synapses|
      invariant 0 <= i <= |n.synapses|
      invariant r == prevLayer.(neurons := Deliver(n, n.synapses[..i], prevLayer.neurons))
    {
      var s := n.synapses[i];
      DeliverStep(n, n.synapses, prevLayer.neurons, i);
      var delta := n.err * s.weight * SigmoidDerivative(n.output);
      assert delta == Contribution(n, n.synapses[i]);
      r := r.(neurons := r.neurons[s.inputNeuronIndex := r.neurons[s.inputNeuronIndex].(err := r.neurons[s.inputNeuronIndex].err + delta)]);
      // The update lands on the copy `s`, never on n.synapses[i].
      s := s.(weight := s.weight + s.signal * n.err * SigmoidDerivative(n.output));
      i := i + 1;
    }
    assert n.synapses[..i] == n.synapses;
  }

  /**
   * The inner loop of network.Train for one layer: every neuron of `ups` (a
   * range copy) trains into the preceding layer, and the layer it returns
   * replaces the preceding layer before the next neuron trains.
   */
  method LayerTrain(ups: seq<Neuron>, prevLayer: Layer) returns (r: Layer)
    requires forall j :: 0 <= j < |ups| ==> Wired(ups[j].synapses, prevLayer.neurons)
    ensures r == prevLayer.(neurons := TrainLayer(ups, prevLayer.neurons))
  {
    r := prevLayer;
    var j := 0;
    while j < |ups|
      invariant 0 <= j <= |ups|
      invariant r == prevLayer.(neurons := TrainLayer(ups[..j], prevLayer.neurons))
    {
      var neuron := ups[j];
      r := NeuronTrain(neuron, r);
      assert ups[..j + 1][..j] == ups[..j];
      j := j + 1;
    }
    assert ups[..j] == ups;
  }

  /**
   * One neuron of layer i >= 1 as NewNetwork makes it: output and error zero,
   * and one synapse per neuron of the preceding layer, whose weight is read at
   * the cursor `wi`, which advances by one per synapse. Returns false where
   * Go's `lines[wi]` is out of range and panics.
   */
  method NewNeuron(requested: seq<int>, weights: seq<real>, i: nat, j: nat, prevNeurons: seq<Neuron>, wi: nat)
    returns (neuron: Neuron, next: nat, ok: bool)
    requires 1 <= i < |requested| && j < Width(requested[i]) && |prevNeurons| == Width(requested[i - 1])
    requires wi == Cursor(requested, i, j, 0) <= |weights|
    ensures ok <==> Cursor(requested, i, j, 0) + |prevNeurons| <= |weights|
    ensures ok ==> neuron == BuildNeuron(requested, weights, i, j) && next == RowStart(requested, i, j + 1)
  {
    neuron := Neuron(0.0, [], 0.0);
    next := wi;
    var index := 0;
    while index < |prevNeurons|
      invariant 0 <= index <= |prevNeurons|
      invariant next == Cursor(requested, i, j, index) <= |weights|
      invariant |neuron.synapses| == index && neuron.output == 0.0 && neuron.err == 0.0
      invariant forall k :: 0 <= k < index ==>
                  neuron.synapses[k] == Synapse(k, weights[Cursor(requested, i, j, k)], 0.0)
    {
      if next >= |weights| {
        // lines[wi] is out of range: Go panics here.
        return neuron, next, false;
      }
      var synapse := Synapse(index, weights[next], 0.0);
      neuron := neuron.(synapses := neuron.synapses + [synapse]);
      index := index + 1;
      next := next + 1;
    }
    assert neuron == BuildNeuron(requested, weights, i, j);
    ok := true;
  }

  /**
   * Layer i as NewNetwork makes it, reading weights from the cursor `wi`
   * (where layer i's weights start); `prevNeurons` is layer i-1 as already
   * built. Returns false where Go panics for lack of weights.
   */
  method NewLayer(requested: seq<int>, weights: seq<real>, i: nat, prevNeurons: seq<Neuron>, wi: nat)
    returns (newLayer: Layer, next: nat, ok: bool)
    requires i < |requested| && wi == LayerStart(requested, i) <= |weights|
    requires i == 0 ==> prevNeurons == []
    requires i > 0 ==> |prevNeurons| == Width(requested[i - 1])
    ensures ok <==> LayerStart(requested, i + 1) <= |weights|
    ensures ok ==> (i == 0 || LayerStart(requested, i + 1) <= |weights|) &&
                   newLayer == BuildLayer(requested, weights, i) && next == LayerStart(requested, i + 1)
  {
    if i == 0 {
      newLayer := Layer(true, None, []);
    } else {
      newLayer := Layer(false, Some(i - 1), []);
    }
    next := wi;
    var j := 0;
    while j < requested[i]
      invariant 0 <= j <= Width(requested[i])
      invariant newLayer.inputLayer == (i == 0)
      invariant newLayer.previousLayer == if i == 0 then None else Some(i - 1)
      invariant |newLayer.neurons| == j
      invariant next <= |weights|
      invariant i == 0 ==> next == 0
      invariant i > 0 ==> next == RowStart(requested, i, j)
      invariant forall n :: 0 <= n < j ==>
                  (i == 0 || Cursor(requested, i, n, 0) + Width(requested[i - 1]) <= |weights|) &&
                  newLayer.neurons[n] == BuildNeuron(requested, weights, i, n)
    {
      var neuron := Neuron(0.0, [], 0.0);
      if newLayer.previousLayer.Some? {
        var built;
        neuron, next, built := NewNeuron(requested, weights, i, j, prevNeurons, next);
        if !built {
          NeuronWithinLayer(requested, i, j);
          return newLayer, next, false;
        }
      }
      newLayer := newLayer.(neurons := newLayer.neurons + [neuron]);
      j := j + 1;
    }
    if i > 0 {
      RowEnd(requested, i);
    }
    assert newLayer == BuildLayer(requested, weights, i);
    ok := true;
  }

  class Network {
    var layers: seq<Layer>

    ghost predicate Valid()
      reads this
    {
      WellFormed(layers)
    }

    /** The zero value of the Go struct: no layers. */
    constructor ()
      ensures Valid() && layers == []
    {
      layers := [];
    }

    /**
     * NewNetwork: one layer per requested width, every neuron wired to each
     * neuron of the layer before, weights taken from `weights` in layer, neuron,
     * synapse order. Where Go panics because the weight list is exhausted, the
     * method returns false at that very point, leaving a partly built network.
     */
    method NewNetwork(requested: seq<int>, weights: seq<real>) returns (ok: bool)
      modifies this
      ensures ok <==> WeightCount(requested) <= |weights|
      ensures ok ==> Valid() && layers == Build(requested, weights)
    {
      layers := seq(|requested|, _ => Layer(false, None, []));
      var wi := 0;
      var i := 0;
      while i < |requested|
        invariant 0 <= i <= |requested| == |layers|
        invariant wi == LayerStart(requested, i) <= |weights|
        invariant layers[..i] == BuildPrefix(requested, weights, i)
      {
        var prevNeurons := if i == 0 then [] else layers[i - 1].neurons;
        assert i > 0 ==> |prevNeurons| == |layers[..i][i - 1].neurons| == Width(requested[i - 1]);
        var newLayer, next, built := NewLayer(requested, weights, i, prevNeurons, wi);
        if !built {
          LayerStartMonotone(requested, i + 1, |requested|);
          return false;
        }
        BuildPrefixStep(requested, weights, i);
        assert layers[i := newLayer][..i + 1] == layers[..i] + [newLayer];
        layers := layers[i := newLayer];
        wi := next;
        i := i + 1;
      }
      ok := true;
      assert layers == layers[..i] == Build(requested, weights);
      BuildShape(requested, weights);
    }

    /** layer.Think on layer j >= 1: every neuron, in order, thinks against layer j-1. */
    method LayerThink(j: nat, sigmoid: real -> real)
      requires Valid() && 1 <= j < |layers|
      modifies this
      ensures Valid()
      ensures layers == ThinkAt(old(layers), j, sigmoid)
    {
      var prev := layers[layers[j].previousLayer.value].neurons;
      WellFormedWired(layers, j);
      var i := 0;
      while i < |layers[j].neurons|
        invariant |layers| == |old(layers)| && prev == old(layers)[j - 1].neurons
        invariant 0 <= i <= |layers[j].neurons| == |old(layers)[j].neurons|
        invariant forall m :: 0 <= m < |layers| && m != j ==> layers[m] == old(layers)[m]
        invariant layers[j].inputLayer == old(layers)[j].inputLayer
        invariant layers[j].previousLayer == old(layers)[j].previousLayer
        invariant forall k :: 0 <= k < |layers[j].neurons| ==>
                    layers[j].neurons[k] == if k < i then ThinkNeuron(old(layers)[j].neurons[k], prev, sigmoid)
                                            else old(layers)[j].neurons[k]
      {
        var n := NeuronThink(layers[j].neurons[i], prev, sigmoid);
        layers := layers[j := layers[j].(neurons := layers[j].neurons[i := n])];
        i := i + 1;
      }
      assert layers[j] == ThinkAt(old(layers), j, sigmoid)[j];
      ThinkAtTopology(old(layers), j, sigmoid);
      WellFormedTopology(old(layers), layers);
    }

    /**
     * network.Think: write the inputs into the input layer, let every later
     * layer think in order, return the output of neuron 0 of the last layer.
     */
    method Think(inputs: seq<real>, sigmoid: real -> real) returns (r: real)
      requires Valid() && 0 < |layers| && 0 < |layers[|layers| - 1].neurons| && |inputs| <= |layers[0].neurons|
      modifies this
      ensures Valid()
      ensures layers == ThinkState(old(layers), inputs, sigmoid)
      ensures r == Prediction(layers)
    {
      var j := 0;
      while j < |layers|
        invariant 0 <= j <= |layers| == |old(layers)|
        invariant Valid()
        invariant j == 0 ==> layers == old(layers)
        invariant 1 <= j ==> Propagate(layers, j, sigmoid) == ThinkState(old(layers), inputs, sigmoid)
      {
        if layers[j].inputLayer {
          assert j == 0 && layers == old(layers);
          ghost var ns := layers[0].neurons;
          assert LoadInputs(ns, inputs[..0]) == ns;
          var i := 0;
          while i < |inputs|
            invariant 0 <= i <= |inputs|
            invariant layers == old(layers)[0 := old(layers)[0].(neurons := LoadInputs(ns, inputs[..i]))]
          {
            layers := layers[0 := layers[0].(neurons := layers[0].neurons[i := layers[0].neurons[i].(output := inputs[i])])];
            assert LoadInputs(ns, inputs[..i + 1]) == LoadInputs(ns, inputs[..i])[i := ns[i].(output := inputs[i])];
            i := i + 1;
          }
          assert inputs[..i] == inputs;
          LoadInputsTopology(old(layers), inputs);
          WellFormedTopology(old(layers), layers);
        } else {
          assert 1 <= j;
          LayerThink(j, sigmoid);
        }
        j := j + 1;
      }
      r := layers[|layers| - 1].neurons[0].output;
    }

    /**
     * ResetErrors, as written: it ranges over copies of the layers and of their
     * neurons, so zeroing `err` on the copies leaves the network unchanged.
     */
    method ResetErrors()
      modifies this
      ensures layers == old(layers)
    {
      var li := 0;
      while li < |layers|
        invariant layers == old(layers)
      {
        var layer := layers[li];
        var ni := 0;
        while ni < |layer.neurons|
          invariant layers == old(layers)
        {
          var neuron := layer.neurons[ni];
          neuron := neuron.(err := 0.0);
          ni := ni + 1;
        }
        li := li + 1;
      }
    }

    /**
     * network.Train: think, store target - prediction as the error of the
     * output neuron, then let every layer from the last down to 1 train into
     * the layer before it. Returns |target - prediction|.
     */
    method Train(data: Example, sigmoid: real -> real) returns (r: real)
      requires Valid() && Trainable(layers, data)
      modifies this
      ensures Valid()
      ensures layers == TrainState(old(layers), data, sigmoid)
      ensures r == Abs(OutputError(old(layers), data, sigmoid))
    {
      ghost var target := TrainState(layers, data, sigmoid);
      ghost var e := OutputError(layers, data, sigmoid);
      var predicted := Think(data.input, sigmoid);
      var err := data.output - predicted;
      assert err == e;
      ResetErrors();
      ghost var thought := layers;
      var last := |layers| - 1;
      layers := layers[last := layers[last].(neurons := layers[last].neurons[0 := layers[last].neurons[0].(err := err)])];
      assert layers == Seed(thought, e);
      assert BackPropagate(layers, last) == target;
      SeedTopology(thought, err);
      WellFormedTopology(thought, layers);
      var i := last;
      while i > 0
        invariant 0 <= i <= last == |layers| - 1
        invariant Valid()
        invariant BackPropagate(layers, i) == target
      {
        ghost var before := layers;
        WellFormedWired(layers, i);
        var prevLayer := LayerTrain(layers[i].neurons, layers[i - 1]);
        layers := layers[i - 1 := prevLayer];
        assert layers == TrainAt(before, i);
        assert BackPropagate(layers, i - 1) == target by {
          assert BackPropagate(before, i) == BackPropagate(TrainAt(before, i), i - 1);
        }
        TrainAtTopology(before, i);
        WellFormedTopology(before, layers);
        i := i - 1;
      }
      r := Abs(err);
    }
  }
}
