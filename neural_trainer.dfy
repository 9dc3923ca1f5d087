/** Online back-propagation with momentum. The trainer holds a network and
    works directly on its weights, biases, histories, caches and deltas: one
    call runs the network on an example, propagates the error from the output
    layer down, and then updates every weight and every bias. */
module NeuralTrainers {
  import opened TransferFunctions
  import opened NetworkMath
  import opened NeuralNetworks

  // ------------------------------------------------------------------ deltas

  /** The output layer's deltas, unit by unit: the raw error is stored, its
      square is added to the error, and it is then scaled by the derivative at
      the unit's cached input. */
  method OutputLayerDelta(tf: TransferFunction, pre: Vector, output: Vector, desired: Vector, delta: Vector)
    returns (d: Vector, error: real)
    requires |pre| == |output| == |desired| == |delta|
    ensures d == OutputDelta(tf, pre, output, desired)
    ensures error == SquaredError(output, desired, |desired|)
  {
    d, error := delta, 0.0;
    var k := 0;
    while k < |desired|
      invariant 0 <= k <= |desired| && |d| == |desired|
      invariant forall i :: 0 <= i < k ==> d[i] == ScaledByDerivative(tf, pre[i], output[i] - desired[i])
      invariant error == SquaredError(output, desired, k)
    {
      d := d[k := output[k] - desired[k]];
      error := error + Square(d[k]);
      d := d[k := ScaledByDerivative(tf, pre[k], d[k])];
      k := k + 1;
    }
  }

  /** A hidden layer's deltas, unit by unit: the next layer's deltas summed
      through the weights out of the unit, times the derivative at the unit's
      cached input. */
  method HiddenLayerDelta(tf: TransferFunction, pre: Vector, nextWeight: Matrix, nextDelta: Vector, delta: Vector)
    returns (d: Vector)
    requires IsMatrix(nextWeight, |pre|, |nextDelta|) && |delta| == |pre|
    ensures d == HiddenDelta(tf, pre, nextWeight, nextDelta)
  {
    d := delta;
    var i := 0;
    while i < |pre|
      invariant 0 <= i <= |pre| && |d| == |pre|
      invariant forall k :: 0 <= k < i ==>
        d[k] == ScaledByDerivative(tf, pre[k], RowDot(nextWeight[k], nextDelta, |nextDelta|))
    {
      var sum := 0.0;
      var j := 0;
      while j < |nextDelta|
        invariant 0 <= j <= |nextDelta|
        invariant sum == RowDot(nextWeight[i], nextDelta, j)
      {
        sum := sum + nextWeight[i][j] * nextDelta[j];
        j := j + 1;
      }
      sum := ScaledByDerivative(tf, pre[i], sum);
      d := d[i := sum];
      i := i + 1;
    }
  }

  /** The backward pass: from the output layer down to layer 0, each layer's
      deltas are overwritten, a hidden layer reading the deltas just written
      for the layer above it. Only the output layer adds to the error. */
  method BackPropagate(t: Topology, w: seq<Matrix>, a: Activations, output: Vector, desired: Vector, delta: seq<Vector>)
    returns (ds: seq<Vector>, error: real)
    requires t.Valid() && WeightsShaped(t, w) && UnitsShaped(t, a.pre) && UnitsShaped(t, a.post)
    requires UnitsShaped(t, delta) && |desired| == t.OutputWidth()
    requires output == a.post[t.LayerCount() - 1]
    ensures ds == Deltas(t, w, a, desired)
    ensures error == SquaredError(output, desired, |desired|)
  {
    var n := t.LayerCount();
    ds, error := delta, 0.0;
    var l := n;
    while l > 0
      invariant 0 <= l <= n && UnitsShaped(t, ds)
      invariant forall k :: l <= k < n ==> ds[k] == Delta(t, w, a, desired, k)
      invariant l < n ==> error == SquaredError(output, desired, |desired|)
    {
      l := l - 1;
      var d;
      if l == n - 1 {
        d, error := OutputLayerDelta(t.transferFunction[l], a.pre[l], output, desired, ds[l]);
      } else {
        d := HiddenLayerDelta(t.transferFunction[l], a.pre[l], w[l + 1], ds[l + 1], ds[l]);
      }
      DeltaStored(t, w, a, desired, ds, l, d);
      ds := ds[l := d];
    }
    DeltasOf(t, w, a, desired, ds);
  }

  /** Storing the deltas of layer l over vectors that already hold those of
      the layers above it yields vectors that hold layer l and up. */
  lemma DeltaStored(t: Topology, w: seq<Matrix>, a: Activations, desired: Vector, ds: seq<Vector>, l: nat, d: Vector)
    requires t.Valid() && WeightsShaped(t, w) && UnitsShaped(t, a.pre) && UnitsShaped(t, a.post)
    requires |desired| == t.OutputWidth() && UnitsShaped(t, ds) && l < t.LayerCount()
    requires forall k :: l < k < t.LayerCount() ==> ds[k] == Delta(t, w, a, desired, k)
    requires d == Delta(t, w, a, desired, l)
    ensures UnitsShaped(t, ds[l := d])
    ensures forall k :: l <= k < t.LayerCount() ==> ds[l := d][k] == Delta(t, w, a, desired, k)
  {
  }

  /** Vectors that agree with every layer's deltas are the deltas. */
  lemma DeltasOf(t: Topology, w: seq<Matrix>, a: Activations, desired: Vector, ds: seq<Vector>)
    requires t.Valid() && WeightsShaped(t, w) && UnitsShaped(t, a.pre) && UnitsShaped(t, a.post)
    requires |desired| == t.OutputWidth() && |ds| == t.LayerCount()
    requires forall l :: 0 <= l < t.LayerCount() ==> ds[l] == Delta(t, w, a, desired, l)
    ensures ds == Deltas(t, w, a, desired)
  {
  }

  // ----------------------------------------------------------------- updates

  /** The weights out of one source unit of value s: each weight is lowered
      by its weight change, which is then kept as the new history entry. */
  method UpdateRow(row: Vector, previous: Vector, d: Vector, s: real, rate: real, momentum: real)
    returns (r: Vector, h: Vector)
    requires |row| == |previous| == |d|
    ensures r == UpdatedRow(row, previous, d, s, rate, momentum)
    ensures h == HistoryRow(previous, d, s, rate, momentum)
  {
    r, h := row, previous;
    var j := 0;
    while j < |d|
      invariant 0 <= j <= |d| && |r| == |h| == |d|
      invariant forall k :: 0 <= k < j ==>
        h[k] == WeightChange(rate, d[k], s, momentum, previous[k]) && r[k] == row[k] - h[k]
      invariant forall k :: j <= k < |d| ==> r[k] == row[k] && h[k] == previous[k]
    {
      var weightDelta := rate * d[j] * s + momentum * h[j];
      r := r[j := r[j] - weightDelta];
      h := h[j := weightDelta];
      j := j + 1;
    }
  }

  /** The weight update of one layer, source unit by source unit. */
  method UpdateLayerWeights(w: Matrix, previous: Matrix, d: Vector, src: Vector, rate: real, momentum: real)
    returns (nw: Matrix, nh: Matrix)
    requires IsMatrix(w, |src|, |d|) && IsMatrix(previous, |src|, |d|)
    ensures nw == UpdatedWeights(w, previous, d, src, rate, momentum)
    ensures nh == WeightHistory(previous, d, src, rate, momentum)
  {
    nw, nh := w, previous;
    var i := 0;
    while i < |src|
      invariant 0 <= i <= |src| && |nw| == |nh| == |src|
      invariant forall k :: 0 <= k < i ==>
        nw[k] == UpdatedRow(w[k], previous[k], d, src[k], rate, momentum)
        && nh[k] == HistoryRow(previous[k], d, src[k], rate, momentum)
      invariant forall k :: i <= k < |src| ==> nw[k] == w[k] && nh[k] == previous[k]
    {
      var r, h := UpdateRow(nw[i], nh[i], d, src[i], rate, momentum);
      nw, nh := nw[i := r], nh[i := h];
      i := i + 1;
    }
  }

  /** The bias update of one layer: each bias is lowered by the gradient step
      plus momentum times its history, and the history keeps the gradient
      step alone. */
  method UpdateLayerBias(b: Vector, previous: Vector, d: Vector, rate: real, momentum: real)
    returns (nb: Vector, nh: Vector)
    requires |b| == |previous| == |d|
    ensures nb == UpdatedBias(b, previous, d, rate, momentum)
    ensures nh == BiasHistory(d, rate)
  {
    nb, nh := b, previous;
    var i := 0;
    while i < |d|
      invariant 0 <= i <= |d| && |nb| == |nh| == |d|
      invariant forall k :: 0 <= k < i ==>
        nb[k] == b[k] - BiasChange(rate, d[k], momentum, previous[k]) && nh[k] == GradientStep(rate, d[k])
      invariant forall k :: i <= k < |d| ==> nb[k] == b[k] && nh[k] == previous[k]
    {
      var biasDelta := rate * d[i];
      nb := nb[i := nb[i] - (biasDelta + momentum * nh[i])];
      nh := nh[i := biasDelta];
      i := i + 1;
    }
  }

  /** Layers below l of w and hw hold the updated weights and history, the
      others still those of p. */
  ghost predicate WeightsUpdatedBelow(t: Topology, p: Parameters, ds: seq<Vector>, ss: seq<Vector>, rate: real, momentum: real,
                                      w: seq<Matrix>, hw: seq<Matrix>, l: nat)
    requires Shaped(t, p) && UnitsShaped(t, ds)
    requires |ss| == t.LayerCount() && forall k :: 0 <= k < |ss| ==> |ss[k]| == t.InWidth(k)
  {
    var q := Updated(t, p, ds, ss, rate, momentum);
    l <= t.LayerCount() && |w| == |hw| == t.LayerCount()
    && (forall k :: 0 <= k < l ==> w[k] == q.weight[k] && hw[k] == q.previousWeightDelta[k])
    && (forall k :: l <= k < t.LayerCount() ==> w[k] == p.weight[k] && hw[k] == p.previousWeightDelta[k])
  }

  /** Storing the updated layer l extends the updated prefix by one layer. */
  lemma WeightsStored(t: Topology, p: Parameters, ds: seq<Vector>, ss: seq<Vector>, rate: real, momentum: real,
                      w: seq<Matrix>, hw: seq<Matrix>, l: nat, nw: Matrix, nh: Matrix)
    requires Shaped(t, p) && UnitsShaped(t, ds)
    requires |ss| == t.LayerCount() && forall k :: 0 <= k < |ss| ==> |ss[k]| == t.InWidth(k)
    requires l < t.LayerCount() && WeightsUpdatedBelow(t, p, ds, ss, rate, momentum, w, hw, l)
    requires nw == UpdatedWeights(p.weight[l], p.previousWeightDelta[l], ds[l], ss[l], rate, momentum)
    requires nh == WeightHistory(p.previousWeightDelta[l], ds[l], ss[l], rate, momentum)
    ensures WeightsUpdatedBelow(t, p, ds, ss, rate, momentum, w[l := nw], hw[l := nh], l + 1)
  {
  }

  /** Once every layer is updated, w and hw are the updated weights and history. */
  lemma WeightsUpdated(t: Topology, p: Parameters, ds: seq<Vector>, ss: seq<Vector>, rate: real, momentum: real,
                       w: seq<Matrix>, hw: seq<Matrix>)
    requires Shaped(t, p) && UnitsShaped(t, ds)
    requires |ss| == t.LayerCount() && forall k :: 0 <= k < |ss| ==> |ss[k]| == t.InWidth(k)
    requires WeightsUpdatedBelow(t, p, ds, ss, rate, momentum, w, hw, t.LayerCount())
    ensures var q := Updated(t, p, ds, ss, rate, momentum);
      w == q.weight && hw == q.previousWeightDelta
  {
    var q := Updated(t, p, ds, ss, rate, momentum);
    assert w == q.weight;
    assert hw == q.previousWeightDelta;
  }

  /** The first update loop: layer by layer, the weights and their history,
      with layer l fed by the input (l = 0) or the cached output of layer l - 1. */
  method UpdateAllWeights(t: Topology, p: Parameters, input: Vector, post: seq<Vector>, ds: seq<Vector>,
                          rate: real, momentum: real)
    returns (w: seq<Matrix>, hw: seq<Matrix>)
    requires Shaped(t, p) && UnitsShaped(t, ds) && |input| == t.inputSize && UnitsShaped(t, post)
    ensures var q := Updated(t, p, ds, CachedSources(t, input, post), rate, momentum);
      w == q.weight && hw == q.previousWeightDelta
  {
    var ss := CachedSources(t, input, post);
    w, hw := p.weight, p.previousWeightDelta;
    var l := 0;
    while l < t.LayerCount()
      invariant WeightsUpdatedBelow(t, p, ds, ss, rate, momentum, w, hw, l)
    {
      var nw, nh := UpdateLayerWeights(w[l], hw[l], ds[l], ss[l], rate, momentum);
      WeightsStored(t, p, ds, ss, rate, momentum, w, hw, l, nw, nh);
      w, hw := w[l := nw], hw[l := nh];
      l := l + 1;
    }
    WeightsUpdated(t, p, ds, ss, rate, momentum, w, hw);
  }

  /** The second update loop: layer by layer, the biases and their history. */
  method UpdateAllBiases(t: Topology, p: Parameters, ds: seq<Vector>, rate: real, momentum: real)
    returns (b: seq<Vector>, hb: seq<Vector>)
    requires Shaped(t, p) && UnitsShaped(t, ds)
    ensures var n := t.LayerCount();
      |b| == |hb| == n
      && (forall l :: 0 <= l < n ==> b[l] == UpdatedBias(p.bias[l], p.previousBiasDelta[l], ds[l], rate, momentum))
      && (forall l :: 0 <= l < n ==> hb[l] == BiasHistory(ds[l], rate))
  {
    var n := t.LayerCount();
    b, hb := p.bias, p.previousBiasDelta;
    var l := 0;
    while l < n
      invariant 0 <= l <= n && |b| == |hb| == n
      invariant forall k :: 0 <= k < l ==>
        b[k] == UpdatedBias(p.bias[k], p.previousBiasDelta[k], ds[k], rate, momentum)
        && hb[k] == BiasHistory(ds[k], rate)
      invariant forall k :: l <= k < n ==> b[k] == p.bias[k] && hb[k] == p.previousBiasDelta[k]
    {
      var nb, nh := UpdateLayerBias(b[l], hb[l], ds[l], rate, momentum);
      b, hb := b[l := nb], hb[l := nh];
      l := l + 1;
    }
  }

  /** Both update loops, weights first: the parameters the deltas and the
      cached sources drive them to. */
  method UpdateAll(t: Topology, p: Parameters, input: Vector, post: seq<Vector>, ds: seq<Vector>,
                   rate: real, momentum: real)
    returns (q: Parameters)
    requires Shaped(t, p) && UnitsShaped(t, ds) && |input| == t.inputSize && UnitsShaped(t, post)
    ensures q == Updated(t, p, ds, CachedSources(t, input, post), rate, momentum)
  {
    var w, hw := UpdateAllWeights(t, p, input, post, ds, rate, momentum);
    var b, hb := UpdateAllBiases(t, p, ds, rate, momentum);
    q := Parameters(w, b, hw, hb);
  }

  /** What a training step does once the forward pass has filled the caches
      a and returned output: the backward pass over the old deltas, then both
      update loops. Together they are the training step. */
  method TrainOnCaches(t: Topology, p: Parameters, input: Vector, desired: Vector, rate: real, momentum: real,
                       a: Activations, output: Vector, delta: seq<Vector>)
    returns (s: Step)
    requires Shaped(t, p) && |input| == t.inputSize && |desired| == t.OutputWidth()
    requires a == NetworkMath.Run(t, p.weight, p.bias, input) && output == a.post[t.LayerCount() - 1]
    requires UnitsShaped(t, delta)
    ensures s == TrainStep(t, p, input, desired, rate, momentum)
    ensures Shaped(t, s.parameters) && UnitsShaped(t, s.deltas) && s.activations == a
  {
    var ds, error := BackPropagate(t, p.weight, a, output, desired, delta);
    var q := UpdateAll(t, p, input, a.post, ds, rate, momentum);
    LastLayerWidth(t, a.post);
    TrainStepFromCaches(t, p, input, desired, rate, momentum, a, ds);
    TrainStepError(t, p, input, desired, rate, momentum, output);
    s := Step(q, a, ds, error);
  }

  /** A training step read off the caches its forward pass leaves behind. */
  lemma TrainStepFromCaches(t: Topology, p: Parameters, input: Vector, desired: Vector, rate: real, momentum: real,
                            a: Activations, ds: seq<Vector>)
    requires Shaped(t, p) && |input| == t.inputSize && |desired| == t.OutputWidth()
    requires a == NetworkMath.Run(t, p.weight, p.bias, input)
    requires ds == Deltas(t, p.weight, a, desired)
    ensures var s := TrainStep(t, p, input, desired, rate, momentum);
      s.activations == a && s.deltas == ds
      && s.parameters == Updated(t, p, ds, CachedSources(t, input, a.post), rate, momentum)
  {
    TrainStepParts(t, p, input, desired, rate, momentum);
    SourcesAreCached(t, p.weight, p.bias, input);
  }

  /** The error a training step reports is the squared error of the output
      its forward pass returns. */
  lemma TrainStepError(t: Topology, p: Parameters, input: Vector, desired: Vector, rate: real, momentum: real,
                       output: Vector)
    requires Shaped(t, p) && |input| == t.inputSize && |desired| == t.OutputWidth()
    requires output == NetworkMath.Run(t, p.weight, p.bias, input).post[t.LayerCount() - 1]
    requires |output| == |desired|
    ensures TrainStep(t, p, input, desired, rate, momentum).error == SquaredError(output, desired, |desired|)
  {
    TrainStepParts(t, p, input, desired, rate, momentum);
    OutputErrorOf(t, NetworkMath.Run(t, p.weight, p.bias, input).post, desired, output);
  }

  // ----------------------------------------------------------------- trainer

  class NeuralTrainer {
    const network: NeuralNetwork
    const inputSize: nat
    const layerSize: seq<nat>
    const layerCount: nat
    const transferFunction: seq<TransferFunction>

    /** The trainer's copy of the topology is the network's. */
    ghost predicate Valid()
      reads network
    {
      network.Valid()
      && inputSize == network.inputSize && layerSize == network.layerSize
      && layerCount == network.layerCount && transferFunction == network.transferFunction
    }

    /** Binds the trainer to network n and reads its topology. */
    constructor (n: NeuralNetwork)
      requires n.Valid()
      ensures network == n && Valid()
    {
      network := n;
      inputSize := n.GetInputSize();
      layerSize := n.GetLayerSize();
      layerCount := n.GetLayerCount();
      transferFunction := n.GetTransferFunctions();
    }

    /** One back-propagation step on (input, desired). Either argument of the
        wrong length is rejected before anything changes; otherwise the
        network's caches, deltas, weights, biases and histories become those
        of the training step, whose squared output error is returned. */
    method BackPropagationTrain(input: Vector, desired: Vector, rate: real, momentum: real) returns (r: Result<real>)
      requires Valid()
      modifies network
      ensures Valid()
      ensures r.Failure? <==> |input| != inputSize || |desired| != layerSize[layerCount - 1]
      ensures r.Failure? ==> unchanged(network)
      ensures r.Failure? ==>
        r.error == ArgumentException("Invalid input parameter", if |input| != inputSize then "input" else "desired")
      ensures r.Success? ==>
        var s := TrainStep(network.Shape(), old(network.ParameterState()), input, desired, rate, momentum);
        network.ParameterState() == s.parameters && network.delta == s.deltas
        && Activations(network.layerInput, network.layerOutput) == s.activations
        && r.value == s.error
    {
      if |input| != inputSize {
        return Failure(ArgumentException("Invalid input parameter", "input"));
      }
      if |desired| != layerSize[layerCount - 1] {
        return Failure(ArgumentException("Invalid input parameter", "desired"));
      }
      var t := network.Shape();
      var output := network.Run(input);
      var p := network.ParameterState();
      var a := Activations(network.layerInput, network.layerOutput);
      var step := TrainOnCaches(t, p, input, desired, rate, momentum, a, output.value, network.delta);
      network.delta := step.deltas;
      network.weight, network.bias := step.parameters.weight, step.parameters.bias;
      network.previousWeightDelta, network.previousBiasDelta :=
        step.parameters.previousWeightDelta, step.parameters.previousBiasDelta;
      return Success(step.error);
    }
  }
}
