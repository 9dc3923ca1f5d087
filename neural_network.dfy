/** The network object. Its topology is fixed at construction; its weights,
    biases, momentum histories, cached layer inputs and outputs and deltas are
    jagged collections that Run, Nudge and the trainer overwrite in place. */
module NeuralNetworks {
  import opened TransferFunctions
  import opened NetworkMath

  /** The exception the network and the trainer throw: an ArgumentException
      carrying a message and the name of the offending parameter ("" when the
      thrower gives none). */
  datatype Exception = ArgumentException(message: string, paramName: string)

  /** A value, or the exception thrown instead of returning it. */
  datatype Result<T> = Success(value: T) | Failure(error: Exception)

  /** The forward pass through one layer: for each unit j the weighted sum of
      the sources through column j of w plus b[j] (the layer input), and its
      activation (the layer output). */
  method ForwardLayer(w: Matrix, b: Vector, tf: TransferFunction, src: Vector) returns (pre: Vector, post: Vector)
    requires IsMatrix(w, |src|, |b|)
    ensures pre == LayerPre(w, b, src)
    ensures post == Activate(tf, pre)
  {
    pre, post := [], [];
    var j := 0;
    while j < |b|
      invariant 0 <= j <= |b| && |pre| == j && |post| == j
      invariant forall k :: 0 <= k < j ==> pre[k] == ColumnDot(w, k, src, |src|) + b[k]
      invariant forall k :: 0 <= k < j ==> post[k] == Evaluate(tf, pre[k])
    {
      var sum := 0.0;
      var i := 0;
      while i < |src|
        invariant 0 <= i <= |src|
        invariant sum == ColumnDot(w, j, src, i)
      {
        sum := sum + w[i][j] * src[i];
        i := i + 1;
      }
      sum := sum + b[j];
      pre := pre + [sum];
      post := post + [Evaluate(tf, sum)];
      j := j + 1;
    }
  }

  /** A fresh copy of v, entry by entry. */
  method Copy(v: Vector) returns (c: Vector)
    ensures c == v
  {
    c := [];
    var i := 0;
    while i < |v|
      invariant 0 <= i <= |v| && c == v[..i]
    {
      c := c + [v[i]];
      i := i + 1;
    }
  }

  /** The initial weights and biases of layer l (rows source units, width
      units): each one the standard-normal draw of its site. */
  method InitialLayer(l: nat, rows: nat, width: nat, z: Site -> real) returns (w: Matrix, b: Vector)
    ensures w == InitialWeights(l, rows, width, z) && b == InitialBias(l, width, z)
  {
    b := [];
    var j := 0;
    while j < width
      invariant 0 <= j <= width && b == InitialBias(l, j, z)
    {
      b := b + [GaussianSample(0.0, 1.0, z(BiasSite(l, j)))];
      j := j + 1;
    }
    w := [];
    var i := 0;
    while i < rows
      invariant 0 <= i <= rows && w == InitialWeights(l, i, width, z)
    {
      var row := [];
      j := 0;
      while j < width
        invariant 0 <= j <= width && row == InitialRow(l, i, j, z)
      {
        row := row + [GaussianSample(0.0, 1.0, z(WeightSite(l, i, j)))];
        j := j + 1;
      }
      w := w + [row];
      i := i + 1;
    }
  }

  /** Nudges layer l: unit by unit, every weight into the unit and then its
      bias receive noise of standard deviation proportional to their value,
      and the corresponding momentum history entries are cleared. */
  method NudgeLayer(w: Matrix, b: Vector, hw: Matrix, hb: Vector, scalar: real, z: Site -> real, l: nat)
    returns (nw: Matrix, nb: Vector, nhw: Matrix, nhb: Vector)
    requires IsMatrix(w, |w|, |b|) && IsMatrix(hw, |w|, |b|) && |hb| == |b|
    ensures nw == NudgedWeights(w, scalar, z, l) && nb == NudgedBias(b, scalar, z, l)
    ensures nhw == ZeroMatrix(|w|, |b|) && nhb == ZeroVector(|b|)
  {
    nw, nb, nhw, nhb := w, b, hw, hb;
    var j := 0;
    while j < |b|
      invariant 0 <= j <= |b|
      invariant IsMatrix(nw, |w|, |b|) && IsMatrix(nhw, |w|, |b|) && |nb| == |b| && |nhb| == |b|
      invariant forall i, k :: 0 <= i < |w| && 0 <= k < |b| ==>
        nw[i][k] == if k < j then Perturbed(w[i][k], scalar, z(WeightSite(l, i, k))) else w[i][k]
      invariant forall i, k :: 0 <= i < |w| && 0 <= k < j ==> nhw[i][k] == 0.0
      invariant forall k :: 0 <= k < |b| ==>
        nb[k] == if k < j then Perturbed(b[k], scalar, z(BiasSite(l, k))) else b[k]
      invariant forall k :: 0 <= k < j ==> nhb[k] == 0.0
    {
      var i := 0;
      while i < |w|
        invariant 0 <= i <= |w|
        invariant IsMatrix(nw, |w|, |b|) && IsMatrix(nhw, |w|, |b|)
        invariant forall r, k :: 0 <= r < |w| && 0 <= k < |b| ==>
          nw[r][k] == if k < j || (k == j && r < i) then Perturbed(w[r][k], scalar, z(WeightSite(l, r, k))) else w[r][k]
        invariant forall r, k :: 0 <= r < |w| && 0 <= k < |b| && (k < j || (k == j && r < i)) ==> nhw[r][k] == 0.0
      {
        var x := nw[i][j];
        var u := GaussianSample(0.0, x * scalar, z(WeightSite(l, i, j)));
        nw := nw[i := nw[i][j := x + u]];
        nhw := nhw[i := nhw[i][j := 0.0]];
        i := i + 1;
      }
      var y := nb[j];
      var v := GaussianSample(0.0, y * scalar, z(BiasSite(l, j)));
      nb := nb[j := y + v];
      nhb := nhb[j := 0.0];
      j := j + 1;
    }
    NudgedRows(w, nw, scalar, z, l);
    ZeroMatrixOf(nhw, |w|, |b|);
    ZeroVectorOf(nhb, |b|);
  }

  /** A matrix that agrees entry by entry with the nudged weights is them. */
  lemma NudgedRows(w: Matrix, nw: Matrix, scalar: real, z: Site -> real, l: nat)
    requires |nw| == |w| && forall i :: 0 <= i < |w| ==> |nw[i]| == |w[i]|
    requires forall i, k :: 0 <= i < |w| && 0 <= k < |w[i]| ==> nw[i][k] == Perturbed(w[i][k], scalar, z(WeightSite(l, i, k)))
    ensures nw == NudgedWeights(w, scalar, z, l)
  {
    var r := NudgedWeights(w, scalar, z, l);
    forall i | 0 <= i < |w|
      ensures nw[i] == r[i]
    {
    }
  }

  /** The forward pass of Run: layer by layer, from the input upwards, the
      cached input and output of each layer are overwritten with the values
      computed from the weights and biases and the layer below. */
  method ForwardPass(t: Topology, w: seq<Matrix>, b: seq<Vector>, input: Vector, cache: Activations)
    returns (a: Activations)
    requires Runnable(t, w, b, input) && UnitsShaped(t, cache.pre) && UnitsShaped(t, cache.post)
    ensures a == NetworkMath.Run(t, w, b, input)
  {
    var pre, post := cache.pre, cache.post;
    var l := 0;
    while l < t.LayerCount()
      invariant 0 <= l <= t.LayerCount() && |pre| == |post| == t.LayerCount()
      invariant CachedBelow(t, w, b, input, pre, post, l)
    {
      var src := input;
      if l != 0 {
        CachedSource(t, w, b, input, pre, post, l);
        src := post[l - 1];
      }
      var layerPre, layerPost := ForwardLayer(w[l], b[l], t.transferFunction[l], src);
      CachedStep(t, w, b, input, pre, post, l, layerPre, layerPost);
      pre := pre[l := layerPre];
      post := post[l := layerPost];
      l := l + 1;
    }
    CachesAreRun(t, w, b, input, pre, post);
    a := Activations(pre, post);
  }

  /** Layers below l of q are nudged, the others still those of p. */
  ghost predicate NudgedBelow(t: Topology, p: Parameters, scalar: real, z: Site -> real, q: Parameters, l: nat)
    requires Shaped(t, p)
  {
    var r := Nudged(t, p, scalar, z);
    l <= t.LayerCount()
    && |q.weight| == |q.bias| == |q.previousWeightDelta| == |q.previousBiasDelta| == t.LayerCount()
    && (forall k :: 0 <= k < l ==> q.weight[k] == r.weight[k] && q.bias[k] == r.bias[k])
    && (forall k :: 0 <= k < l ==> q.previousWeightDelta[k] == r.previousWeightDelta[k])
    && (forall k :: 0 <= k < l ==> q.previousBiasDelta[k] == r.previousBiasDelta[k])
    && (forall k :: l <= k < t.LayerCount() ==> q.weight[k] == p.weight[k] && q.bias[k] == p.bias[k])
    && (forall k :: l <= k < t.LayerCount() ==> q.previousWeightDelta[k] == p.previousWeightDelta[k])
    && (forall k :: l <= k < t.LayerCount() ==> q.previousBiasDelta[k] == p.previousBiasDelta[k])
  }

  /** Storing the nudged layer l extends the nudged prefix by one layer. */
  lemma NudgedStored(t: Topology, p: Parameters, scalar: real, z: Site -> real, q: Parameters, l: nat,
                     nw: Matrix, nb: Vector, nhw: Matrix, nhb: Vector)
    requires Shaped(t, p) && l < t.LayerCount() && NudgedBelow(t, p, scalar, z, q, l)
    requires nw == NudgedWeights(p.weight[l], scalar, z, l) && nb == NudgedBias(p.bias[l], scalar, z, l)
    requires nhw == ZeroMatrix(|p.weight[l]|, |p.bias[l]|) && nhb == ZeroVector(|p.bias[l]|)
    ensures NudgedBelow(t, p, scalar, z, Parameters(q.weight[l := nw], q.bias[l := nb],
                                                    q.previousWeightDelta[l := nhw], q.previousBiasDelta[l := nhb]), l + 1)
  {
    var r := Nudged(t, p, scalar, z);
    assert r.previousWeightDelta[l] == ZeroWeights(t)[l] == nhw;
    assert r.previousBiasDelta[l] == ZeroUnits(t)[l] == nhb;
  }

  /** Nudge's loop over the layers: each layer's weights and biases perturbed
      and its histories cleared, in place. */
  method NudgeAll(t: Topology, p: Parameters, scalar: real, z: Site -> real) returns (q: Parameters)
    requires Shaped(t, p)
    ensures q == Nudged(t, p, scalar, z)
  {
    q := p;
    var l := 0;
    while l < t.LayerCount()
      invariant NudgedBelow(t, p, scalar, z, q, l)
    {
      var nw, nb, nhw, nhb := NudgeLayer(q.weight[l], q.bias[l], q.previousWeightDelta[l], q.previousBiasDelta[l], scalar, z, l);
      NudgedStored(t, p, scalar, z, q, l, nw, nb, nhw, nhb);
      q := Parameters(q.weight[l := nw], q.bias[l := nb], q.previousWeightDelta[l := nhw], q.previousBiasDelta[l := nhb]);
      l := l + 1;
    }
    NudgedAll(t, p, scalar, z, q);
  }

  /** A fully nudged prefix is the nudged parameters. */
  lemma NudgedAll(t: Topology, p: Parameters, scalar: real, z: Site -> real, q: Parameters)
    requires Shaped(t, p) && NudgedBelow(t, p, scalar, z, q, t.LayerCount())
    ensures q == Nudged(t, p, scalar, z)
  {
    var r := Nudged(t, p, scalar, z);
    assert q.weight == r.weight && q.bias == r.bias;
    assert q.previousWeightDelta == r.previousWeightDelta && q.previousBiasDelta == r.previousBiasDelta;
  }

  /** The constructor's initialisation loop: for each layer its biases and
      then its weights are drawn, and its histories are zero. */
  method InitialParameters(t: Topology, z: Site -> real) returns (p: Parameters)
    requires t.Valid()
    ensures p == Initial(t, z)
  {
    p := Parameters([], [], [], []);
    var l := 0;
    while l < t.LayerCount()
      invariant 0 <= l <= t.LayerCount()
      invariant p == InitialLayers(t, z, l)
    {
      var rows := t.InWidth(l);
      var lw, lb := InitialLayer(l, rows, t.layerSize[l], z);
      p := Parameters(p.weight + [lw], p.bias + [lb],
                      p.previousWeightDelta + [ZeroMatrix(rows, t.layerSize[l])],
                      p.previousBiasDelta + [ZeroVector(t.layerSize[l])]);
      l := l + 1;
    }
  }

  class NeuralNetwork {
    const inputSize: nat
    const layerCount: nat
    const layerSize: seq<nat>
    const transferFunction: seq<TransferFunction>

    var weight: seq<Matrix>
    var bias: seq<Vector>
    var previousWeightDelta: seq<Matrix>
    var previousBiasDelta: seq<Vector>
    var layerInput: seq<Vector>
    var layerOutput: seq<Vector>
    var delta: seq<Vector>

    function Shape(): Topology
    {
      Topology(inputSize, layerSize, transferFunction)
    }

    /** Weights, biases and both momentum histories. */
    function ParameterState(): Parameters
      reads this
    {
      Parameters(weight, bias, previousWeightDelta, previousBiasDelta)
    }

    /** At least one computed layer, and every collection of its topology's shape. */
    ghost predicate Valid()
      reads this
    {
      layerCount == |layerSize|
      && Shaped(Shape(), ParameterState())
      && UnitsShaped(Shape(), layerInput) && UnitsShaped(Shape(), layerOutput)
      && UnitsShaped(Shape(), delta)
    }

    /** The constructor once its arguments have been accepted: layer 0 of
        layerSizes is the input layer, every other entry a computed layer;
        weights and biases are standard-normal draws, everything else zero. */
    constructor (layerSizes: seq<nat>, transferFunctions: seq<TransferFunction>, z: Site -> real)
      requires 2 <= |layerSizes| == |transferFunctions| && transferFunctions[0] == None
      ensures Valid()
      ensures Shape() == Topology(layerSizes[0], layerSizes[1..], transferFunctions[1..])
      ensures ParameterState() == Initial(Shape(), z)
      ensures layerInput == ZeroUnits(Shape()) && layerOutput == ZeroUnits(Shape()) && delta == ZeroUnits(Shape())
    {
      var t := Topology(layerSizes[0], layerSizes[1..], transferFunctions[1..]);
      var p := InitialParameters(t, z);
      var zeros := ZeroUnits(t);
      layerCount := |layerSizes| - 1;
      inputSize, layerSize, transferFunction := t.inputSize, t.layerSize, t.transferFunction;
      weight, bias, previousWeightDelta, previousBiasDelta := p.weight, p.bias, p.previousWeightDelta, p.previousBiasDelta;
      layerInput, layerOutput, delta := zeros, zeros, zeros;
    }

    /** Runs the network on input: throws when the input has the wrong length;
        otherwise overwrites every cached layer input and output with the
        forward pass of the current parameters and returns a copy of the last
        layer's output. */
    method Run(input: Vector) returns (r: Result<Vector>)
      requires Valid()
      modifies this
      ensures Valid()
      ensures r.Failure? <==> |input| != inputSize
      ensures r.Failure? ==>
        r.error == ArgumentException("Input data is not of the correct dimension.", "") && unchanged(this)
      ensures r.Success? ==>
        Activations(layerInput, layerOutput) == NetworkMath.Run(Shape(), weight, bias, input)
        && r.value == layerOutput[layerCount - 1]
      ensures ParameterState() == old(ParameterState()) && delta == old(delta)
    {
      if |input| != inputSize {
        return Failure(ArgumentException("Input data is not of the correct dimension.", ""));
      }
      var a := ForwardPass(Shape(), weight, bias, input, Activations(layerInput, layerOutput));
      layerInput, layerOutput := a.pre, a.post;
      var output := Copy(layerOutput[layerCount - 1]);
      return Success(output);
    }

    /** Perturbs every weight and bias with noise proportional to its value
        (draw z of its site) and clears both momentum histories; caches and
        deltas are left as they were. */
    method Nudge(scalar: real, z: Site -> real)
      requires Valid()
      modifies this
      ensures Valid()
      ensures ParameterState() == Nudged(Shape(), old(ParameterState()), scalar, z)
      ensures layerInput == old(layerInput) && layerOutput == old(layerOutput) && delta == old(delta)
    {
      var q := NudgeAll(Shape(), ParameterState(), scalar, z);
      weight, bias, previousWeightDelta, previousBiasDelta := q.weight, q.bias, q.previousWeightDelta, q.previousBiasDelta;
    }

    function GetInputSize(): (n: nat)
      requires Valid()
      reads this
      ensures n == Shape().InWidth(0)
    {
      inputSize
    }

    function GetLayerCount(): (n: nat)
      requires Valid()
      reads this
      ensures 1 <= n && n == |GetLayerSize()| == |GetTransferFunctions()|
    {
      layerCount
    }

    function GetLayerSize(): seq<nat>
    {
      layerSize
    }

    function GetTransferFunctions(): seq<TransferFunction>
    {
      transferFunction
    }

    function GetDelta(): (d: seq<Vector>)
      requires Valid()
      reads this
      ensures UnitsShaped(Shape(), d)
    {
      delta
    }

    function GetLayerInput(): (v: seq<Vector>)
      requires Valid()
      reads this
      ensures UnitsShaped(Shape(), v)
    {
      layerInput
    }

    function GetLayerOutput(): (v: seq<Vector>)
      requires Valid()
      reads this
      ensures UnitsShaped(Shape(), v)
    {
      layerOutput
    }

    function GetBias(): (v: seq<Vector>)
      requires Valid()
      reads this
      ensures UnitsShaped(Shape(), v)
    {
      bias
    }

    function GetPreviousBias(): (v: seq<Vector>)
      requires Valid()
      reads this
      ensures UnitsShaped(Shape(), v)
    {
      previousBiasDelta
    }

    function GetWeights(): (m: seq<Matrix>)
      requires Valid()
      reads this
      ensures WeightsShaped(Shape(), m)
    {
      weight
    }

    function GetPreviousWeight(): (m: seq<Matrix>)
      requires Valid()
      reads this
      ensures WeightsShaped(Shape(), m)
    {
      previousWeightDelta
    }
  }

  /** The public constructor: rejects transfer functions that do not match the
      layer sizes one for one or give the input layer an activation, and
      otherwise builds the network. */
  method Create(layerSizes: seq<nat>, transferFunctions: seq<TransferFunction>, z: Site -> real)
    returns (r: Result<NeuralNetwork>)
    requires 2 <= |layerSizes|
    ensures r.Failure? <==> |transferFunctions| != |layerSizes| || transferFunctions[0] != None
    ensures r.Failure? ==> r.error == ArgumentException("Cannot construct a network with these parameters.", "")
    ensures r.Success? ==>
      fresh(r.value) && r.value.Valid()
      && r.value.Shape() == Topology(layerSizes[0], layerSizes[1..], transferFunctions[1..])
      && r.value.ParameterState() == Initial(r.value.Shape(), z)
      && r.value.layerInput == r.value.layerOutput == r.value.delta == ZeroUnits(r.value.Shape())
  {
    if |transferFunctions| != |layerSizes| || transferFunctions[0] != None {
      return Failure(ArgumentException("Cannot construct a network with these parameters.", ""));
    }
    var n := new NeuralNetwork(layerSizes, transferFunctions, z);
    return Success(n);
  }
}
