/** The numbers a feed-forward network holds and computes, as values: the
    topology, the per-layer parameters, the forward pass, the back-propagated
    deltas, one training step with momentum, and the random perturbation. The
    classes in NeuralNetworks and NeuralTrainers are proved against these
    definitions. */
module NetworkMath {
  import opened TransferFunctions

  type Vector = seq<real>

  /** One layer's weights: row i holds the connections from source unit i,
      column j those into destination unit j. */
  type Matrix = seq<Vector>

  /** Layer widths and activations of a network whose computed layers are
      numbered 0 .. |layerSize| - 1; the input layer is not counted. */
  datatype Topology = Topology(inputSize: nat, layerSize: seq<nat>, transferFunction: seq<TransferFunction>)
  {
    predicate Valid()
    {
      1 <= |layerSize| && |transferFunction| == |layerSize|
    }

    function LayerCount(): nat
    {
      |layerSize|
    }

    /** Number of source units of layer l: the network input for layer 0,
        the previous layer's units otherwise. */
    function InWidth(l: nat): nat
      requires l < |layerSize|
    {
      if l == 0 then inputSize else layerSize[l - 1]
    }

    function OutputWidth(): nat
      requires Valid()
    {
      layerSize[LayerCount() - 1]
    }
  }

  predicate IsMatrix(m: Matrix, rows: nat, columns: nat)
  {
    |m| == rows && forall i :: 0 <= i < rows ==> |m[i]| == columns
  }

  /** One matrix per layer, of InWidth(l) rows of layerSize[l] entries. */
  predicate WeightsShaped(t: Topology, w: seq<Matrix>)
  {
    |w| == |t.layerSize| && forall l {:trigger w[l]} :: 0 <= l < |w| ==> IsMatrix(w[l], t.InWidth(l), t.layerSize[l])
  }

  /** One vector per layer, of layerSize[l] entries. */
  predicate UnitsShaped(t: Topology, v: seq<Vector>)
  {
    |v| == |t.layerSize| && forall l {:trigger v[l]} :: 0 <= l < |v| ==> |v[l]| == t.layerSize[l]
  }

  /** The last of the per-layer vectors is as wide as the network's output. */
  lemma LastLayerWidth(t: Topology, v: seq<Vector>)
    requires t.Valid() && UnitsShaped(t, v)
    ensures |v[t.LayerCount() - 1]| == t.OutputWidth()
  {
  }

  /** The trainable state: weights, biases and the two momentum histories. */
  datatype Parameters = Parameters(
    weight: seq<Matrix>,
    bias: seq<Vector>,
    previousWeightDelta: seq<Matrix>,
    previousBiasDelta: seq<Vector>)

  predicate Shaped(t: Topology, p: Parameters)
  {
    t.Valid()
    && WeightsShaped(t, p.weight) && WeightsShaped(t, p.previousWeightDelta)
    && UnitsShaped(t, p.bias) && UnitsShaped(t, p.previousBiasDelta)
  }

  /** The caches of a forward pass: pre-activations (layer inputs) and
      post-activations (layer outputs). */
  datatype Activations = Activations(pre: seq<Vector>, post: seq<Vector>)

  // ---------------------------------------------------------------- forward

  /** Sum over the first n source units i of w[i][j] * src[i]. */
  function ColumnDot(w: Matrix, j: nat, src: Vector, n: nat): real
    requires n <= |w| && n <= |src|
    requires forall i :: 0 <= i < n ==> j < |w[i]|
  {
    if n == 0 then 0.0 else ColumnDot(w, j, src, n - 1) + w[n - 1][j] * src[n - 1]
  }

  /** The pre-activation of a layer with weights w and biases b fed by src:
      for each unit j, the bias plus the weighted sum of the sources. A layer
      with no sources sees only its biases. */
  function LayerPre(w: Matrix, b: Vector, src: Vector): (pre: Vector)
    requires IsMatrix(w, |src|, |b|)
    ensures |pre| == |b|
    ensures |src| == 0 ==> pre == b
  {
    seq(|b|, j requires 0 <= j < |b| => ColumnDot(w, j, src, |src|) + b[j])
  }

  function Activate(tf: TransferFunction, pre: Vector): Vector
  {
    seq(|pre|, j requires 0 <= j < |pre| => Evaluate(tf, pre[j]))
  }

  predicate Runnable(t: Topology, w: seq<Matrix>, b: seq<Vector>, input: Vector)
  {
    t.Valid() && WeightsShaped(t, w) && UnitsShaped(t, b) && |input| == t.inputSize
  }

  /** The vector feeding layer l: the network input for layer 0, the output
      of layer l - 1 otherwise. */
  function Source(t: Topology, w: seq<Matrix>, b: seq<Vector>, input: Vector, l: nat): (src: Vector)
    requires Runnable(t, w, b, input) && l < t.LayerCount()
    ensures |src| == t.InWidth(l)
    decreases l, 0
  {
    if l == 0 then input else PostActivation(t, w, b, input, l - 1)
  }

  /** The pre-activation of layer l (the cached layer input). */
  function PreActivation(t: Topology, w: seq<Matrix>, b: seq<Vector>, input: Vector, l: nat): (pre: Vector)
    requires Runnable(t, w, b, input) && l < t.LayerCount()
    ensures |pre| == t.layerSize[l]
    decreases l, 1
  {
    LayerPre(w[l], b[l], Source(t, w, b, input, l))
  }

  /** The post-activation of layer l (the cached layer output); a layer
      tagged None outputs zeros. */
  function PostActivation(t: Topology, w: seq<Matrix>, b: seq<Vector>, input: Vector, l: nat): (post: Vector)
    requires Runnable(t, w, b, input) && l < t.LayerCount()
    ensures |post| == t.layerSize[l]
    ensures t.transferFunction[l] == None ==> forall j :: 0 <= j < |post| ==> post[j] == 0.0
    decreases l, 2
  {
    Activate(t.transferFunction[l], PreActivation(t, w, b, input, l))
  }

  /** The caches of the full forward pass. */
  function Run(t: Topology, w: seq<Matrix>, b: seq<Vector>, input: Vector): (a: Activations)
    requires Runnable(t, w, b, input)
    ensures UnitsShaped(t, a.pre) && UnitsShaped(t, a.post)
  {
    var n := t.LayerCount();
    Activations(seq(n, l requires 0 <= l < n => PreActivation(t, w, b, input, l)),
                seq(n, l requires 0 <= l < n => PostActivation(t, w, b, input, l)))
  }

  /** Layer l of the caches of a forward pass. */
  lemma RunCachesLayer(t: Topology, w: seq<Matrix>, b: seq<Vector>, input: Vector, l: nat)
    requires Runnable(t, w, b, input) && l < t.LayerCount()
    ensures Run(t, w, b, input).pre[l] == PreActivation(t, w, b, input, l)
    ensures Run(t, w, b, input).post[l] == PostActivation(t, w, b, input, l)
  {
  }

  /** The first n layers of caches pre and post hold the forward pass's values. */
  predicate CachedBelow(t: Topology, w: seq<Matrix>, b: seq<Vector>, input: Vector,
                        pre: seq<Vector>, post: seq<Vector>, n: nat)
    requires Runnable(t, w, b, input)
  {
    n <= t.LayerCount() && n <= |pre| && n <= |post|
    && forall k :: 0 <= k < n ==>
         pre[k] == PreActivation(t, w, b, input, k) && post[k] == PostActivation(t, w, b, input, k)
  }

  /** Computing layer n from its source extends caches that hold the first n
      layers of the forward pass to caches that hold n + 1 of them. */
  lemma CachedStep(t: Topology, w: seq<Matrix>, b: seq<Vector>, input: Vector,
                   pre: seq<Vector>, post: seq<Vector>, n: nat, layerPre: Vector, layerPost: Vector)
    requires Runnable(t, w, b, input) && n < t.LayerCount() && |pre| == |post| == t.LayerCount()
    requires CachedBelow(t, w, b, input, pre, post, n)
    requires layerPre == LayerPre(w[n], b[n], Source(t, w, b, input, n))
    requires layerPost == Activate(t.transferFunction[n], layerPre)
    ensures CachedBelow(t, w, b, input, pre[n := layerPre], post[n := layerPost], n + 1)
  {
    var pre', post' := pre[n := layerPre], post[n := layerPost];
    forall k | 0 <= k < n + 1
      ensures pre'[k] == PreActivation(t, w, b, input, k) && post'[k] == PostActivation(t, w, b, input, k)
    {
      if k < n {
        assert pre'[k] == pre[k] && post'[k] == post[k];
      } else {
        assert layerPre == PreActivation(t, w, b, input, n);
      }
    }
  }

  /** The source of layer n + 1 is the cached output of layer n. */
  lemma CachedSource(t: Topology, w: seq<Matrix>, b: seq<Vector>, input: Vector,
                     pre: seq<Vector>, post: seq<Vector>, n: nat)
    requires Runnable(t, w, b, input) && 0 < n < t.LayerCount()
    requires CachedBelow(t, w, b, input, pre, post, n)
    ensures Source(t, w, b, input, n) == post[n - 1]
  {
  }

  /** Caches that agree with the forward pass on every layer are its caches. */
  lemma CachesAreRun(t: Topology, w: seq<Matrix>, b: seq<Vector>, input: Vector, pre: seq<Vector>, post: seq<Vector>)
    requires Runnable(t, w, b, input) && |pre| == |post| == t.LayerCount()
    requires CachedBelow(t, w, b, input, pre, post, t.LayerCount())
    ensures Activations(pre, post) == Run(t, w, b, input)
  {
  }

  /** A weighted sum over sources that are all zero is zero. */
  lemma {:induction false} ColumnDotOfZeros(w: Matrix, j: nat, src: Vector, n: nat)
    requires n <= |w| && n <= |src|
    requires forall i :: 0 <= i < n ==> j < |w[i]|
    requires forall i :: 0 <= i < n ==> src[i] == 0.0
    ensures ColumnDot(w, j, src, n) == 0.0
  {
    if n > 0 {
      ColumnDotOfZeros(w, j, src, n - 1);
    }
  }

  /** A layer tagged None outputs zeros, so the layer above it sees only its
      own biases: no signal crosses a None layer. */
  lemma NoneLayerBlocksSignal(t: Topology, w: seq<Matrix>, b: seq<Vector>, input: Vector, l: nat)
    requires Runnable(t, w, b, input) && l + 1 < t.LayerCount()
    requires t.transferFunction[l] == None
    ensures PreActivation(t, w, b, input, l + 1) == b[l + 1]
  {
    var src := Source(t, w, b, input, l + 1);
    assert src == PostActivation(t, w, b, input, l);
    assert forall i :: 0 <= i < |src| ==> src[i] == Evaluate(None, PreActivation(t, w, b, input, l)[i]);
    var pre := PreActivation(t, w, b, input, l + 1);
    forall j | 0 <= j < |pre|
      ensures pre[j] == b[l + 1][j]
    {
      ColumnDotOfZeros(w[l + 1], j, src, |src|);
    }
  }

  // --------------------------------------------------------------- backward

  /** Sum over the first n destination units j of row[j] * d[j]. */
  function RowDot(row: Vector, d: Vector, n: nat): real
    requires n <= |row| && n <= |d|
  {
    if n == 0 then 0.0 else RowDot(row, d, n - 1) + row[n - 1] * d[n - 1]
  }

  /** The product a * b. */
  function Product(a: real, b: real): real
  {
    a * b
  }

  /** A product of two factors of the same strict sign is positive. */
  lemma ProductOfLikeSigns(a: real, b: real)
    requires (0.0 < a && 0.0 < b) || (a < 0.0 && b < 0.0)
    ensures 0.0 < Product(a, b)
  {
    if a < 0.0 {
      assert a * b == (-a) * (-b);
    }
  }

  /** x raised to the power 2: positive for every nonzero x, zero at zero. */
  function Square(x: real): (y: real)
    ensures x != 0.0 ==> 0.0 < y
    ensures x == 0.0 ==> y == 0.0
  {
    if x != 0.0 then
      ProductOfLikeSigns(x, x);
      Product(x, x)
    else
      Product(x, x)
  }

  /** Sum over the first n units of (output[k] - desired[k])^2: a sum of
      squares, never negative. */
  function SquaredError(output: Vector, desired: Vector, n: nat): (e: real)
    requires n <= |output| && n <= |desired|
    ensures 0.0 <= e
  {
    if n == 0 then 0.0
    else SquaredError(output, desired, n - 1) + Square(output[n - 1] - desired[n - 1])
  }

  /** An error signal e of a unit scaled by the derivative of its transfer
      function at its pre-activation x. */
  function ScaledByDerivative(tf: TransferFunction, x: real, e: real): real
  {
    e * EvaluateDerivative(tf, x)
  }

  /** Output-layer deltas, unit by unit: a unit whose output meets its
      target, or whose derivative vanishes, gets no delta. */
  function OutputDelta(tf: TransferFunction, pre: Vector, output: Vector, desired: Vector): (d: Vector)
    requires |pre| == |output| == |desired|
    ensures |d| == |output|
    ensures forall k :: 0 <= k < |d| && output[k] == desired[k] ==> d[k] == 0.0
    ensures forall k :: 0 <= k < |d| && EvaluateDerivative(tf, pre[k]) == 0.0 ==> d[k] == 0.0
  {
    seq(|output|, k requires 0 <= k < |output| => ScaledByDerivative(tf, pre[k], output[k] - desired[k]))
  }

  /** Hidden-layer deltas: the next layer's deltas pulled back through its
      weights, times the derivative at the pre-activation; a unit whose
      derivative vanishes gets no delta. */
  function HiddenDelta(tf: TransferFunction, pre: Vector, nextWeight: Matrix, nextDelta: Vector): (d: Vector)
    requires IsMatrix(nextWeight, |pre|, |nextDelta|)
    ensures |d| == |pre|
    ensures forall i :: 0 <= i < |d| && EvaluateDerivative(tf, pre[i]) == 0.0 ==> d[i] == 0.0
  {
    seq(|pre|, i requires 0 <= i < |pre| => ScaledByDerivative(tf, pre[i], RowDot(nextWeight[i], nextDelta, |nextDelta|)))
  }

  /** The delta vector of layer l, computed from the output layer downwards;
      a layer tagged None gets no deltas. */
  function Delta(t: Topology, w: seq<Matrix>, a: Activations, desired: Vector, l: nat): (d: Vector)
    requires t.Valid() && WeightsShaped(t, w) && UnitsShaped(t, a.pre) && UnitsShaped(t, a.post)
    requires |desired| == t.OutputWidth() && l < t.LayerCount()
    ensures |d| == t.layerSize[l]
    ensures t.transferFunction[l] == None ==> forall k :: 0 <= k < |d| ==> d[k] == 0.0
    decreases t.LayerCount() - l
  {
    var last := t.LayerCount() - 1;
    if l == last then OutputDelta(t.transferFunction[l], a.pre[l], a.post[l], desired)
    else HiddenDelta(t.transferFunction[l], a.pre[l], w[l + 1], Delta(t, w, a, desired, l + 1))
  }

  // ----------------------------------------------------------------- update

  /** The weight change of one connection: gradient step plus momentum. */
  function WeightChange(rate: real, d: real, s: real, momentum: real, previous: real): real
  {
    rate * d * s + momentum * previous
  }

  /** Row i of a weight update: the weights out of one source unit of value
      s, each lowered by its weight change. */
  function UpdatedRow(row: Vector, previous: Vector, d: Vector, s: real, rate: real, momentum: real): (r: Vector)
    requires |row| == |previous| == |d|
    ensures |r| == |d|
  {
    seq(|d|, j requires 0 <= j < |d| => row[j] - WeightChange(rate, d[j], s, momentum, previous[j]))
  }

  /** Row i of the new weight history: the weight changes just applied. */
  function HistoryRow(previous: Vector, d: Vector, s: real, rate: real, momentum: real): (r: Vector)
    requires |previous| == |d|
    ensures |r| == |d|
  {
    seq(|d|, j requires 0 <= j < |d| => WeightChange(rate, d[j], s, momentum, previous[j]))
  }

  /** The weights of a layer after the update: every weight w[i][j] lowered by
      its weight change. */
  function UpdatedWeights(w: Matrix, previous: Matrix, d: Vector, src: Vector, rate: real, momentum: real): (r: Matrix)
    requires IsMatrix(w, |src|, |d|) && IsMatrix(previous, |src|, |d|)
    ensures IsMatrix(r, |src|, |d|)
  {
    seq(|src|, i requires 0 <= i < |src| => UpdatedRow(w[i], previous[i], d, src[i], rate, momentum))
  }

  /** The weight history of a layer after the update. */
  function WeightHistory(previous: Matrix, d: Vector, src: Vector, rate: real, momentum: real): (r: Matrix)
    requires IsMatrix(previous, |src|, |d|)
    ensures IsMatrix(r, |src|, |d|)
  {
    seq(|src|, i requires 0 <= i < |src| => HistoryRow(previous[i], d, src[i], rate, momentum))
  }

  /** The gradient step of one bias: the rate times the unit's delta. */
  function GradientStep(rate: real, d: real): real
  {
    rate * d
  }

  /** The change of one bias: gradient step plus momentum. */
  function BiasChange(rate: real, d: real, momentum: real, previous: real): real
  {
    GradientStep(rate, d) + momentum * previous
  }

  /** The bias moves by the gradient step plus momentum times the old history
      ... so a unit with no delta and no momentum contribution stays put ... */
  function UpdatedBias(b: Vector, previous: Vector, d: Vector, rate: real, momentum: real): (nb: Vector)
    requires |b| == |previous| == |d|
    ensures |nb| == |b|
    ensures forall j :: 0 <= j < |nb| && d[j] == 0.0 && (momentum == 0.0 || previous[j] == 0.0) ==> nb[j] == b[j]
  {
    seq(|b|, i requires 0 <= i < |b| => b[i] - BiasChange(rate, d[i], momentum, previous[i]))
  }

  /** ... but the history keeps only the gradient step, which is zero
      exactly when the rate or the unit's delta is. */
  function BiasHistory(d: Vector, rate: real): (h: Vector)
    ensures |h| == |d|
    ensures forall j :: 0 <= j < |h| ==> (h[j] == 0.0 <==> rate == 0.0 || d[j] == 0.0)
  {
    seq(|d|, i requires 0 <= i < |d| => GradientStep(rate, d[i]))
  }

  /** The deltas of every layer. */
  function Deltas(t: Topology, w: seq<Matrix>, a: Activations, desired: Vector): (ds: seq<Vector>)
    requires t.Valid() && WeightsShaped(t, w) && UnitsShaped(t, a.pre) && UnitsShaped(t, a.post)
    requires |desired| == t.OutputWidth()
    ensures UnitsShaped(t, ds)
  {
    seq(t.LayerCount(), l requires 0 <= l < t.LayerCount() => Delta(t, w, a, desired, l))
  }

  /** The source vector of every layer. */
  function Sources(t: Topology, w: seq<Matrix>, b: seq<Vector>, input: Vector): (ss: seq<Vector>)
    requires Runnable(t, w, b, input)
    ensures |ss| == t.LayerCount()
    ensures forall l :: 0 <= l < |ss| ==> |ss[l]| == t.InWidth(l)
  {
    seq(t.LayerCount(), l requires 0 <= l < t.LayerCount() => Source(t, w, b, input, l))
  }

  /** The source vector of every layer read off the input and the cached
      layer outputs: the input for layer 0, the output of layer l - 1 for
      layer l. */
  function CachedSources(t: Topology, input: Vector, post: seq<Vector>): (ss: seq<Vector>)
    requires t.Valid() && |input| == t.inputSize && UnitsShaped(t, post)
    ensures |ss| == t.LayerCount()
    ensures forall l :: 0 <= l < |ss| ==> |ss[l]| == t.InWidth(l)
  {
    [input] + post[..t.LayerCount() - 1]
  }

  /** Outputs that agree with the forward pass on every layer give the
      pass's sources when read off as caches. */
  lemma SourcesOfOutputs(t: Topology, w: seq<Matrix>, b: seq<Vector>, input: Vector, post: seq<Vector>)
    requires Runnable(t, w, b, input) && |post| == t.LayerCount()
    requires forall l :: 0 <= l < |post| ==> post[l] == PostActivation(t, w, b, input, l)
    ensures UnitsShaped(t, post) && CachedSources(t, input, post) == Sources(t, w, b, input)
  {
    var cached, ss := CachedSources(t, input, post), Sources(t, w, b, input);
    forall l | 0 <= l < t.LayerCount()
      ensures cached[l] == ss[l]
    {
      if l == 0 {
        assert cached[l] == input == Source(t, w, b, input, l) == ss[l];
      } else {
        assert cached[l] == post[l - 1] == PostActivation(t, w, b, input, l - 1) == Source(t, w, b, input, l) == ss[l];
      }
    }
  }

  /** Read off the caches of a forward pass, the sources are those of the pass. */
  lemma SourcesAreCached(t: Topology, w: seq<Matrix>, b: seq<Vector>, input: Vector)
    requires Runnable(t, w, b, input)
    ensures CachedSources(t, input, Run(t, w, b, input).post) == Sources(t, w, b, input)
  {
    var post := Run(t, w, b, input).post;
    forall l | 0 <= l < |post|
      ensures post[l] == PostActivation(t, w, b, input, l)
    {
      RunCachesLayer(t, w, b, input, l);
    }
    SourcesOfOutputs(t, w, b, input, post);
  }

  /** The parameters after the momentum updates driven by deltas `ds` and sources `ss`. */
  function Updated(t: Topology, p: Parameters, ds: seq<Vector>, ss: seq<Vector>, rate: real, momentum: real): (q: Parameters)
    requires Shaped(t, p) && UnitsShaped(t, ds)
    requires |ss| == t.LayerCount() && forall l :: 0 <= l < |ss| ==> |ss[l]| == t.InWidth(l)
    ensures Shaped(t, q)
  {
    var n := t.LayerCount();
    Parameters(
      seq(n, l requires 0 <= l < n =>
        UpdatedWeights(p.weight[l], p.previousWeightDelta[l], ds[l], ss[l], rate, momentum)),
      seq(n, l requires 0 <= l < n =>
        UpdatedBias(p.bias[l], p.previousBiasDelta[l], ds[l], rate, momentum)),
      seq(n, l requires 0 <= l < n =>
        WeightHistory(p.previousWeightDelta[l], ds[l], ss[l], rate, momentum)),
      seq(n, l requires 0 <= l < n => BiasHistory(ds[l], rate)))
  }

  /** The squared error of the last layer's output against the target. */
  function OutputError(t: Topology, post: seq<Vector>, desired: Vector): (e: real)
    requires t.Valid() && UnitsShaped(t, post) && |desired| == t.OutputWidth()
    ensures 0.0 <= e
  {
    LastLayerWidth(t, post);
    SquaredError(post[t.LayerCount() - 1], desired, |desired|)
  }

  /** Given the last layer's output, the error is its squared distance from
      the target. */
  lemma OutputErrorOf(t: Topology, post: seq<Vector>, desired: Vector, output: Vector)
    requires t.Valid() && UnitsShaped(t, post) && |desired| == t.OutputWidth()
    requires output == post[t.LayerCount() - 1] && |output| == |desired|
    ensures OutputError(t, post, desired) == SquaredError(output, desired, |desired|)
  {
  }

  /** Everything one back-propagation step produces. */
  datatype Step = Step(parameters: Parameters, activations: Activations, deltas: seq<Vector>, error: real)

  /** One online training step on (input, desired): forward pass, deltas from
      the output layer down, then the momentum updates of every weight and bias. */
  function TrainStep(t: Topology, p: Parameters, input: Vector, desired: Vector, rate: real, momentum: real): (s: Step)
    requires Shaped(t, p) && |input| == t.inputSize && |desired| == t.OutputWidth()
    ensures Shaped(t, s.parameters)
    ensures UnitsShaped(t, s.deltas) && UnitsShaped(t, s.activations.pre) && UnitsShaped(t, s.activations.post)
    ensures 0.0 <= s.error
  {
    var a := Run(t, p.weight, p.bias, input);
    var ds := Deltas(t, p.weight, a, desired);
    var ss := Sources(t, p.weight, p.bias, input);
    Step(Updated(t, p, ds, ss, rate, momentum), a, ds, OutputError(t, a.post, desired))
  }

  // ------------------------------------------------------------- properties

  /** The squared error vanishes exactly when the output equals the target. */
  lemma {:induction false} SquaredErrorZeroIff(output: Vector, desired: Vector, n: nat)
    requires n <= |output| && n <= |desired|
    ensures SquaredError(output, desired, n) == 0.0 <==> output[..n] == desired[..n]
  {
    if n > 0 {
      SquaredErrorZeroIff(output, desired, n - 1);
      assert output[..n] == output[..n - 1] + [output[n - 1]];
      assert desired[..n] == desired[..n - 1] + [desired[n - 1]];
      if output[..n] == desired[..n] {
        assert output[..n - 1] == output[..n][..n - 1];
        assert desired[..n - 1] == desired[..n][..n - 1];
        assert output[n - 1] == output[..n][n - 1];
        assert desired[n - 1] == desired[..n][n - 1];
      }
    }
  }

  /** A weighted sum against deltas that are all zero is zero. */
  lemma {:induction false} RowDotOfZeros(row: Vector, d: Vector, n: nat)
    requires n <= |row| && n <= |d|
    requires forall j :: 0 <= j < n ==> d[j] == 0.0
    ensures RowDot(row, d, n) == 0.0
  {
    if n > 0 {
      RowDotOfZeros(row, d, n - 1);
    }
  }

  /** Output deltas of an output that equals its target are all zero. */
  lemma OutputDeltaOfExactOutput(tf: TransferFunction, pre: Vector, desired: Vector)
    requires |pre| == |desired|
    ensures forall k :: 0 <= k < |desired| ==> OutputDelta(tf, pre, desired, desired)[k] == 0.0
  {
  }

  /** Hidden deltas pulled back from all-zero deltas are all zero. */
  lemma HiddenDeltaOfZeros(tf: TransferFunction, pre: Vector, nextWeight: Matrix, nextDelta: Vector)
    requires IsMatrix(nextWeight, |pre|, |nextDelta|)
    requires forall j :: 0 <= j < |nextDelta| ==> nextDelta[j] == 0.0
    ensures forall k :: 0 <= k < |pre| ==> HiddenDelta(tf, pre, nextWeight, nextDelta)[k] == 0.0
  {
    forall k | 0 <= k < |pre|
      ensures HiddenDelta(tf, pre, nextWeight, nextDelta)[k] == 0.0
    {
      RowDotOfZeros(nextWeight[k], nextDelta, |nextDelta|);
    }
  }

  /** When the cached output already equals the target, every delta, from the
      output layer down, is zero. */
  lemma {:induction false} DeltasVanishOnExactOutput(t: Topology, w: seq<Matrix>, a: Activations, desired: Vector, l: nat)
    requires t.Valid() && WeightsShaped(t, w) && UnitsShaped(t, a.pre) && UnitsShaped(t, a.post)
    requires |desired| == t.OutputWidth() && l < t.LayerCount()
    requires a.post[t.LayerCount() - 1] == desired
    ensures forall k :: 0 <= k < t.layerSize[l] ==> Delta(t, w, a, desired, l)[k] == 0.0
    decreases t.LayerCount() - l
  {
    if l < t.LayerCount() - 1 {
      DeltasVanishOnExactOutput(t, w, a, desired, l + 1);
      HiddenDeltaOfZeros(t.transferFunction[l], a.pre[l], w[l + 1], Delta(t, w, a, desired, l + 1));
    } else {
      OutputDeltaOfExactOutput(t.transferFunction[l], a.pre[l], desired);
    }
  }

  /** A layer update driven by all-zero deltas moves each weight and bias
      only by its momentum term and clears the bias history; with zero
      momentum it moves nothing. */
  lemma ZeroDeltaLayerMovesOnlyByMomentum(w: Matrix, b: Vector, previousWeight: Matrix, previousBias: Vector,
                                          d: Vector, src: Vector, rate: real, momentum: real)
    requires IsMatrix(w, |src|, |d|) && IsMatrix(previousWeight, |src|, |d|) && |b| == |previousBias| == |d|
    requires forall j :: 0 <= j < |d| ==> d[j] == 0.0
    ensures var nw, nh := UpdatedWeights(w, previousWeight, d, src, rate, momentum), WeightHistory(previousWeight, d, src, rate, momentum);
      forall i, j :: 0 <= i < |src| && 0 <= j < |d| ==>
        nw[i][j] == w[i][j] - momentum * previousWeight[i][j] && nh[i][j] == momentum * previousWeight[i][j]
    ensures var nb, bh := UpdatedBias(b, previousBias, d, rate, momentum), BiasHistory(d, rate);
      forall j :: 0 <= j < |d| ==> nb[j] == b[j] - momentum * previousBias[j] && bh[j] == 0.0
    ensures momentum == 0.0 ==> UpdatedWeights(w, previousWeight, d, src, rate, momentum) == w
    ensures momentum == 0.0 ==> UpdatedBias(b, previousBias, d, rate, momentum) == b
  {
    var nw := UpdatedWeights(w, previousWeight, d, src, rate, momentum);
    if momentum == 0.0 {
      forall i | 0 <= i < |src|
        ensures nw[i] == w[i]
      {
      }
    }
  }

  /** A training step is made of its forward pass, its deltas, the updates
      they drive and the squared error of the output. */
  lemma TrainStepParts(t: Topology, p: Parameters, input: Vector, desired: Vector, rate: real, momentum: real)
    requires Shaped(t, p) && |input| == t.inputSize && |desired| == t.OutputWidth()
    ensures var a, s := Run(t, p.weight, p.bias, input), TrainStep(t, p, input, desired, rate, momentum);
      var ds := Deltas(t, p.weight, a, desired);
      s.activations == a && s.deltas == ds
      && s.parameters == Updated(t, p, ds, Sources(t, p.weight, p.bias, input), rate, momentum)
      && s.error == OutputError(t, a.post, desired)
  {
  }

  /** The deltas of every layer vanish when the cached output equals the target. */
  lemma AllDeltasVanishOnExactOutput(t: Topology, w: seq<Matrix>, a: Activations, desired: Vector)
    requires t.Valid() && WeightsShaped(t, w) && UnitsShaped(t, a.pre) && UnitsShaped(t, a.post)
    requires |desired| == t.OutputWidth()
    requires a.post[t.LayerCount() - 1] == desired
    ensures var ds := Deltas(t, w, a, desired);
      forall l, k :: 0 <= l < t.LayerCount() && 0 <= k < t.layerSize[l] ==> ds[l][k] == 0.0
  {
    var ds := Deltas(t, w, a, desired);
    forall l | 0 <= l < t.LayerCount()
      ensures forall k :: 0 <= k < t.layerSize[l] ==> ds[l][k] == 0.0
    {
      assert ds[l] == Delta(t, w, a, desired, l);
      DeltasVanishOnExactOutput(t, w, a, desired, l);
    }
  }

  /** Updates driven by all-zero deltas clear the bias history, and with zero
      momentum leave every weight and bias as it was. */
  lemma ZeroDeltasUpdate(t: Topology, p: Parameters, ds: seq<Vector>, ss: seq<Vector>, rate: real, momentum: real)
    requires Shaped(t, p) && UnitsShaped(t, ds)
    requires |ss| == t.LayerCount() && forall l :: 0 <= l < |ss| ==> |ss[l]| == t.InWidth(l)
    requires forall l, k :: 0 <= l < t.LayerCount() && 0 <= k < t.layerSize[l] ==> ds[l][k] == 0.0
    ensures var q := Updated(t, p, ds, ss, rate, momentum);
      (forall l, j :: 0 <= l < t.LayerCount() && 0 <= j < t.layerSize[l] ==> q.previousBiasDelta[l][j] == 0.0)
      && (momentum == 0.0 ==> q.weight == p.weight && q.bias == p.bias)
  {
    var q := Updated(t, p, ds, ss, rate, momentum);
    forall l | 0 <= l < t.LayerCount()
      ensures forall j :: 0 <= j < t.layerSize[l] ==> q.previousBiasDelta[l][j] == 0.0
      ensures momentum == 0.0 ==> q.weight[l] == p.weight[l] && q.bias[l] == p.bias[l]
    {
      assert q.weight[l] == UpdatedWeights(p.weight[l], p.previousWeightDelta[l], ds[l], ss[l], rate, momentum);
      assert q.bias[l] == UpdatedBias(p.bias[l], p.previousBiasDelta[l], ds[l], rate, momentum);
      assert q.previousBiasDelta[l] == BiasHistory(ds[l], rate);
      ZeroDeltaLayerMovesOnlyByMomentum(p.weight[l], p.bias[l], p.previousWeightDelta[l], p.previousBiasDelta[l],
                                        ds[l], ss[l], rate, momentum);
    }
  }

  /** Training on an example the network already reproduces exactly reports
      zero error. */
  lemma ExactFitHasNoError(t: Topology, p: Parameters, input: Vector, desired: Vector, rate: real, momentum: real)
    requires Shaped(t, p) && |input| == t.inputSize && |desired| == t.OutputWidth()
    requires Run(t, p.weight, p.bias, input).post[t.LayerCount() - 1] == desired
    ensures TrainStep(t, p, input, desired, rate, momentum).error == 0.0
  {
    TrainStepParts(t, p, input, desired, rate, momentum);
    OutputErrorOf(t, Run(t, p.weight, p.bias, input).post, desired, desired);
    SquaredErrorZeroIff(desired, desired, |desired|);
  }

  /** Training on an example the network already reproduces exactly: every
      delta is zero, so the bias history is cleared. */
  lemma ExactFitHasNoDeltas(t: Topology, p: Parameters, input: Vector, desired: Vector, rate: real, momentum: real)
    requires Shaped(t, p) && |input| == t.inputSize && |desired| == t.OutputWidth()
    requires Run(t, p.weight, p.bias, input).post[t.LayerCount() - 1] == desired
    ensures var s := TrainStep(t, p, input, desired, rate, momentum);
      forall l, j :: 0 <= l < t.LayerCount() && 0 <= j < t.layerSize[l] ==>
        s.deltas[l][j] == 0.0 && s.parameters.previousBiasDelta[l][j] == 0.0
  {
    var a := Run(t, p.weight, p.bias, input);
    var ds := Deltas(t, p.weight, a, desired);
    var ss := Sources(t, p.weight, p.bias, input);
    AllDeltasVanishOnExactOutput(t, p.weight, a, desired);
    var q := Updated(t, p, ds, ss, rate, momentum);
    assert forall l, j :: 0 <= l < t.LayerCount() && 0 <= j < t.layerSize[l] ==> q.previousBiasDelta[l][j] == 0.0 by {
      ZeroDeltasUpdate(t, p, ds, ss, rate, momentum);
    }
    TrainStepParts(t, p, input, desired, rate, momentum);
  }

  /** Training without momentum on an example the network already reproduces
      exactly leaves every weight and bias where it was. */
  lemma ExactFitWithoutMomentumStandsStill(t: Topology, p: Parameters, input: Vector, desired: Vector, rate: real)
    requires Shaped(t, p) && |input| == t.inputSize && |desired| == t.OutputWidth()
    requires Run(t, p.weight, p.bias, input).post[t.LayerCount() - 1] == desired
    ensures var q := TrainStep(t, p, input, desired, rate, 0.0).parameters;
      q.weight == p.weight && q.bias == p.bias
  {
    var a := Run(t, p.weight, p.bias, input);
    var ds := Deltas(t, p.weight, a, desired);
    var ss := Sources(t, p.weight, p.bias, input);
    AllDeltasVanishOnExactOutput(t, p.weight, a, desired);
    var q := Updated(t, p, ds, ss, rate, 0.0);
    assert q.weight == p.weight && q.bias == p.bias by {
      ZeroDeltasUpdate(t, p, ds, ss, rate, 0.0);
    }
    TrainStepParts(t, p, input, desired, rate, 0.0);
  }

  /** With zero momentum a layer update is plain gradient descent: each weight
      moves by rate * delta * source and each bias by rate * delta, and the
      histories record exactly these steps. */
  lemma MomentumZeroIsGradientDescent(w: Matrix, b: Vector, previousWeight: Matrix, previousBias: Vector,
                                      d: Vector, src: Vector, rate: real)
    requires IsMatrix(w, |src|, |d|) && IsMatrix(previousWeight, |src|, |d|) && |b| == |previousBias| == |d|
    ensures var nw, nh := UpdatedWeights(w, previousWeight, d, src, rate, 0.0), WeightHistory(previousWeight, d, src, rate, 0.0);
      forall i, j :: 0 <= i < |src| && 0 <= j < |d| ==>
        nw[i][j] == w[i][j] - rate * d[j] * src[i] && nh[i][j] == rate * d[j] * src[i]
    ensures var nb, bh := UpdatedBias(b, previousBias, d, rate, 0.0), BiasHistory(d, rate);
      forall j :: 0 <= j < |d| ==> nb[j] == b[j] - rate * d[j] && bh[j] == rate * d[j]
  {
  }

  /** With zero momentum a whole training step is plain gradient descent:
      every weight moves by rate * delta * source and every bias by
      rate * delta, for the deltas and sources of the step's forward pass,
      and the histories record exactly these steps. */
  lemma TrainStepWithoutMomentum(t: Topology, p: Parameters, input: Vector, desired: Vector, rate: real)
    requires Shaped(t, p) && |input| == t.inputSize && |desired| == t.OutputWidth()
    ensures var q := TrainStep(t, p, input, desired, rate, 0.0).parameters;
      var ds := Deltas(t, p.weight, Run(t, p.weight, p.bias, input), desired);
      var ss := Sources(t, p.weight, p.bias, input);
      (forall l, i, j :: 0 <= l < t.LayerCount() && 0 <= i < t.InWidth(l) && 0 <= j < t.layerSize[l] ==>
        q.weight[l][i][j] == p.weight[l][i][j] - rate * ds[l][j] * ss[l][i]
        && q.previousWeightDelta[l][i][j] == rate * ds[l][j] * ss[l][i])
      && (forall l, j :: 0 <= l < t.LayerCount() && 0 <= j < t.layerSize[l] ==>
        q.bias[l][j] == p.bias[l][j] - rate * ds[l][j] && q.previousBiasDelta[l][j] == rate * ds[l][j])
  {
    var q := TrainStep(t, p, input, desired, rate, 0.0).parameters;
    var ds := Deltas(t, p.weight, Run(t, p.weight, p.bias, input), desired);
    var ss := Sources(t, p.weight, p.bias, input);
    TrainStepParts(t, p, input, desired, rate, 0.0);
    forall l | 0 <= l < t.LayerCount()
      ensures forall i, j :: 0 <= i < t.InWidth(l) && 0 <= j < t.layerSize[l] ==>
        q.weight[l][i][j] == p.weight[l][i][j] - rate * ds[l][j] * ss[l][i]
        && q.previousWeightDelta[l][i][j] == rate * ds[l][j] * ss[l][i]
      ensures forall j :: 0 <= j < t.layerSize[l] ==>
        q.bias[l][j] == p.bias[l][j] - rate * ds[l][j] && q.previousBiasDelta[l][j] == rate * ds[l][j]
    {
      assert q.weight[l] == UpdatedWeights(p.weight[l], p.previousWeightDelta[l], ds[l], ss[l], rate, 0.0);
      assert q.previousWeightDelta[l] == WeightHistory(p.previousWeightDelta[l], ds[l], ss[l], rate, 0.0);
      assert q.bias[l] == UpdatedBias(p.bias[l], p.previousBiasDelta[l], ds[l], rate, 0.0);
      assert q.previousBiasDelta[l] == BiasHistory(ds[l], rate);
      MomentumZeroIsGradientDescent(p.weight[l], p.bias[l], p.previousWeightDelta[l], p.previousBiasDelta[l],
                                    ds[l], ss[l], rate);
    }
  }

  /** The weight history records the whole change applied to each weight, but
      the bias history leaves out the momentum term that the bias did receive. */
  lemma BiasHistoryOmitsMomentum(w: Matrix, b: Vector, previousWeight: Matrix, previousBias: Vector,
                                 d: Vector, src: Vector, rate: real, momentum: real)
    requires IsMatrix(w, |src|, |d|) && IsMatrix(previousWeight, |src|, |d|) && |b| == |previousBias| == |d|
    ensures var nw, nh := UpdatedWeights(w, previousWeight, d, src, rate, momentum), WeightHistory(previousWeight, d, src, rate, momentum);
      forall i, j :: 0 <= i < |src| && 0 <= j < |d| ==> w[i][j] - nw[i][j] == nh[i][j]
    ensures var nb, bh := UpdatedBias(b, previousBias, d, rate, momentum), BiasHistory(d, rate);
      forall j :: 0 <= j < |d| ==> b[j] - nb[j] == bh[j] + momentum * previousBias[j]
  {
  }

  /** With a linear output layer, whose derivative is 1, the output deltas are
      the raw errors output - desired. */
  lemma LinearOutputDeltaIsError(t: Topology, w: seq<Matrix>, a: Activations, desired: Vector)
    requires t.Valid() && WeightsShaped(t, w) && UnitsShaped(t, a.pre) && UnitsShaped(t, a.post)
    requires |desired| == t.OutputWidth()
    requires t.transferFunction[t.LayerCount() - 1] == Linear
    ensures forall k :: 0 <= k < |desired| ==>
      Delta(t, w, a, desired, t.LayerCount() - 1)[k] == a.post[t.LayerCount() - 1][k] - desired[k]
  {
    var last := t.LayerCount() - 1;
    var d := Delta(t, w, a, desired, last);
    assert d == OutputDelta(Linear, a.pre[last], a.post[last], desired);
    forall k | 0 <= k < |desired|
      ensures d[k] == a.post[last][k] - desired[k]
    {
      LinearIsIdentity(a.pre[last][k]);
    }
  }

  // ----------------------------------------------------------- perturbation

  /** A parameter position, naming the standard-normal draw that initialises
      or perturbs it. */
  datatype Site = WeightSite(layer: nat, row: nat, column: nat) | BiasSite(layer: nat, unit: nat)

  /** A normal sample of the given mean and standard deviation obtained from a
      standard-normal draw z, as the polar Box-Muller method scales it: a
      zero deviation or a zero draw gives the mean itself. */
  function GaussianSample(mean: real, stddev: real, z: real): (s: real)
    ensures stddev == 0.0 || z == 0.0 ==> s == mean
  {
    stddev * z + mean
  }

  /** x plus noise of standard deviation x * scalar drawn from the
      standard-normal draw z: a zero value, a zero scalar or a zero draw
      leaves x as it was. */
  function Perturbed(x: real, scalar: real, z: real): (r: real)
    ensures x == 0.0 || scalar == 0.0 || z == 0.0 ==> r == x
  {
    x + GaussianSample(0.0, x * scalar, z)
  }

  /** Each weight of layer l perturbed by its own draw. */
  function NudgedWeights(w: Matrix, scalar: real, z: Site -> real, l: nat): (r: Matrix)
    ensures |r| == |w| && forall i :: 0 <= i < |w| ==> |r[i]| == |w[i]|
  {
    seq(|w|, i requires 0 <= i < |w| =>
      seq(|w[i]|, j requires 0 <= j < |w[i]| => Perturbed(w[i][j], scalar, z(WeightSite(l, i, j)))))
  }

  /** Each bias of layer l perturbed by its own draw. */
  function NudgedBias(b: Vector, scalar: real, z: Site -> real, l: nat): (r: Vector)
    ensures |r| == |b|
  {
    seq(|b|, j requires 0 <= j < |b| => Perturbed(b[j], scalar, z(BiasSite(l, j))))
  }

  /** Noise of standard deviation x * scalar scales x by 1 + scalar * z. */
  lemma ProportionalNoise(x: real, scalar: real, z: real)
    ensures Perturbed(x, scalar, z) == x * (1.0 + scalar * z)
  {
    assert x * scalar * z == x * (scalar * z);
  }

  /** The nudge noise is proportional to the parameter: each weight and bias
      of layer l is scaled by 1 + scalar * z, so a zero parameter stays zero
      and a zero scalar changes nothing. */
  lemma NudgeIsProportional(w: Matrix, b: Vector, scalar: real, z: Site -> real, l: nat)
    ensures var r := NudgedWeights(w, scalar, z, l);
      forall i, j :: 0 <= i < |w| && 0 <= j < |w[i]| ==> r[i][j] == w[i][j] * (1.0 + scalar * z(WeightSite(l, i, j)))
    ensures var r := NudgedBias(b, scalar, z, l);
      forall j :: 0 <= j < |b| ==> r[j] == b[j] * (1.0 + scalar * z(BiasSite(l, j)))
    ensures scalar == 0.0 ==> NudgedWeights(w, scalar, z, l) == w && NudgedBias(b, scalar, z, l) == b
  {
    var r := NudgedWeights(w, scalar, z, l);
    forall i, j | 0 <= i < |w| && 0 <= j < |w[i]|
      ensures r[i][j] == w[i][j] * (1.0 + scalar * z(WeightSite(l, i, j)))
    {
      assert r[i][j] == Perturbed(w[i][j], scalar, z(WeightSite(l, i, j)));
      ProportionalNoise(w[i][j], scalar, z(WeightSite(l, i, j)));
    }
    var c := NudgedBias(b, scalar, z, l);
    forall j | 0 <= j < |b|
      ensures c[j] == b[j] * (1.0 + scalar * z(BiasSite(l, j)))
    {
      assert c[j] == Perturbed(b[j], scalar, z(BiasSite(l, j)));
      ProportionalNoise(b[j], scalar, z(BiasSite(l, j)));
    }
    if scalar == 0.0 {
      forall i | 0 <= i < |w|
        ensures r[i] == w[i]
      {
      }
    }
  }

  function ZeroVector(n: nat): (v: Vector)
    ensures |v| == n && forall j :: 0 <= j < n ==> v[j] == 0.0
  {
    seq(n, j => 0.0)
  }

  function ZeroMatrix(rows: nat, columns: nat): (m: Matrix)
    ensures IsMatrix(m, rows, columns)
    ensures forall i, j :: 0 <= i < rows && 0 <= j < columns ==> m[i][j] == 0.0
  {
    seq(rows, i => ZeroVector(columns))
  }

  /** A vector of n zeros is the zero vector. */
  lemma ZeroVectorOf(v: Vector, n: nat)
    requires |v| == n && forall j :: 0 <= j < n ==> v[j] == 0.0
    ensures v == ZeroVector(n)
  {
  }

  /** A rows x columns matrix of zeros is the zero matrix. */
  lemma ZeroMatrixOf(m: Matrix, rows: nat, columns: nat)
    requires IsMatrix(m, rows, columns)
    requires forall i, j :: 0 <= i < rows && 0 <= j < columns ==> m[i][j] == 0.0
    ensures m == ZeroMatrix(rows, columns)
  {
    forall i | 0 <= i < rows
      ensures m[i] == ZeroVector(columns)
    {
      ZeroVectorOf(m[i], columns);
    }
  }

  /** Zero-filled weight-shaped matrices of topology t. */
  function ZeroWeights(t: Topology): (m: seq<Matrix>)
    ensures WeightsShaped(t, m)
  {
    seq(|t.layerSize|, l requires 0 <= l < |t.layerSize| => ZeroMatrix(t.InWidth(l), t.layerSize[l]))
  }

  /** Zero-filled unit-shaped vectors of topology t. */
  function ZeroUnits(t: Topology): (v: seq<Vector>)
    ensures UnitsShaped(t, v)
  {
    seq(|t.layerSize|, l requires 0 <= l < |t.layerSize| => ZeroVector(t.layerSize[l]))
  }

  /** The parameters after a nudge: every weight and bias perturbed by its own
      draw, both momentum histories cleared. */
  function Nudged(t: Topology, p: Parameters, scalar: real, z: Site -> real): (q: Parameters)
    requires Shaped(t, p)
    ensures Shaped(t, q)
  {
    Parameters(
      seq(|p.weight|, l requires 0 <= l < |p.weight| => NudgedWeights(p.weight[l], scalar, z, l)),
      seq(|p.bias|, l requires 0 <= l < |p.bias| => NudgedBias(p.bias[l], scalar, z, l)),
      ZeroWeights(t), ZeroUnits(t))
  }

  /** The first `width` initial biases of layer l: one standard-normal draw
      per unit. */
  function InitialBias(l: nat, width: nat, z: Site -> real): (b: Vector)
    ensures |b| == width
  {
    if width == 0 then [] else InitialBias(l, width - 1, z) + [GaussianSample(0.0, 1.0, z(BiasSite(l, width - 1)))]
  }

  /** The first `columns` initial weights out of source unit i of layer l. */
  function InitialRow(l: nat, i: nat, columns: nat, z: Site -> real): (r: Vector)
    ensures |r| == columns
  {
    if columns == 0 then [] else InitialRow(l, i, columns - 1, z) + [GaussianSample(0.0, 1.0, z(WeightSite(l, i, columns - 1)))]
  }

  /** The first `rows` rows of initial weights of layer l: one standard-normal
      draw per connection. */
  function InitialWeights(l: nat, rows: nat, columns: nat, z: Site -> real): (m: Matrix)
    ensures |m| == rows
  {
    if rows == 0 then [] else InitialWeights(l, rows - 1, columns, z) + [InitialRow(l, rows - 1, columns, z)]
  }

  /** Every initial bias is the standard-normal draw of its own unit. */
  lemma {:induction false} InitialBiasDraws(l: nat, width: nat, z: Site -> real)
    ensures forall j :: 0 <= j < width ==> InitialBias(l, width, z)[j] == GaussianSample(0.0, 1.0, z(BiasSite(l, j)))
  {
    if width > 0 {
      InitialBiasDraws(l, width - 1, z);
    }
  }

  /** Every initial weight is the standard-normal draw of its own connection. */
  lemma {:induction false} InitialRowDraws(l: nat, i: nat, columns: nat, z: Site -> real)
    ensures forall j :: 0 <= j < columns ==> InitialRow(l, i, columns, z)[j] == GaussianSample(0.0, 1.0, z(WeightSite(l, i, j)))
  {
    if columns > 0 {
      InitialRowDraws(l, i, columns - 1, z);
    }
  }

  /** Row i of the initial weights of layer l holds the draws of the
      connections out of source unit i. */
  lemma {:induction false} InitialWeightRows(l: nat, rows: nat, columns: nat, z: Site -> real)
    ensures forall i :: 0 <= i < rows ==> InitialWeights(l, rows, columns, z)[i] == InitialRow(l, i, columns, z)
  {
    if rows > 0 {
      InitialWeightRows(l, rows - 1, columns, z);
    }
  }

  /** The initial weights of a layer form a rows x columns matrix whose every
      entry is the draw of its own connection. */
  lemma InitialWeightDraws(l: nat, rows: nat, columns: nat, z: Site -> real)
    ensures IsMatrix(InitialWeights(l, rows, columns, z), rows, columns)
    ensures forall i, j :: 0 <= i < rows && 0 <= j < columns ==>
      InitialWeights(l, rows, columns, z)[i][j] == GaussianSample(0.0, 1.0, z(WeightSite(l, i, j)))
  {
    InitialWeightRows(l, rows, columns, z);
    forall i | 0 <= i < rows
      ensures forall j :: 0 <= j < columns ==>
        InitialWeights(l, rows, columns, z)[i][j] == GaussianSample(0.0, 1.0, z(WeightSite(l, i, j)))
    {
      InitialRowDraws(l, i, columns, z);
    }
  }

  /** The initial parameters of the first n layers, built layer by layer. */
  function InitialLayers(t: Topology, z: Site -> real, n: nat): (p: Parameters)
    requires n <= t.LayerCount()
    ensures |p.weight| == |p.bias| == |p.previousWeightDelta| == |p.previousBiasDelta| == n
  {
    if n == 0 then Parameters([], [], [], [])
    else
      var p := InitialLayers(t, z, n - 1);
      var rows, width := t.InWidth(n - 1), t.layerSize[n - 1];
      Parameters(p.weight + [InitialWeights(n - 1, rows, width, z)], p.bias + [InitialBias(n - 1, width, z)],
                 p.previousWeightDelta + [ZeroMatrix(rows, width)], p.previousBiasDelta + [ZeroVector(width)])
  }

  /** Layer l of the initial parameters holds a standard-normal draw for every
      weight and bias of that layer, and both its momentum histories are zero. */
  lemma {:induction false} InitialLayerContents(t: Topology, z: Site -> real, n: nat, l: nat)
    requires l < n <= t.LayerCount()
    ensures var p := InitialLayers(t, z, n);
      p.weight[l] == InitialWeights(l, t.InWidth(l), t.layerSize[l], z)
      && p.bias[l] == InitialBias(l, t.layerSize[l], z)
      && p.previousWeightDelta[l] == ZeroMatrix(t.InWidth(l), t.layerSize[l])
      && p.previousBiasDelta[l] == ZeroVector(t.layerSize[l])
  {
    if l < n - 1 {
      InitialLayerContents(t, z, n - 1, l);
    }
  }

  /** Initialising every layer gives parameters of the topology's shape. */
  lemma InitialLayersShaped(t: Topology, z: Site -> real)
    requires t.Valid()
    ensures Shaped(t, InitialLayers(t, z, t.LayerCount()))
  {
    var p := InitialLayers(t, z, t.LayerCount());
    forall l | 0 <= l < t.LayerCount()
      ensures IsMatrix(p.weight[l], t.InWidth(l), t.layerSize[l])
      ensures IsMatrix(p.previousWeightDelta[l], t.InWidth(l), t.layerSize[l])
      ensures |p.bias[l]| == |p.previousBiasDelta[l]| == t.layerSize[l]
    {
      InitialLayerContents(t, z, t.LayerCount(), l);
      InitialWeightDraws(l, t.InWidth(l), t.layerSize[l], z);
    }
  }

  /** Freshly constructed parameters: all layers initialised. */
  function Initial(t: Topology, z: Site -> real): (p: Parameters)
    requires t.Valid()
    ensures Shaped(t, p)
  {
    InitialLayersShaped(t, z);
    InitialLayers(t, z, t.LayerCount())
  }
}
