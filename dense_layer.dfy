/**
 * The fully connected layer of include/neural_network.h and the arithmetic of
 * one dense pass as both engines run it (src/neural_network.cpp for the MLP,
 * the dense stage of src/cnn/cnn_network.cpp for the CNN): the weighted sum
 * seeded with the bias, the output and hidden deltas, the in-place update and
 * the mean squared error. Each loop is a method proved against a function.
 */
module DenseLayers {
  import opened Errors
  import opened IndexArith
  import opened Activations

  /** struct Layer: weights are row-major, weight(out, in) at out * inputSize + in;
      input, output and delta are the caches forward and backward leave behind. */
  datatype Layer = Layer(
    inputSize: nat,
    outputSize: nat,
    weights: seq<real>,
    biases: seq<real>,
    output: seq<real>,
    input: seq<real>,
    delta: seq<real>,
    activation: ActivationType)

  /** The buffer sizes the constructor allocates. The cached input may later be
      longer than inputSize; only its first inputSize entries are ever read. */
  predicate WellSized(l: Layer)
  {
    && 0 < l.inputSize && 0 < l.outputSize
    && |l.weights| == l.outputSize * l.inputSize
    && |l.biases| == l.outputSize && |l.output| == l.outputSize && |l.delta| == l.outputSize
    && l.inputSize <= |l.input|
  }

  /** Layer::weight(out, in). */
  function Weight(l: Layer, o: nat, i: nat): real
    requires WellSized(l) && o < l.outputSize && i < l.inputSize
  {
    WeightIndexBound(o, i, l.outputSize, l.inputSize);
    l.weights[WeightIndex(o, i, l.inputSize)]
  }

  const InitMessage := "Layer initialization: inputSize and outputSize must be greater than 0"

  /**
   * Layer(inSize, outSize, act). A negative size is a resize to a wrapped-around
   * size_t, which throws before initializeWeights runs; a zero size is rejected
   * by initializeWeights. The random weight and bias draws are parameters.
   */
  function NewLayer(inSize: int, outSize: int, act: ActivationType, weightDraw: nat -> real, biasDraw: nat -> real): (r: Result<Layer>)
    ensures r.Ok? <==> 0 < inSize && 0 < outSize
    ensures inSize < 0 || outSize < 0 ==> r == Err(AllocationFailure)
    ensures 0 <= inSize && 0 <= outSize && (inSize == 0 || outSize == 0) ==> r == Err(InvalidArgument(InitMessage))
    ensures r.Ok? ==> var l := r.value;
      && WellSized(l) && l.inputSize == inSize && l.outputSize == outSize && l.activation == act
      && |l.input| == inSize
      && (forall k | 0 <= k < |l.weights| :: l.weights[k] == weightDraw(k))
      && (forall j | 0 <= j < outSize :: l.biases[j] == biasDraw(j) && l.output[j] == 0.0 && l.delta[j] == 0.0)
      && (forall i | 0 <= i < inSize :: l.input[i] == 0.0)
  {
    if inSize < 0 || outSize < 0 then Err(AllocationFailure)
    else if inSize == 0 || outSize == 0 then Err(InvalidArgument(InitMessage))
    else
      Ok(Layer(inSize, outSize,
        seq(outSize * inSize, k requires 0 <= k => weightDraw(k)),
        seq(outSize, j requires 0 <= j => biasDraw(j)),
        seq(outSize, _ => 0.0),
        seq(inSize, _ => 0.0),
        seq(outSize, _ => 0.0),
        act))
  }

  // ------------------------------------------------------------------ forward

  /** The running sum of the forward loop: bias_j, then + weight(j, i) * x[i] for i < n. */
  function RowSum(l: Layer, j: nat, x: seq<real>, n: nat): real
    requires WellSized(l) && j < l.outputSize && n <= l.inputSize && l.inputSize <= |x|
  {
    if n == 0 then l.biases[j] else RowSum(l, j, x, n - 1) + Weight(l, j, n - 1) * x[n - 1]
  }

  /** The pre-activation sum of unit j on input x. */
  function PreActivation(l: Layer, j: nat, x: seq<real>): real
    requires WellSized(l) && j < l.outputSize && l.inputSize <= |x|
  {
    RowSum(l, j, x, l.inputSize)
  }

  /** The sum reads only the first inputSize entries of x, which is why a longer
      cached input behaves like its prefix. */
  lemma {:induction false} RowSumPrefix(l: Layer, j: nat, x: seq<real>, y: seq<real>, n: nat)
    requires WellSized(l) && j < l.outputSize && n <= l.inputSize && l.inputSize <= |x| && l.inputSize <= |y|
    requires x[..l.inputSize] == y[..l.inputSize]
    ensures RowSum(l, j, x, n) == RowSum(l, j, y, n)
  {
    if n > 0 {
      RowSumPrefix(l, j, x, y, n - 1);
      assert x[n - 1] == x[..l.inputSize][n - 1] == y[..l.inputSize][n - 1] == y[n - 1];
    }
  }

  /** With all weights zero a unit outputs its activated bias, whatever the input. */
  lemma {:induction false} RowSumZeroWeights(l: Layer, j: nat, x: seq<real>, n: nat)
    requires WellSized(l) && j < l.outputSize && n <= l.inputSize && l.inputSize <= |x|
    requires forall k | 0 <= k < |l.weights| :: l.weights[k] == 0.0
    ensures RowSum(l, j, x, n) == l.biases[j]
  {
    if n > 0 {
      RowSumZeroWeights(l, j, x, n - 1);
      WeightIndexBound(j, n - 1, l.outputSize, l.inputSize);
    }
  }

  /** The inner loop of forwardInternal for unit j. */
  method ComputeRowSum(l: Layer, j: nat, x: seq<real>) returns (sum: real)
    requires WellSized(l) && j < l.outputSize && l.inputSize <= |x|
    ensures sum == PreActivation(l, j, x)
  {
    sum := l.biases[j];
    var i := 0;
    while i < l.inputSize
      invariant i <= l.inputSize
      invariant sum == RowSum(l, j, x, i)
    {
      WeightIndexBound(j, i, l.outputSize, l.inputSize);
      sum := sum + l.weights[j * l.inputSize + i] * x[i];
      i := i + 1;
    }
  }

  /** The layer after one forward step on x: x is cached as the input and unit j
      outputs activate(pre-activation of j). Weights, biases and deltas stay. */
  function Forwarded(m: Numerics, l: Layer, x: seq<real>): (r: Layer)
    requires WellSized(l) && l.inputSize <= |x|
    ensures WellSized(r) && r.input == x
    ensures r == l.(input := x, output := r.output) && |r.output| == l.outputSize
  {
    l.(input := x, output := seq(l.outputSize, j requires 0 <= j < l.outputSize => Activate(m, PreActivation(l, j, x), l.activation)))
  }

  /** Every output of a ReLU layer is non-negative and every sigmoid output lies in (0, 1). */
  lemma {:induction false} ForwardedRange(m: Numerics, l: Layer, x: seq<real>)
    requires WellSized(l) && l.inputSize <= |x|
    ensures l.activation == ActivationType.ReLU ==> forall j | 0 <= j < l.outputSize :: Forwarded(m, l, x).output[j] >= 0.0
    ensures l.activation == ActivationType.Sigmoid ==> forall j | 0 <= j < l.outputSize :: 0.0 < Forwarded(m, l, x).output[j] < 1.0
    ensures l.activation == ActivationType.Tanh ==> forall j | 0 <= j < l.outputSize :: -1.0 < Forwarded(m, l, x).output[j] < 1.0
  {
    forall j | 0 <= j < l.outputSize
      ensures var y := Forwarded(m, l, x).output[j];
        (l.activation == ActivationType.ReLU ==> y >= 0.0)
        && (l.activation == ActivationType.Sigmoid ==> 0.0 < y < 1.0)
        && (l.activation == ActivationType.Tanh ==> -1.0 < y < 1.0)
    {
      var s := PreActivation(l, j, x);
      assert Forwarded(m, l, x).output[j] == Activate(m, s, l.activation);
    }
  }

  /** One layer of forwardInternal: cache x, then fill output[j] unit by unit. */
  method ForwardLayer(m: Numerics, l: Layer, x: seq<real>) returns (r: Layer)
    requires WellSized(l) && l.inputSize <= |x|
    ensures r == Forwarded(m, l, x)
  {
    var output := l.output;
    var j := 0;
    while j < l.outputSize
      invariant j <= l.outputSize && |output| == l.outputSize
      invariant forall u | 0 <= u < j :: output[u] == Activate(m, PreActivation(l, u, x), l.activation)
    {
      var sum := ComputeRowSum(l, j, x);
      output := output[j := Activate(m, sum, l.activation)];
      j := j + 1;
    }
    r := l.(input := x, output := output);
    assert r.output == Forwarded(m, l, x).output;
  }

  /** Layer j + 1 reads what layer j writes. */
  predicate Link(ls: seq<Layer>, j: nat)
    requires j + 1 < |ls|
  {
    ls[j + 1].inputSize == ls[j].outputSize
  }

  /** Consecutive layers fit: layer k reads what layer k - 1 writes. */
  predicate Chained(ls: seq<Layer>)
  {
    && (forall k | 0 <= k < |ls| :: WellSized(ls[k]))
    && (forall j: nat {:trigger Link(ls, j)} | j + 1 < |ls| :: Link(ls, j))
  }

  /** Two layer lists with the same shapes, outputs and activations. */
  predicate SameShapes(ls: seq<Layer>, ls': seq<Layer>)
  {
    |ls'| == |ls| && forall k | 0 <= k < |ls| ::
      ls'[k].inputSize == ls[k].inputSize && ls'[k].outputSize == ls[k].outputSize
      && ls'[k].activation == ls[k].activation
  }

  /** l' is l with new input and output caches of the sizes forward leaves. */
  predicate CachesOnly(l: Layer, l': Layer)
  {
    l' == l.(input := l'.input, output := l'.output) && |l'.output| == l.outputSize && l.inputSize <= |l'.input|
  }

  /** l' is l with a new delta of the layer's width. */
  predicate DeltaOnly(l: Layer, l': Layer)
  {
    l' == l.(delta := l'.delta) && |l'.delta| == l.outputSize
  }

  /** Changing caches or deltas keeps a chain a chain with the same shapes. */
  lemma {:induction false} FramedChain(ls: seq<Layer>, r: seq<Layer>)
    requires Chained(ls) && |r| == |ls|
    requires forall k | 0 <= k < |ls| :: CachesOnly(ls[k], r[k]) || DeltaOnly(ls[k], r[k])
    ensures Chained(r) && SameShapes(ls, r)
  {
    forall k | 0 <= k < |ls|
      ensures WellSized(r[k]) && r[k].inputSize == ls[k].inputSize && r[k].outputSize == ls[k].outputSize
    {
      assert CachesOnly(ls[k], r[k]) || DeltaOnly(ls[k], r[k]);
    }
    ResizedChain(ls, r);
  }

  /** Layers of the same sizes as a chain's, each well sized, form a chain. */
  lemma ResizedChain(ls: seq<Layer>, r: seq<Layer>)
    requires Chained(ls) && |r| == |ls|
    requires forall k | 0 <= k < |ls| ::
      WellSized(r[k]) && r[k].inputSize == ls[k].inputSize && r[k].outputSize == ls[k].outputSize
    ensures Chained(r)
  {
    forall j: nat | j + 1 < |r|
      ensures Link(r, j)
    {
      assert Link(ls, j);
    }
  }

  /** The vector entering layer k of the forward pass: x for the first layer, the
      previous layer's output on its own input for every later one. */
  function LayerInput(m: Numerics, ls: seq<Layer>, x: seq<real>, k: nat): (v: seq<real>)
    requires Chained(ls) && 0 < |ls| && ls[0].inputSize <= |x| && k < |ls|
    ensures ls[k].inputSize <= |v|
    ensures 0 < k ==> |v| == ls[k - 1].outputSize
  {
    if k == 0 then x else assert Link(ls, k - 1); Forwarded(m, ls[k - 1], LayerInput(m, ls, x, k - 1)).output
  }

  /** The forward pass over a chain: every layer forwarded on what enters it. It
      changes only the input and output caches. */
  function ForwardAll(m: Numerics, ls: seq<Layer>, x: seq<real>): (r: seq<Layer>)
    requires Chained(ls) && 0 < |ls| && ls[0].inputSize <= |x|
    ensures |r| == |ls| && forall k {:trigger CachesOnly(ls[k], r[k])} | 0 <= k < |ls| :: CachesOnly(ls[k], r[k])
    ensures Chained(r)
  {
    var r := seq(|ls|, k requires 0 <= k < |ls| => Forwarded(m, ls[k], LayerInput(m, ls, x, k)));
    FramedChain(ls, r);
    r
  }

  /** The wiring of the forward pass: layer 0 caches x, layer k caches layer k - 1's
      new output, and every layer's output is its activated sums on what it cached. */
  lemma {:induction false} ForwardAllWiring(m: Numerics, ls: seq<Layer>, x: seq<real>, k: nat)
    requires Chained(ls) && 0 < |ls| && ls[0].inputSize <= |x| && k < |ls|
    ensures var r := ForwardAll(m, ls, x);
      && r[k].input == (if k == 0 then x else r[k - 1].output)
      && r[k] == Forwarded(m, ls[k], r[k].input)
  {
    var r := ForwardAll(m, ls, x);
    assert r[k] == Forwarded(m, ls[k], LayerInput(m, ls, x, k));
    if k > 0 {
      assert r[k - 1] == Forwarded(m, ls[k - 1], LayerInput(m, ls, x, k - 1));
    }
  }

  /** The frame step of a loop that rewrites a layer list front to back: entries
      below k are new and the rest old, and writing entry k keeps that shape. */
  lemma ReplaceNext<T>(before: seq<T>, after: seq<T>, r: seq<T>, k: nat, v: T)
    requires |r| == |before| == |after| && k < |before| && v == after[k]
    requires forall u | 0 <= u < |before| :: r[u] == if u < k then after[u] else before[u]
    ensures forall u | 0 <= u < |before| :: r[k := v][u] == if u < k + 1 then after[u] else before[u]
  {
  }

  /** The same step for a loop that runs back to front: entries from k on are new. */
  lemma ReplaceBelow<T>(before: seq<T>, after: seq<T>, r: seq<T>, k: nat, v: T)
    requires |r| == |before| == |after| && 0 < k <= |before| && v == after[k - 1]
    requires forall u | 0 <= u < |before| :: r[u] == if u < k then before[u] else after[u]
    ensures forall u | 0 <= u < |before| :: r[k - 1 := v][u] == if u < k - 1 then before[u] else after[u]
  {
  }

  /** The layer loop of forwardInternal; the result is the last layer's output. */
  method ForwardLayers(m: Numerics, ls: seq<Layer>, x: seq<real>) returns (r: seq<Layer>, y: seq<real>)
    requires Chained(ls) && 0 < |ls| && ls[0].inputSize <= |x|
    ensures r == ForwardAll(m, ls, x) && r == ForwardChain(m, ls, x)
    ensures |r| == |ls| && y == r[|r| - 1].output
  {
    r := [];
    var current := x;
    var k := 0;
    assert ls[k..] == ls;
    while k < |ls|
      invariant k <= |ls| && |r| == k && Chained(ls[k..])
      invariant k < |ls| ==> ls[k].inputSize <= |current|
      invariant r + ForwardChain(m, ls[k..], current) == ForwardChain(m, ls, x)
      invariant 0 < k ==> current == r[k - 1].output
    {
      ChainedTail(ls[k..]);
      assert ls[k..][1..] == ls[k + 1..];
      assert k + 1 < |ls| ==> Link(ls[k..], 0);
      var l := ForwardLayer(m, ls[k], current);
      ghost var rest := ForwardChain(m, ls[k + 1..], l.output);
      assert ForwardChain(m, ls[k..], current) == [l] + rest;
      Reassociate(r, [l], rest);
      r := r + [l];
      current := l.output;
      k := k + 1;
    }
    y := current;
    ForwardChainIsForwardAll(m, ls, x);
  }

  lemma Reassociate<T>(a: seq<T>, b: seq<T>, c: seq<T>)
    ensures a + b + c == a + (b + c)
  {
  }

  /** A chain without its first layer is a chain. */
  lemma ChainedTail(ls: seq<Layer>)
    requires Chained(ls) && 0 < |ls|
    ensures Chained(ls[1..])
  {
    forall j: nat | j + 1 < |ls| - 1
      ensures Link(ls[1..], j)
    {
      assert Link(ls, j + 1);
    }
  }

  /** The forward pass read as a recursion over the chain: the first layer forwards x
      and the rest of the chain forwards its output. */
  function ForwardChain(m: Numerics, ls: seq<Layer>, x: seq<real>): (r: seq<Layer>)
    requires Chained(ls) && (0 < |ls| ==> ls[0].inputSize <= |x|)
    ensures |r| == |ls| && forall k {:trigger CachesOnly(ls[k], r[k])} | 0 <= k < |ls| :: CachesOnly(ls[k], r[k])
    decreases |ls|
  {
    if |ls| == 0 then []
    else
      var l := Forwarded(m, ls[0], x);
      ChainedTail(ls);
      assert 1 < |ls| ==> Link(ls, 0);
      var rest := ForwardChain(m, ls[1..], l.output);
      assert forall k | 1 <= k < |ls| ::
        ([l] + rest)[k] == rest[k - 1] && ls[k] == ls[1..][k - 1] && CachesOnly(ls[1..][k - 1], rest[k - 1]);
      [l] + rest
  }

  /** What enters layer k of the rest of a chain, when x entered the first layer, is
      what enters layer k + 1 of the whole chain. */
  lemma {:induction false} LayerInputTail(m: Numerics, ls: seq<Layer>, x: seq<real>, k: nat)
    requires Chained(ls) && 1 < |ls| && ls[0].inputSize <= |x| && 0 < k < |ls|
    ensures Chained(ls[1..]) && ls[1].inputSize <= |Forwarded(m, ls[0], x).output|
    ensures LayerInput(m, ls[1..], Forwarded(m, ls[0], x).output, k - 1) == LayerInput(m, ls, x, k)
    decreases k
  {
    ChainedTail(ls);
    assert Link(ls, 0);
    if k > 1 {
      LayerInputTail(m, ls, x, k - 1);
    }
  }

  /** The recursion and the index-by-index definition of the forward pass agree. */
  lemma {:induction false} ForwardChainIsForwardAll(m: Numerics, ls: seq<Layer>, x: seq<real>)
    requires Chained(ls) && 0 < |ls| && ls[0].inputSize <= |x|
    ensures ForwardChain(m, ls, x) == ForwardAll(m, ls, x)
    decreases |ls|
  {
    var r := ForwardChain(m, ls, x);
    var all := ForwardAll(m, ls, x);
    var l := Forwarded(m, ls[0], x);
    forall k | 0 <= k < |ls|
      ensures r[k] == all[k]
    {
      assert all[k] == Forwarded(m, ls[k], LayerInput(m, ls, x, k));
      if k > 0 {
        LayerInputTail(m, ls, x, k);
        ForwardChainIsForwardAll(m, ls[1..], l.output);
        var tail := ForwardAll(m, ls[1..], l.output);
        assert tail[k - 1] == Forwarded(m, ls[1..][k - 1], LayerInput(m, ls[1..], l.output, k - 1));
      }
    }
  }

  // ------------------------------------------------------------------ backward

  /** delta_j of the output layer: (target_j - output_j) * activateDerivative(sum_j),
      the sum recomputed from the cached input. */
  function OutputDelta(m: Numerics, l: Layer, target: seq<real>): (d: seq<real>)
    requires WellSized(l) && |target| == l.outputSize
    ensures |d| == l.outputSize
  {
    seq(l.outputSize, j requires 0 <= j < l.outputSize =>
      (target[j] - l.output[j]) * ActivateDerivative(m, PreActivation(l, j, l.input), l.activation))
  }

  /** The error reaching unit i of a layer from the next one: sum over j < n of
      next.weight(j, i) * next.delta_j, starting from 0. */
  function BackSum(next: Layer, i: nat, n: nat): real
    requires WellSized(next) && i < next.inputSize && n <= next.outputSize
  {
    if n == 0 then 0.0 else BackSum(next, i, n - 1) + Weight(next, n - 1, i) * next.delta[n - 1]
  }

  /** delta_i of a hidden layer: the error from the next layer times activateDerivative(sum_i). */
  function HiddenDelta(m: Numerics, l: Layer, next: Layer): (d: seq<real>)
    requires WellSized(l) && WellSized(next) && next.inputSize == l.outputSize
    ensures |d| == l.outputSize
  {
    seq(l.outputSize, i requires 0 <= i < l.outputSize =>
      BackSum(next, i, next.outputSize) * ActivateDerivative(m, PreActivation(l, i, l.input), l.activation))
  }

  /** The error loop over the next layer's units. */
  method ComputeBackSum(next: Layer, i: nat) returns (error: real)
    requires WellSized(next) && i < next.inputSize
    ensures error == BackSum(next, i, next.outputSize)
  {
    error := 0.0;
    var j := 0;
    while j < next.outputSize
      invariant j <= next.outputSize
      invariant error == BackSum(next, i, j)
    {
      WeightIndexBound(j, i, next.outputSize, next.inputSize);
      error := error + next.weights[j * next.inputSize + i] * next.delta[j];
      j := j + 1;
    }
  }

  /** The output-delta loop of backwardInternal. */
  method ComputeOutputDelta(m: Numerics, l: Layer, target: seq<real>) returns (d: seq<real>)
    requires WellSized(l) && |target| == l.outputSize
    ensures d == OutputDelta(m, l, target)
  {
    d := l.delta;
    var j := 0;
    while j < l.outputSize
      invariant j <= l.outputSize && |d| == l.outputSize
      invariant forall u | 0 <= u < j :: d[u] == OutputDelta(m, l, target)[u]
    {
      var error := target[j] - l.output[j];
      var sum := ComputeRowSum(l, j, l.input);
      d := d[j := error * ActivateDerivative(m, sum, l.activation)];
      j := j + 1;
    }
  }

  /** The hidden-delta loop of backwardInternal for one layer. */
  method ComputeHiddenDelta(m: Numerics, l: Layer, next: Layer) returns (d: seq<real>)
    requires WellSized(l) && WellSized(next) && next.inputSize == l.outputSize
    ensures d == HiddenDelta(m, l, next)
  {
    d := l.delta;
    var i := 0;
    while i < l.outputSize
      invariant i <= l.outputSize && |d| == l.outputSize
      invariant forall u | 0 <= u < i :: d[u] == HiddenDelta(m, l, next)[u]
    {
      var error := ComputeBackSum(next, i);
      var sum := ComputeRowSum(l, i, l.input);
      d := d[i := error * ActivateDerivative(m, sum, l.activation)];
      i := i + 1;
    }
  }

  /** The last layer of a non-empty list. */
  function Last(ls: seq<Layer>): Layer
    requires |ls| > 0
  {
    ls[|ls| - 1]
  }

  /** The delta back-propagation leaves in layer k: the output delta for the last
      layer, and for every earlier one the hidden delta from layer k + 1 holding its own. */
  function DeltaAt(m: Numerics, ls: seq<Layer>, target: seq<real>, k: nat): (d: seq<real>)
    requires Chained(ls) && k < |ls| && |target| == Last(ls).outputSize
    ensures |d| == ls[k].outputSize
    decreases |ls| - k
  {
    if k == |ls| - 1 then OutputDelta(m, ls[k], target)
    else assert Link(ls, k); HiddenDelta(m, ls[k], ls[k + 1].(delta := DeltaAt(m, ls, target, k + 1)))
  }

  /** Back-propagation over a chain: every layer takes its delta; nothing else changes. */
  function Backpropagated(m: Numerics, ls: seq<Layer>, target: seq<real>): (r: seq<Layer>)
    requires Chained(ls) && |ls| > 0 && |target| == Last(ls).outputSize
    ensures |r| == |ls| && forall k | 0 <= k < |ls| :: DeltaOnly(ls[k], r[k])
    ensures Chained(r)
  {
    var r := seq(|ls|, k requires 0 <= k < |ls| => ls[k].(delta := DeltaAt(m, ls, target, k)));
    FramedChain(ls, r);
    r
  }

  /** Backpropagation read as a recursion over the chain: the last layer takes its
      output delta, and every earlier layer its hidden delta in front of the layer
      after it, once that one has its own. */
  function BackwardChain(m: Numerics, ls: seq<Layer>, target: seq<real>): (r: seq<Layer>)
    requires Chained(ls) && 0 < |ls| && |target| == Last(ls).outputSize
    ensures |r| == |ls| && forall k {:trigger DeltaOnly(ls[k], r[k])} | 0 <= k < |ls| :: DeltaOnly(ls[k], r[k])
    decreases |ls|
  {
    if |ls| == 1 then [ls[0].(delta := OutputDelta(m, ls[0], target))]
    else
      ChainedTail(ls);
      var rest := BackwardChain(m, ls[1..], target);
      assert Link(ls, 0) && DeltaOnly(ls[1..][0], rest[0]);
      var r := [ls[0].(delta := HiddenDelta(m, ls[0], rest[0]))] + rest;
      assert forall k | 1 <= k < |ls| ::
        r[k] == rest[k - 1] && ls[k] == ls[1..][k - 1] && DeltaOnly(ls[1..][k - 1], rest[k - 1]);
      r
  }

  /** The delta of layer k of the rest of a chain is the delta of layer k + 1 of the whole. */
  lemma {:induction false} DeltaAtTail(m: Numerics, ls: seq<Layer>, target: seq<real>, k: nat)
    requires Chained(ls) && 1 < |ls| && |target| == Last(ls).outputSize && 0 < k < |ls|
    ensures Chained(ls[1..])
    ensures DeltaAt(m, ls[1..], target, k - 1) == DeltaAt(m, ls, target, k)
    decreases |ls| - k
  {
    ChainedTail(ls);
    if k < |ls| - 1 {
      DeltaAtTail(m, ls, target, k + 1);
      assert Link(ls, k);
    }
  }

  /** Layer k of the recursion holds the delta DeltaAt gives it. */
  lemma {:induction false} BackwardChainAt(m: Numerics, ls: seq<Layer>, target: seq<real>, k: nat)
    requires Chained(ls) && 0 < |ls| && |target| == Last(ls).outputSize && k < |ls|
    ensures BackwardChain(m, ls, target)[k] == ls[k].(delta := DeltaAt(m, ls, target, k))
    decreases |ls|
  {
    if 1 < |ls| {
      ChainedTail(ls);
      var j := if k == 0 then 1 else k;
      BackwardChainAt(m, ls[1..], target, j - 1);
      DeltaAtTail(m, ls, target, j);
      assert Link(ls, 0);
    }
  }

  /** The recursion and the index-by-index definition of backpropagation agree. */
  lemma BackwardChainIsBackpropagated(m: Numerics, ls: seq<Layer>, target: seq<real>)
    requires Chained(ls) && 0 < |ls| && |target| == Last(ls).outputSize
    ensures BackwardChain(m, ls, target) == Backpropagated(m, ls, target)
  {
    var r := BackwardChain(m, ls, target);
    var b := Backpropagated(m, ls, target);
    forall k | 0 <= k < |ls|
      ensures r[k] == b[k]
    {
      BackwardChainAt(m, ls, target, k);
    }
  }

  /** backwardInternal after its checks: the output layer first, then l = n - 2 down to 0,
      each hidden layer reading the delta its successor has just received. */
  method BackwardLayers(m: Numerics, ls: seq<Layer>, target: seq<real>) returns (r: seq<Layer>)
    requires Chained(ls) && |ls| > 0 && |target| == Last(ls).outputSize
    ensures r == Backpropagated(m, ls, target)
  {
    ghost var spec := Backpropagated(m, ls, target);
    var n := |ls|;
    var d := ComputeOutputDelta(m, ls[n - 1], target);
    ReplaceBelow(ls, spec, ls, n, ls[n - 1].(delta := d));
    r := ls[n - 1 := ls[n - 1].(delta := d)];
    var l := n - 1;
    while l > 0
      invariant 0 <= l < n && |r| == n
      invariant forall u | 0 <= u < n :: r[u] == if u < l then ls[u] else spec[u]
    {
      assert Link(ls, l - 1);
      var h := ComputeHiddenDelta(m, ls[l - 1], r[l]);
      ReplaceBelow(ls, spec, r, l, ls[l - 1].(delta := h));
      r := r[l - 1 := ls[l - 1].(delta := h)];
      l := l - 1;
    }
    assert r == spec;
  }

  // ------------------------------------------------------------------ update

  /** Flat weight k after the update: it sits in row k / inputSize and column
      k % inputSize, and moves by (lr * delta_row) * input_column. */
  function UpdatedCell(l: Layer, learningRate: real, k: nat): real
    requires WellSized(l) && k < |l.weights|
  {
    WeightIndexSplit(k, l.outputSize, l.inputSize);
    l.weights[k] + (learningRate * l.delta[k / l.inputSize]) * l.input[k % l.inputSize]
  }

  /** updateWeightsInternal on one layer: weight(j, i) += (lr * delta_j) * input_i and
      bias_j += lr * delta_j; nothing else changes. */
  function Updated(l: Layer, learningRate: real): (r: Layer)
    requires WellSized(l)
    ensures WellSized(r) && r == l.(weights := r.weights, biases := r.biases)
    ensures forall j | 0 <= j < l.outputSize :: r.biases[j] == l.biases[j] + learningRate * l.delta[j]
  {
    l.(weights := seq(|l.weights|, k requires 0 <= k < |l.weights| => UpdatedCell(l, learningRate, k)),
       biases := seq(l.outputSize, j requires 0 <= j < l.outputSize => l.biases[j] + learningRate * l.delta[j]))
  }

  /** Weight (j, i) moves by the outer product (lr * delta_j) * input_i. */
  lemma {:induction false} UpdatedWeight(l: Layer, learningRate: real, o: nat, i: nat)
    requires WellSized(l) && o < l.outputSize && i < l.inputSize
    ensures Weight(Updated(l, learningRate), o, i) == Weight(l, o, i) + (learningRate * l.delta[o]) * l.input[i]
  {
    WeightIndexBound(o, i, l.outputSize, l.inputSize);
    WeightIndexParts(o, i, l.inputSize);
  }

  /** A zero learning rate, or all-zero deltas, leave the layer as it was. */
  lemma {:induction false} UpdatedIdle(l: Layer, learningRate: real)
    requires WellSized(l)
    requires learningRate == 0.0 || ZeroDelta(l)
    ensures Updated(l, learningRate) == l
  {
    var r := Updated(l, learningRate);
    forall k | 0 <= k < |l.weights|
      ensures r.weights[k] == l.weights[k]
    {
      WeightIndexSplit(k, l.outputSize, l.inputSize);
      assert learningRate * l.delta[k / l.inputSize] == 0.0;
      assert r.weights[k] == UpdatedCell(l, learningRate, k);
    }
    assert r.weights == l.weights;
    forall j | 0 <= j < l.outputSize
      ensures r.biases[j] == l.biases[j]
    {
      assert learningRate * l.delta[j] == 0.0;
    }
    assert r.biases == l.biases;
  }

  /** The row loop of updateWeightsInternal for unit j: the cells of row j, at
      j * inputSize + i, take their updated values. */
  method UpdateRow(l: Layer, learningRate: real, j: nat, w: seq<real>) returns (w': seq<real>)
    requires WellSized(l) && j < l.outputSize && |w| == |l.weights|
    requires forall k | 0 <= k < |w| :: w[k] == if k < j * l.inputSize then UpdatedCell(l, learningRate, k) else l.weights[k]
    ensures |w'| == |w|
    ensures forall k | 0 <= k < |w| :: w'[k] == if k < (j + 1) * l.inputSize then UpdatedCell(l, learningRate, k) else l.weights[k]
  {
    var deltaLr := learningRate * l.delta[j];
    var base := j * l.inputSize;
    NextRow(j, l.inputSize);
    w' := w;
    var i := 0;
    while i < l.inputSize
      invariant i <= l.inputSize && |w'| == |w|
      invariant forall k | 0 <= k < |w| :: w'[k] == if k < base + i then UpdatedCell(l, learningRate, k) else l.weights[k]
    {
      WeightIndexBound(j, i, l.outputSize, l.inputSize);
      WeightIndexParts(j, i, l.inputSize);
      assert UpdatedCell(l, learningRate, base + i) == l.weights[base + i] + deltaLr * l.input[i];
      w' := w'[base + i := w'[base + i] + deltaLr * l.input[i]];
      i := i + 1;
    }
  }

  /** updateWeightsInternal on one layer. */
  method UpdateLayer(l: Layer, learningRate: real) returns (r: Layer)
    requires WellSized(l)
    ensures r == Updated(l, learningRate)
  {
    ghost var spec := Updated(l, learningRate);
    var w := l.weights;
    var b := l.biases;
    var j := 0;
    while j < l.outputSize
      invariant j <= l.outputSize && |w| == |l.weights| && |b| == l.outputSize
      invariant forall k | 0 <= k < |w| :: w[k] == if k < j * l.inputSize then UpdatedCell(l, learningRate, k) else l.weights[k]
      invariant forall u | 0 <= u < l.outputSize :: b[u] == if u < j then spec.biases[u] else l.biases[u]
    {
      w := UpdateRow(l, learningRate, j, w);
      b := b[j := b[j] + learningRate * l.delta[j]];
      j := j + 1;
    }
    MulLeLeft(l.outputSize, j, l.inputSize);
    assert w == spec.weights;
    assert b == spec.biases;
    r := l.(weights := w, biases := b);
  }

  /** Every layer of a chain updated. */
  function UpdatedAll(ls: seq<Layer>, learningRate: real): (r: seq<Layer>)
    requires Chained(ls)
    ensures Chained(r) && SameShapes(ls, r)
  {
    var r := seq(|ls|, k requires 0 <= k < |ls| => Updated(ls[k], learningRate));
    ResizedChain(ls, r);
    r
  }

  /** The update read as a recursion over the chain. */
  function UpdateChain(ls: seq<Layer>, learningRate: real): (r: seq<Layer>)
    requires Chained(ls)
    ensures Chained(r) && SameShapes(ls, r)
    decreases |ls|
  {
    if |ls| == 0 then []
    else
      ChainedTail(ls);
      var rest := UpdateChain(ls[1..], learningRate);
      var r := [Updated(ls[0], learningRate)] + rest;
      assert forall k | 1 <= k < |ls| :: r[k] == rest[k - 1] && ls[k] == ls[1..][k - 1];
      ResizedChain(ls, r);
      r
  }

  /** Entry k of the recursive update is layer k updated. */
  lemma {:induction false} UpdateChainAt(ls: seq<Layer>, learningRate: real, k: nat)
    requires Chained(ls) && k < |ls|
    ensures UpdateChain(ls, learningRate)[k] == Updated(ls[k], learningRate)
    decreases k
  {
    if 0 < k {
      ChainedTail(ls);
      UpdateChainAt(ls[1..], learningRate, k - 1);
    }
  }

  /** The recursion and the index-by-index definition of the update agree. */
  lemma UpdateChainIsUpdatedAll(ls: seq<Layer>, learningRate: real)
    requires Chained(ls)
    ensures UpdateChain(ls, learningRate) == UpdatedAll(ls, learningRate)
  {
    var r := UpdateChain(ls, learningRate);
    var u := UpdatedAll(ls, learningRate);
    forall k | 0 <= k < |ls|
      ensures r[k] == u[k]
    {
      UpdateChainAt(ls, learningRate, k);
    }
  }

  /** The layer loop of updateWeightsInternal. */
  method UpdateLayers(ls: seq<Layer>, learningRate: real) returns (r: seq<Layer>)
    requires Chained(ls)
    ensures r == UpdatedAll(ls, learningRate)
  {
    ghost var spec := UpdatedAll(ls, learningRate);
    r := ls;
    var k := 0;
    while k < |ls|
      invariant k <= |ls| && |r| == |ls|
      invariant forall u | 0 <= u < |ls| :: r[u] == if u < k then spec[u] else ls[u]
    {
      var l := UpdateLayer(r[k], learningRate);
      ReplaceNext(ls, spec, r, k, l);
      r := r[k := l];
      k := k + 1;
    }
  }

  /** A sample the network already reproduces exactly is a fixed point of training:
      backpropagating an exact target produces all-zero deltas in every layer, so the
      update that follows changes no weight and no bias. */
  lemma {:induction false} ExactTargetZeroDeltas(m: Numerics, ls: seq<Layer>, target: seq<real>, k: nat)
    requires Chained(ls) && k < |ls| && target == Last(ls).output
    ensures ZeroDelta(ls[k].(delta := DeltaAt(m, ls, target, k)))
    decreases |ls| - k
  {
    if k == |ls| - 1 {
      ExactOutputZero(m, ls[k], target);
    } else {
      ExactTargetZeroDeltas(m, ls, target, k + 1);
      assert Link(ls, k);
      HiddenDeltaZero(m, ls[k], ls[k + 1].(delta := DeltaAt(m, ls, target, k + 1)));
    }
  }

  /** An output layer whose output is its target gets a zero delta. */
  lemma ExactOutputZero(m: Numerics, l: Layer, target: seq<real>)
    requires WellSized(l) && target == l.output
    ensures ZeroDelta(l.(delta := OutputDelta(m, l, target)))
  {
    var d := OutputDelta(m, l, target);
    forall j | 0 <= j < |d|
      ensures d[j] == 0.0
    {
      assert target[j] - l.output[j] == 0.0;
    }
  }

  /** A hidden layer in front of a layer with zero deltas gets a zero delta. */
  lemma HiddenDeltaZero(m: Numerics, l: Layer, next: Layer)
    requires WellSized(l) && WellSized(next) && next.inputSize == l.outputSize && ZeroDelta(next)
    ensures ZeroDelta(l.(delta := HiddenDelta(m, l, next)))
  {
    var d := HiddenDelta(m, l, next);
    forall i | 0 <= i < |d|
      ensures d[i] == 0.0
    {
      BackSumZero(next, i, next.outputSize);
    }
  }

  /** Every delta entry of l is zero. */
  predicate ZeroDelta(l: Layer)
  {
    forall j | 0 <= j < |l.delta| :: l.delta[j] == 0.0
  }

  lemma {:induction false} BackSumZero(next: Layer, i: nat, n: nat)
    requires WellSized(next) && i < next.inputSize && n <= next.outputSize
    requires ZeroDelta(next)
    ensures BackSum(next, i, n) == 0.0
  {
    if n > 0 {
      BackSumZero(next, i, n - 1);
    }
  }

  /** Backward then update on an exact target leaves every layer's weights and biases. */
  lemma {:induction false} ExactTargetIsFixedPoint(m: Numerics, ls: seq<Layer>, target: seq<real>, learningRate: real)
    requires Chained(ls) && |ls| > 0 && target == Last(ls).output
    ensures var r := UpdatedAll(Backpropagated(m, ls, target), learningRate);
      forall k | 0 <= k < |ls| :: r[k].weights == ls[k].weights && r[k].biases == ls[k].biases
  {
    var b := Backpropagated(m, ls, target);
    forall k | 0 <= k < |ls|
      ensures Updated(b[k], learningRate).weights == ls[k].weights && Updated(b[k], learningRate).biases == ls[k].biases
    {
      ExactTargetZeroDeltas(m, ls, target, k);
      UpdatedIdle(b[k], learningRate);
    }
  }

  // ------------------------------------------------------------------ loss

  /** The identity. Square multiplies by Mirror(x) rather than by x itself, which keeps
      the product out of the solver's square-specific rewriting. */
  function Mirror(x: real): (r: real)
    ensures r == x
  {
    x
  }

  /** x * x. */
  function Square(x: real): real
  {
    x * Mirror(x)
  }

  lemma SquarePositive(d: real)
    requires d != 0.0
    ensures d * d > 0.0
  {
    if d > 0.0 {
      assert d * d > 0.0 * d;
    } else {
      assert (-d) * (-d) > 0.0 * (-d);
      assert (-d) * (-d) == d * d;
    }
  }

  /** A square is never negative, and it is zero only at zero. */
  lemma SquareSign(d: real)
    ensures Square(d) >= 0.0
    ensures Square(d) == 0.0 <==> d == 0.0
  {
    if d != 0.0 {
      SquarePositive(d);
    }
  }

  /** Sum over i < n of (target_i - output_i)^2, accumulated left to right. */
  function SquaredErrorSum(output: seq<real>, target: seq<real>, n: nat): real
    requires n <= |output| == |target|
  {
    if n == 0 then 0.0
    else SquaredErrorSum(output, target, n - 1) + Square(target[n - 1] - output[n - 1])
  }

  /** calculateLossInternal: the mean of the squared differences, after the two checks. */
  function MeanSquaredError(output: seq<real>, target: seq<real>): (r: Result<real>)
    ensures r.Err? <==> |output| == 0 || |target| != |output|
    ensures |output| == 0 ==> r == Err(InvalidArgument("Output cannot be empty for loss calculation"))
    ensures |output| > 0 && |target| != |output| ==> r == Err(InvalidArgument("Target size mismatch"))
  {
    if |output| == 0 then Err(InvalidArgument("Output cannot be empty for loss calculation"))
    else if |target| != |output| then Err(InvalidArgument("Target size mismatch"))
    else Ok(SquaredErrorSum(output, target, |output|) / |output| as real)
  }

  lemma {:induction false} SquaredErrorSumZero(output: seq<real>, target: seq<real>, n: nat)
    requires n <= |output| == |target|
    ensures SquaredErrorSum(output, target, n) >= 0.0
    ensures SquaredErrorSum(output, target, n) == 0.0 <==> output[..n] == target[..n]
  {
    if n > 0 {
      SquaredErrorSumZero(output, target, n - 1);
      var diff := target[n - 1] - output[n - 1];
      SquareSign(diff);
      assert output[..n] == output[..n - 1] + [output[n - 1]];
      assert target[..n] == target[..n - 1] + [target[n - 1]];
      if output[..n] == target[..n] {
        assert output[..n - 1] == target[..n - 1] by {
          assert output[..n - 1] == output[..n][..n - 1];
          assert target[..n - 1] == target[..n][..n - 1];
        }
        assert output[n - 1] == target[n - 1] by {
          assert output[n - 1] == output[..n][n - 1];
          assert target[n - 1] == target[..n][n - 1];
        }
      }
      if SquaredErrorSum(output, target, n) == 0.0 {
        assert diff == 0.0 && SquaredErrorSum(output, target, n - 1) == 0.0;
        assert output[..n - 1] == target[..n - 1];
      }
    }
  }

  /** The loss is never negative, and it is zero exactly when output equals target. */
  lemma {:induction false} MeanSquaredErrorMeaning(output: seq<real>, target: seq<real>)
    requires MeanSquaredError(output, target).Ok?
    ensures MeanSquaredError(output, target).value >= 0.0
    ensures MeanSquaredError(output, target).value == 0.0 <==> output == target
  {
    SquaredErrorSumZero(output, target, |output|);
    assert output[..|output|] == output;
    assert target[..|target|] == target;
  }

  /** calculateLossInternal. */
  method MeanSquaredLoss(output: seq<real>, target: seq<real>) returns (r: Result<real>)
    ensures r == MeanSquaredError(output, target)
  {
    if |output| == 0 {
      return Err(InvalidArgument("Output cannot be empty for loss calculation"));
    }
    if |target| != |output| {
      return Err(InvalidArgument("Target size mismatch"));
    }
    var loss := 0.0;
    var i := 0;
    while i < |output|
      invariant i <= |output|
      invariant loss == SquaredErrorSum(output, target, i)
    {
      var diff := target[i] - output[i];
      loss := loss + diff * diff;
      assert diff * diff == Square(diff);
      i := i + 1;
    }
    r := Ok(loss / |output| as real);
  }
}
