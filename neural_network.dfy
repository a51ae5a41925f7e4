/**
 * The multi-layer perceptron of include/neural_network.h and src/neural_network.cpp:
 * a builder that records layer sizes and activations, a build step that chains
 * dense layers inputSize -> size_0 -> size_1 -> ..., and forward, backward,
 * update, loss and train over the built chain. The per-layer arithmetic lives
 * in DenseLayers; this module adds the network's own state and checks.
 */
module NeuralNetworks {
  import opened Errors
  import opened Activations
  import opened DenseLayers
  import IndexArith

  // ------------------------------------------------------------------ build

  /** The size entering layer i of the chain build() creates. */
  function InputOf(inputSize: int, sizes: seq<int>, i: nat): int
    requires i < |sizes|
  {
    if i == 0 then inputSize else sizes[i - 1]
  }

  /** Every configured size below n is positive. */
  predicate PositiveBelow(sizes: seq<int>, n: nat)
    requires n <= |sizes|
  {
    forall i | 0 <= i < n :: sizes[i] > 0
  }

  /** The position of the first size a layer constructor rejects, or |sizes| if there is none. */
  function FirstBad(sizes: seq<int>): (f: nat)
    ensures f <= |sizes| && PositiveBelow(sizes, f)
    ensures f < |sizes| ==> sizes[f] <= 0
  {
    if |sizes| == 0 then 0
    else if sizes[0] <= 0 then 0
    else 1 + FirstBad(sizes[1..])
  }

  /** Layer i of the chain build() creates, drawing its weights from weightDraw(i) and
      its biases from biasDraw(i). */
  function ChainLayer(inputSize: int, sizes: seq<int>, acts: seq<ActivationType>,
                      weightDraw: nat -> nat -> real, biasDraw: nat -> nat -> real, i: nat): (l: Layer)
    requires 0 < inputSize && i < |sizes| <= |acts| && PositiveBelow(sizes, i + 1)
    ensures WellSized(l) && l.inputSize == InputOf(inputSize, sizes, i) && l.outputSize == sizes[i]
    ensures l.activation == acts[i]
  {
    NewLayer(InputOf(inputSize, sizes, i), sizes[i], acts[i], weightDraw(i), biasDraw(i)).value
  }

  /** The first n layers of the chain. */
  function ChainLayers(inputSize: int, sizes: seq<int>, acts: seq<ActivationType>,
                       weightDraw: nat -> nat -> real, biasDraw: nat -> nat -> real, n: nat): (r: seq<Layer>)
    requires 0 < inputSize && n <= |sizes| <= |acts| && PositiveBelow(sizes, n)
    ensures |r| == n && Chained(r)
    ensures forall i | 0 <= i < n :: r[i] == ChainLayer(inputSize, sizes, acts, weightDraw, biasDraw, i)
  {
    seq(n, i requires 0 <= i < n => ChainLayer(inputSize, sizes, acts, weightDraw, biasDraw, i))
  }

  /** One more layer extends the chain by that layer. */
  lemma ChainLayersExtend(inputSize: int, sizes: seq<int>, acts: seq<ActivationType>,
                          weightDraw: nat -> nat -> real, biasDraw: nat -> nat -> real, n: nat)
    requires 0 < inputSize && n < |sizes| <= |acts| && PositiveBelow(sizes, n + 1)
    ensures ChainLayers(inputSize, sizes, acts, weightDraw, biasDraw, n + 1)
      == ChainLayers(inputSize, sizes, acts, weightDraw, biasDraw, n) + [ChainLayer(inputSize, sizes, acts, weightDraw, biasDraw, n)]
  {
  }

  /** getLayerSizes(): the input size followed by every layer's output size. */
  function LayerSizes(inputSize: int, ls: seq<Layer>): (r: seq<int>)
    ensures |r| == |ls| + 1 && r[0] == inputSize
    ensures forall k | 0 <= k < |ls| :: r[k + 1] == ls[k].outputSize
  {
    [inputSize] + seq(|ls|, k requires 0 <= k < |ls| => ls[k].outputSize as int)
  }

  /** After a complete build, getLayerSizes reports exactly the configuration. */
  lemma {:induction false} BuiltLayerSizes(inputSize: int, sizes: seq<int>, acts: seq<ActivationType>,
                                           weightDraw: nat -> nat -> real, biasDraw: nat -> nat -> real)
    requires 0 < inputSize && 0 < |sizes| <= |acts| && PositiveBelow(sizes, |sizes|)
    ensures LayerSizes(inputSize, ChainLayers(inputSize, sizes, acts, weightDraw, biasDraw, |sizes|)) == [inputSize] + sizes
  {
    var ls := ChainLayers(inputSize, sizes, acts, weightDraw, biasDraw, |sizes|);
    forall k | 0 <= k < |ls|
      ensures ls[k].outputSize == sizes[k]
    {
      assert ls[k] == ChainLayer(inputSize, sizes, acts, weightDraw, biasDraw, k);
    }
    SizesOfOutputs(inputSize, ls, sizes);
  }

  lemma SizesOfOutputs(inputSize: int, ls: seq<Layer>, sizes: seq<int>)
    requires |ls| == |sizes| && forall k | 0 <= k < |ls| :: ls[k].outputSize == sizes[k]
    ensures LayerSizes(inputSize, ls) == [inputSize] + sizes
  {
    var r := LayerSizes(inputSize, ls);
    assert forall k | 0 <= k < |r| :: r[k] == ([inputSize] + sizes)[k];
  }

  /** A built chain reads inputSize values and writes as many as the last size says. */
  lemma {:induction false} BuiltChainEnds(inputSize: int, sizes: seq<int>, acts: seq<ActivationType>,
                                          weightDraw: nat -> nat -> real, biasDraw: nat -> nat -> real)
    requires 0 < inputSize && 0 < |sizes| <= |acts| && PositiveBelow(sizes, |sizes|)
    ensures var ls := ChainLayers(inputSize, sizes, acts, weightDraw, biasDraw, |sizes|);
      ls[0].inputSize == inputSize && Last(ls).outputSize == sizes[|sizes| - 1]
  {
    var ls := ChainLayers(inputSize, sizes, acts, weightDraw, biasDraw, |sizes|);
    assert ls[|sizes| - 1].outputSize == sizes[|sizes| - 1];
  }

  // ------------------------------------------------------------------ training

  /** Where train() stands after some samples: still running with the loss so far, or
      stopped by an exception, with the layers as the exception left them. */
  datatype Progress =
    | Running(layers: seq<Layer>, total: real)
    | Stopped(layers: seq<Layer>, error: Error)

  /** The layers of a built network: a non-empty chain whose first layer reads no more
      than inputSize values. A negative inputSize is no constraint: no input has that
      length, so forward rejects every input before it reaches the layers. */
  predicate Ready(ls: seq<Layer>, inputSize: int)
  {
    Chained(ls) && 0 < |ls| && (inputSize < 0 || ls[0].inputSize <= inputSize)
  }

  /** Two lists with the same shapes as a third have the same shapes as each other. */
  lemma SameShapesTrans(a: seq<Layer>, b: seq<Layer>, c: seq<Layer>)
    requires SameShapes(a, b) && SameShapes(b, c)
    ensures SameShapes(a, c)
  {
  }

  /** A chain with the shapes of a ready one is ready. */
  lemma ReadyShapes(ls: seq<Layer>, r: seq<Layer>, inputSize: int)
    requires Ready(ls, inputSize) && Chained(r) && SameShapes(ls, r)
    ensures Ready(r, inputSize)
  {
  }

  /** The forward pass keeps a ready chain ready. */
  lemma {:induction false} ForwardReady(m: Numerics, ls: seq<Layer>, inputSize: int, x: seq<real>)
    requires Ready(ls, inputSize) && |x| == inputSize
    ensures Ready(ForwardAll(m, ls, x), inputSize) && SameShapes(ls, ForwardAll(m, ls, x))
  {
    FramedChain(ls, ForwardAll(m, ls, x));
    ReadyShapes(ls, ForwardAll(m, ls, x), inputSize);
  }

  /** A sample of the right sizes: the layers after forward, backward and update. */
  function Trained(m: Numerics, ls: seq<Layer>, inputSize: int, x: seq<real>, t: seq<real>, learningRate: real): (r: seq<Layer>)
    requires Ready(ls, inputSize) && |x| == inputSize && |t| == Last(ls).outputSize
    ensures Ready(r, inputSize) && SameShapes(ls, r)
  {
    var fw := ForwardAll(m, ls, x);
    ForwardReady(m, ls, inputSize, x);
    var b := Backpropagated(m, fw, t);
    FramedChain(fw, b);
    var u := UpdatedAll(b, learningRate);
    SameShapesTrans(ls, fw, b);
    SameShapesTrans(ls, b, u);
    ReadyShapes(ls, u, inputSize);
    u
  }

  /** A sample of the right sizes: the loss calculateLossInternal reports after the
      forward pass. */
  function SampleLoss(m: Numerics, ls: seq<Layer>, inputSize: int, x: seq<real>, t: seq<real>): (loss: real)
    requires Ready(ls, inputSize) && |x| == inputSize && |t| == Last(ls).outputSize
    ensures MeanSquaredError(Last(ForwardAll(m, ls, x)).output, t) == Ok(loss)
  {
    var fw := ForwardAll(m, ls, x);
    var k := |ls| - 1;
    assert CachesOnly(ls[k], fw[k]);
    MeanSquaredError(fw[k].output, t).value
  }

  /** The sample loss is never negative. */
  lemma SampleLossNonNegative(m: Numerics, ls: seq<Layer>, inputSize: int, x: seq<real>, t: seq<real>)
    requires Ready(ls, inputSize) && |x| == inputSize && |t| == Last(ls).outputSize
    ensures SampleLoss(m, ls, inputSize, x, t) >= 0.0
  {
    MeanSquaredErrorMeaning(Last(ForwardAll(m, ls, x)).output, t);
  }

  /** One iteration of train()'s loop: forwardInternal rejects an input of the wrong
      length; calculateLossInternal rejects a target of the wrong length, after the
      forward pass has already replaced the caches; otherwise backward and update
      run and the sample's loss is added. */
  function Step(m: Numerics, ls: seq<Layer>, inputSize: int, x: seq<real>, t: seq<real>,
                learningRate: real, total: real): (p: Progress)
    requires Ready(ls, inputSize)
    ensures Ready(p.layers, inputSize)
  {
    if |x| != inputSize then Stopped(ls, InvalidArgument("Input size mismatch"))
    else if |t| != Last(ls).outputSize then
      ForwardReady(m, ls, inputSize, x);
      Stopped(ForwardAll(m, ls, x), InvalidArgument("Target size mismatch"))
    else Running(Trained(m, ls, inputSize, x, t, learningRate), total + SampleLoss(m, ls, inputSize, x, t))
  }

  /** The completed step, spelled out. */
  lemma StepRunning(m: Numerics, ls: seq<Layer>, inputSize: int, x: seq<real>, t: seq<real>,
                    learningRate: real, total: real)
    requires Ready(ls, inputSize) && |x| == inputSize && |t| == Last(ls).outputSize
    ensures Step(m, ls, inputSize, x, t, learningRate, total).Running?
    ensures Step(m, ls, inputSize, x, t, learningRate, total).layers
      == UpdatedAll(Backpropagated(m, ForwardAll(m, ls, x), t), learningRate)
    ensures Step(m, ls, inputSize, x, t, learningRate, total).total
      == total + MeanSquaredError(Last(ForwardAll(m, ls, x)).output, t).value
  {
    StepIsRunning(m, ls, inputSize, x, t, learningRate, total);
    StepLayers(m, ls, inputSize, x, t, learningRate, total);
    TrainedUnfold(m, ls, inputSize, x, t, learningRate);
    StepTotal(m, ls, inputSize, x, t, learningRate, total);
    SampleLossUnfold(m, ls, inputSize, x, t);
  }

  lemma StepIsRunning(m: Numerics, ls: seq<Layer>, inputSize: int, x: seq<real>, t: seq<real>, learningRate: real, total: real)
    requires Ready(ls, inputSize) && |x| == inputSize && |t| == Last(ls).outputSize
    ensures Step(m, ls, inputSize, x, t, learningRate, total).Running?
  {
  }

  lemma StepLayers(m: Numerics, ls: seq<Layer>, inputSize: int, x: seq<real>, t: seq<real>, learningRate: real, total: real)
    requires Ready(ls, inputSize) && |x| == inputSize && |t| == Last(ls).outputSize
    ensures Step(m, ls, inputSize, x, t, learningRate, total).layers == Trained(m, ls, inputSize, x, t, learningRate)
  {
  }

  lemma StepTotal(m: Numerics, ls: seq<Layer>, inputSize: int, x: seq<real>, t: seq<real>, learningRate: real, total: real)
    requires Ready(ls, inputSize) && |x| == inputSize && |t| == Last(ls).outputSize
    ensures Step(m, ls, inputSize, x, t, learningRate, total).total == total + SampleLoss(m, ls, inputSize, x, t)
  {
  }

  lemma TrainedUnfold(m: Numerics, ls: seq<Layer>, inputSize: int, x: seq<real>, t: seq<real>, learningRate: real)
    requires Ready(ls, inputSize) && |x| == inputSize && |t| == Last(ls).outputSize
    ensures Ready(ForwardAll(m, ls, x), inputSize) && SameShapes(ls, ForwardAll(m, ls, x))
    ensures Trained(m, ls, inputSize, x, t, learningRate) == UpdatedAll(Backpropagated(m, ForwardAll(m, ls, x), t), learningRate)
  {
    ForwardReady(m, ls, inputSize, x);
  }

  lemma SampleLossUnfold(m: Numerics, ls: seq<Layer>, inputSize: int, x: seq<real>, t: seq<real>)
    requires Ready(ls, inputSize) && |x| == inputSize && |t| == Last(ls).outputSize
    ensures Ready(ForwardAll(m, ls, x), inputSize) && SameShapes(ls, ForwardAll(m, ls, x))
    ensures SampleLoss(m, ls, inputSize, x, t) == MeanSquaredError(Last(ForwardAll(m, ls, x)).output, t).value
  {
    ForwardReady(m, ls, inputSize, x);
  }

  /** The body of train()'s loop for one sample: forwardInternal's size check and layer
      loop, calculateLossInternal, backwardInternal's layer loop and updateWeightsInternal,
      stopping at the first exception with the layers as it leaves them. */
  method TrainSample(m: Numerics, ls: seq<Layer>, inputSize: int, x: seq<real>, t: seq<real>,
                     learningRate: real, ghost total: real) returns (r: seq<Layer>, loss: Result<real>)
    requires Ready(ls, inputSize)
    ensures var p := Step(m, ls, inputSize, x, t, learningRate, total);
      p.layers == r && (p.Running? <==> loss.Ok?)
      && (loss.Ok? ==> p.total == total + loss.value) && (loss.Err? ==> p.error == loss.error)
  {
    if |x| != inputSize {
      r, loss := ls, Err(InvalidArgument("Input size mismatch"));
    } else {
      var y;
      r, y := ForwardLayers(m, ls, x);
      ForwardReady(m, ls, inputSize, x);
      loss := MeanSquaredLoss(y, t);
      if loss.Ok? {
        var b := BackwardLayers(m, r, t);
        r := UpdateLayers(b, learningRate);
        StepRunning(m, ls, inputSize, x, t, learningRate, total);
      }
    }
  }

  /** A completed step never lowers the running loss. */
  lemma {:induction false} StepLoss(m: Numerics, ls: seq<Layer>, inputSize: int, x: seq<real>, t: seq<real>,
                                    learningRate: real, total: real)
    requires Ready(ls, inputSize)
    ensures var p := Step(m, ls, inputSize, x, t, learningRate, total);
      p.Running? ==> p.total >= total
  {
    if |x| == inputSize && |t| == Last(ls).outputSize {
      SampleLossNonNegative(m, ls, inputSize, x, t);
    }
  }

  /** train()'s loop from sample i on, starting from progress p: it stops at the first
      exception, or after the last sample. */
  function Run(m: Numerics, inputSize: int, inputs: seq<seq<real>>, targets: seq<seq<real>>,
               learningRate: real, p: Progress, i: nat): (q: Progress)
    requires Ready(p.layers, inputSize) && i <= |inputs| == |targets|
    ensures Ready(q.layers, inputSize)
    decreases |inputs| - i
  {
    if p.Stopped? || i == |inputs| then p
    else Run(m, inputSize, inputs, targets, learningRate,
             Step(m, p.layers, inputSize, inputs[i], targets[i], learningRate, p.total), i + 1)
  }

  /** The whole loop, from the layers as they are and a zero running loss. */
  function Epoch(m: Numerics, ls: seq<Layer>, inputSize: int, inputs: seq<seq<real>>, targets: seq<seq<real>>,
                 learningRate: real): Progress
    requires Ready(ls, inputSize) && |inputs| == |targets|
  {
    Run(m, inputSize, inputs, targets, learningRate, Running(ls, 0.0), 0)
  }

  lemma EpochStart(m: Numerics, ls: seq<Layer>, inputSize: int, inputs: seq<seq<real>>, targets: seq<seq<real>>,
                   learningRate: real)
    requires Ready(ls, inputSize) && |inputs| == |targets|
    ensures Run(m, inputSize, inputs, targets, learningRate, Running(ls, 0.0), 0) == Epoch(m, ls, inputSize, inputs, targets, learningRate)
  {
  }

  /** The accumulated loss is a sum of mean squared errors, so it is never negative. */
  lemma {:induction false} RunLossNonNegative(m: Numerics, inputSize: int, inputs: seq<seq<real>>,
                                              targets: seq<seq<real>>, learningRate: real, p: Progress, i: nat)
    requires Ready(p.layers, inputSize) && i <= |inputs| == |targets|
    requires p.Running? ==> p.total >= 0.0
    ensures var q := Run(m, inputSize, inputs, targets, learningRate, p, i); q.Running? ==> q.total >= 0.0
    decreases |inputs| - i
  {
    if p.Running? && i < |inputs| {
      StepLoss(m, p.layers, inputSize, inputs[i], targets[i], learningRate, p.total);
      var p' := Step(m, p.layers, inputSize, inputs[i], targets[i], learningRate, p.total);
      RunLossNonNegative(m, inputSize, inputs, targets, learningRate, p', i + 1);
    }
  }

  /** Two layer lists with the same weights and biases, layer by layer. */
  predicate SameParameters(ls: seq<Layer>, ls': seq<Layer>)
  {
    |ls'| == |ls| && forall k | 0 <= k < |ls| :: ls'[k].weights == ls[k].weights && ls'[k].biases == ls[k].biases
  }

  lemma RunUnfold(m: Numerics, inputSize: int, inputs: seq<seq<real>>, targets: seq<seq<real>>,
                  learningRate: real, p: Progress, i: nat)
    requires Ready(p.layers, inputSize) && i < |inputs| == |targets| && p.Running?
    ensures Run(m, inputSize, inputs, targets, learningRate, p, i)
      == Run(m, inputSize, inputs, targets, learningRate, Step(m, p.layers, inputSize, inputs[i], targets[i], learningRate, p.total), i + 1)
  {
  }

  lemma SameParametersRefl(a: seq<Layer>)
    ensures SameParameters(a, a)
  {
  }

  lemma SameParametersTrans(a: seq<Layer>, b: seq<Layer>, c: seq<Layer>)
    requires SameParameters(a, b) && SameParameters(b, c)
    ensures SameParameters(a, c)
  {
  }

  /** With learning rate 0 a training step changes caches and deltas only. */
  lemma {:induction false} StepZeroRate(m: Numerics, ls: seq<Layer>, inputSize: int, x: seq<real>, t: seq<real>, total: real)
    requires Ready(ls, inputSize)
    ensures SameParameters(ls, Step(m, ls, inputSize, x, t, 0.0, total).layers)
  {
    if |x| == inputSize {
      var fw := ForwardAll(m, ls, x);
      FramedChain(ls, fw);
      if |t| == Last(ls).outputSize {
        var b := Backpropagated(m, fw, t);
        var u := Trained(m, ls, inputSize, x, t, 0.0);
        forall k | 0 <= k < |ls|
          ensures u[k].weights == ls[k].weights && u[k].biases == ls[k].biases
        {
          assert CachesOnly(ls[k], fw[k]) && DeltaOnly(fw[k], b[k]);
          UpdatedIdle(b[k], 0.0);
        }
      } else {
        forall k | 0 <= k < |ls|
          ensures fw[k].weights == ls[k].weights && fw[k].biases == ls[k].biases
        {
          assert CachesOnly(ls[k], fw[k]);
        }
      }
    } else {
      SameParametersRefl(ls);
    }
  }

  /** With learning rate 0 the rest of an epoch leaves every weight and bias in place. */
  lemma {:induction false} RunZeroRate(m: Numerics, inputSize: int, inputs: seq<seq<real>>,
                                       targets: seq<seq<real>>, p: Progress, i: nat)
    requires Ready(p.layers, inputSize) && i <= |inputs| == |targets|
    ensures SameParameters(p.layers, Run(m, inputSize, inputs, targets, 0.0, p, i).layers)
    decreases |inputs| - i
  {
    if p.Running? && i < |inputs| {
      var p' := Step(m, p.layers, inputSize, inputs[i], targets[i], 0.0, p.total);
      StepZeroRate(m, p.layers, inputSize, inputs[i], targets[i], p.total);
      RunZeroRate(m, inputSize, inputs, targets, p', i + 1);
      var q := Run(m, inputSize, inputs, targets, 0.0, p', i + 1);
      RunUnfold(m, inputSize, inputs, targets, 0.0, p, i);
      SameParametersTrans(p.layers, p'.layers, q.layers);
    } else {
      assert Run(m, inputSize, inputs, targets, 0.0, p, i) == p;
      SameParametersRefl(p.layers);
    }
  }

  /** train()'s result: the mean of the per-sample losses once every sample has run,
      or the exception that stopped it. */
  function EpochResult(p: Progress, count: nat): (r: Result<real>)
    requires 0 < count
    ensures p.Stopped? ==> r == Err(p.error)
    ensures p.Running? && p.total >= 0.0 ==> r.Ok? && r.value >= 0.0
  {
    if p.Stopped? then Err(p.error)
    else
      Ok(p.total / count as real)
  }

  /** train()'s loop over the samples, in input order, stopping at the first exception;
      on completion the mean of the per-sample losses. */
  method TrainEpoch(m: Numerics, ls: seq<Layer>, inputSize: int, inputs: seq<seq<real>>, targets: seq<seq<real>>,
                    learningRate: real) returns (r: seq<Layer>, result: Result<real>)
    requires Ready(ls, inputSize) && 0 < |inputs| == |targets|
    ensures var p := Epoch(m, ls, inputSize, inputs, targets, learningRate);
      r == p.layers && result == EpochResult(p, |inputs|)
  {
    r := ls;
    var total := 0.0;
    var i := 0;
    result := Ok(0.0);
    EpochStart(m, ls, inputSize, inputs, targets, learningRate);
    while i < |inputs| && result.Ok?
      invariant i <= |inputs| && Ready(r, inputSize)
      invariant result.Ok? ==>
        Run(m, inputSize, inputs, targets, learningRate, Running(r, total), i) == Epoch(m, ls, inputSize, inputs, targets, learningRate)
      invariant result.Err? ==> Stopped(r, result.error) == Epoch(m, ls, inputSize, inputs, targets, learningRate)
      decreases |inputs| - i, result.Ok?
    {
      var next, loss, sum := EpochStep(m, inputSize, inputs, targets, learningRate, r, total, i);
      r := next;
      if loss.Err? {
        result := Err(loss.error);
      } else {
        total := sum;
        i := i + 1;
      }
    }
    if result.Ok? {
      assert Run(m, inputSize, inputs, targets, learningRate, Running(r, total), i) == Running(r, total);
      result := Ok(total / |inputs| as real);
    }
  }

  /** One iteration of train()'s loop, read against the run from sample i on. */
  method EpochStep(m: Numerics, inputSize: int, inputs: seq<seq<real>>, targets: seq<seq<real>>,
                   learningRate: real, ls: seq<Layer>, total: real, i: nat)
    returns (r: seq<Layer>, loss: Result<real>, sum: real)
    requires Ready(ls, inputSize) && i < |inputs| == |targets|
    ensures Ready(r, inputSize)
    ensures loss.Err? ==> Run(m, inputSize, inputs, targets, learningRate, Running(ls, total), i) == Stopped(r, loss.error)
    ensures loss.Ok? ==> sum == total + loss.value
    ensures loss.Ok? ==>
      Run(m, inputSize, inputs, targets, learningRate, Running(ls, total), i)
        == Run(m, inputSize, inputs, targets, learningRate, Running(r, sum), i + 1)
  {
    RunStep(m, inputSize, inputs, targets, learningRate, ls, total, i);
    ghost var step := Step(m, ls, inputSize, inputs[i], targets[i], learningRate, total);
    r, loss := TrainSample(m, ls, inputSize, inputs[i], targets[i], learningRate, total);
    sum := total;
    if loss.Err? {
      assert step == Stopped(r, loss.error);
    } else {
      sum := total + loss.value;
      assert step == Running(r, sum);
    }
  }

  /** One sample of the loop: a stopped step ends the run, a completed one runs on. */
  lemma RunStep(m: Numerics, inputSize: int, inputs: seq<seq<real>>, targets: seq<seq<real>>,
                learningRate: real, ls: seq<Layer>, total: real, i: nat)
    requires Ready(ls, inputSize) && i < |inputs| == |targets|
    ensures var p := Step(m, ls, inputSize, inputs[i], targets[i], learningRate, total);
      Run(m, inputSize, inputs, targets, learningRate, Running(ls, total), i)
        == if p.Stopped? then p else Run(m, inputSize, inputs, targets, learningRate, p, i + 1)
  {
  }

  // ------------------------------------------------------------------ queries

  /** getAllWeights() for one layer: row j holds weight(j, 0), ..., weight(j, inputSize - 1). */
  function WeightGrid(l: Layer): (g: seq<seq<real>>)
    requires WellSized(l)
    ensures |g| == l.outputSize
    ensures forall j | 0 <= j < l.outputSize :: |g[j]| == l.inputSize
    ensures forall j, i | 0 <= j < l.outputSize && 0 <= i < l.inputSize :: g[j][i] == Weight(l, j, i)
  {
    seq(l.outputSize, j requires 0 <= j < l.outputSize =>
      seq(l.inputSize, i requires 0 <= i < l.inputSize => Weight(l, j, i)))
  }

  /** The rows of a grid written one after another. */
  function Concat(rows: seq<seq<real>>): seq<real>
  {
    if |rows| == 0 then [] else Concat(rows[..|rows| - 1]) + rows[|rows| - 1]
  }

  /** The grid is the flat weight buffer cut into rows: storage is row-major. */
  lemma {:induction false} WeightGridRowMajor(l: Layer)
    requires WellSized(l)
    ensures Concat(WeightGrid(l)) == l.weights
  {
    var g := WeightGrid(l);
    var j := 0;
    while j < l.outputSize
      invariant j <= l.outputSize
      invariant j * l.inputSize <= |l.weights|
      invariant Concat(g[..j]) == l.weights[..j * l.inputSize]
    {
      RowMajorStep(l, g, j);
      j := j + 1;
    }
    assert g[..l.outputSize] == g;
    assert l.weights[..l.outputSize * l.inputSize] == l.weights;
  }

  lemma RowMajorStep(l: Layer, g: seq<seq<real>>, j: nat)
    requires WellSized(l) && g == WeightGrid(l) && j < l.outputSize
    requires Concat(g[..j]) == l.weights[..j * l.inputSize]
    ensures (j + 1) * l.inputSize <= |l.weights|
    ensures Concat(g[..j + 1]) == l.weights[..(j + 1) * l.inputSize]
  {
    var n := l.inputSize;
    RowSlice(l, j);
    ConcatSnoc(g, j);
    SliceJoin(l.weights, j * n, (j + 1) * n);
  }

  lemma ConcatSnoc(rows: seq<seq<real>>, j: nat)
    requires j < |rows|
    ensures Concat(rows[..j + 1]) == Concat(rows[..j]) + rows[j]
  {
    assert rows[..j + 1][..j] == rows[..j];
  }

  lemma SliceJoin(w: seq<real>, a: nat, b: nat)
    requires a <= b <= |w|
    ensures w[..b] == w[..a] + w[a..b]
  {
  }

  /** Row j of the grid is the j-th run of inputSize weights. */
  lemma RowSlice(l: Layer, j: nat)
    requires WellSized(l) && j < l.outputSize
    ensures j * l.inputSize + l.inputSize == (j + 1) * l.inputSize <= |l.weights|
    ensures WeightGrid(l)[j] == l.weights[j * l.inputSize..(j + 1) * l.inputSize]
  {
    var n := l.inputSize;
    IndexArith.MulLeLeft(j + 1, l.outputSize, n);
    IndexArith.NextRow(j, n);
    forall i | 0 <= i < n
      ensures WeightGrid(l)[j][i] == l.weights[j * n + i]
    {
      IndexArith.WeightIndexBound(j, i, l.outputSize, n);
    }
  }

  /** getAllWeights(): one grid per layer. */
  function AllWeights(ls: seq<Layer>): (r: seq<seq<seq<real>>>)
    requires Chained(ls)
    ensures |r| == |ls| && forall k | 0 <= k < |ls| :: r[k] == WeightGrid(ls[k])
  {
    seq(|ls|, k requires 0 <= k < |ls| => WeightGrid(ls[k]))
  }

  /** The row loop of getAllWeights for unit j. */
  method WeightRow(l: Layer, j: nat) returns (row: seq<real>)
    requires WellSized(l) && j < l.outputSize
    ensures row == WeightGrid(l)[j]
  {
    row := [];
    var i := 0;
    while i < l.inputSize
      invariant i <= l.inputSize && |row| == i
      invariant forall u | 0 <= u < i :: row[u] == Weight(l, j, u)
    {
      row := row + [Weight(l, j, i)];
      i := i + 1;
    }
  }

  /** The loops of getAllWeights for one layer. */
  method LayerWeights(l: Layer) returns (grid: seq<seq<real>>)
    requires WellSized(l)
    ensures grid == WeightGrid(l)
  {
    grid := [];
    var j := 0;
    while j < l.outputSize
      invariant j <= l.outputSize && |grid| == j
      invariant forall u | 0 <= u < j :: grid[u] == WeightGrid(l)[u]
    {
      var row := WeightRow(l, j);
      grid := grid + [row];
      j := j + 1;
    }
  }

  // ------------------------------------------------------------------ the network

  class NeuralNetwork {
    /** The exp and tanh the activations call. */
    const numerics: Numerics
    var inputSize: int
    var layerSizes: seq<int>
    var activations: seq<ActivationType>
    var layers: seq<Layer>
    var isBuilt: bool

    /** addLayer keeps sizes and activations in step, and the layers always chain. */
    predicate Valid()
      reads this
    {
      |layerSizes| == |activations| && Chained(layers)
    }

    /** NeuralNetwork(): input size 0, no layers, not built. */
    constructor(m: Numerics)
      ensures Valid() && numerics == m
      ensures inputSize == 0 && layerSizes == [] && activations == [] && layers == [] && !isBuilt
    {
      numerics := m;
      inputSize := 0;
      layerSizes := [];
      activations := [];
      layers := [];
      isBuilt := false;
    }

    /** setInputSize(size): records the size; the built layers are not touched. */
    method SetInputSize(size: int)
      requires Valid()
      modifies this
      ensures Valid() && inputSize == size
      ensures layerSizes == old(layerSizes) && activations == old(activations)
      ensures layers == old(layers) && isBuilt == old(isBuilt)
    {
      inputSize := size;
    }

    /** addLayer(neurons, activation = Sigmoid): appends to the configuration only. */
    method AddLayer(neurons: int, activation: ActivationType := DefaultActivation)
      requires Valid()
      modifies this
      ensures Valid()
      ensures layerSizes == old(layerSizes) + [neurons] && activations == old(activations) + [activation]
      ensures inputSize == old(inputSize) && layers == old(layers) && isBuilt == old(isBuilt)
    {
      layerSizes := layerSizes + [neurons];
      activations := activations + [activation];
    }

    /**
     * build(): a runtime_error when the input size is not positive or no layer is
     * configured; otherwise the layer list is cleared and layer i is constructed from
     * the previous size to size i. A layer constructor that throws leaves the layers
     * built before it in place and isBuilt as it was.
     */
    method Build(weightDraw: nat -> nat -> real, biasDraw: nat -> nat -> real) returns (r: Result<()>)
      requires Valid()
      modifies this
      ensures Valid()
      ensures inputSize == old(inputSize) && layerSizes == old(layerSizes) && activations == old(activations)
      ensures inputSize <= 0 || |layerSizes| == 0 ==>
        r == Err(RuntimeError("Invalid network configuration")) && layers == old(layers) && isBuilt == old(isBuilt)
      ensures r.Ok? <==> 0 < inputSize && 0 < |layerSizes| && PositiveBelow(layerSizes, |layerSizes|)
      ensures r.Ok? ==> isBuilt && layers == ChainLayers(inputSize, layerSizes, activations, weightDraw, biasDraw, |layerSizes|)
      ensures 0 < inputSize && 0 < |layerSizes| && r.Err? ==>
        var f := FirstBad(layerSizes);
        && f < |layerSizes| && isBuilt == old(isBuilt)
        && layers == ChainLayers(inputSize, layerSizes, activations, weightDraw, biasDraw, f)
        && r == Err(NewLayer(InputOf(inputSize, layerSizes, f), layerSizes[f], activations[f], weightDraw(f), biasDraw(f)).error)
    {
      if inputSize <= 0 || |layerSizes| == 0 {
        return Err(RuntimeError("Invalid network configuration"));
      }
      layers := [];
      var prevSize := inputSize;
      var i := 0;
      while i < |layerSizes|
        invariant 0 < inputSize && i <= |layerSizes| && PositiveBelow(layerSizes, i) && Valid()
        invariant layers == ChainLayers(inputSize, layerSizes, activations, weightDraw, biasDraw, i)
        invariant i < |layerSizes| ==> prevSize == InputOf(inputSize, layerSizes, i)
        invariant inputSize == old(inputSize) && layerSizes == old(layerSizes) && activations == old(activations)
        invariant isBuilt == old(isBuilt)
      {
        var made := NewLayer(prevSize, layerSizes[i], activations[i], weightDraw(i), biasDraw(i));
        if made.Err? {
          return Err(made.error);
        }
        ChainLayersExtend(inputSize, layerSizes, activations, weightDraw, biasDraw, i);
        layers := layers + [made.value];
        prevSize := layerSizes[i];
        i := i + 1;
      }
      isBuilt := true;
      r := Ok(());
    }

    /**
     * forwardInternal(input): a runtime_error before build, an invalid_argument when
     * the input length is not inputSize; otherwise every layer caches what enters it
     * and recomputes its outputs, and the result is the last layer's output.
     */
    method Forward(input: seq<real>) returns (r: Result<seq<real>>)
      requires Valid() && (isBuilt ==> Ready(layers, inputSize))
      modifies this
      ensures Valid() && (isBuilt ==> Ready(layers, inputSize))
      ensures inputSize == old(inputSize) && layerSizes == old(layerSizes) && activations == old(activations)
      ensures isBuilt == old(isBuilt) && SameShapes(old(layers), layers)
      ensures !isBuilt ==> r == Err(RuntimeError("Network not built"))
      ensures isBuilt && |input| != inputSize ==> r == Err(InvalidArgument("Input size mismatch"))
      ensures r.Err? ==> layers == old(layers)
      ensures r.Ok? <==> isBuilt && |input| == inputSize
      ensures r.Ok? ==> layers == ForwardAll(numerics, old(layers), input) && r.value == Last(layers).output
    {
      if !isBuilt {
        r := Err(RuntimeError("Network not built"));
      } else if |input| != inputSize {
        r := Err(InvalidArgument("Input size mismatch"));
      } else {
        var fw, y := ForwardLayers(numerics, layers, input);
        FramedChain(layers, fw);
        layers := fw;
        r := Ok(y);
      }
    }

    /**
     * backwardInternal(target): a runtime_error when there are no layers (whether or
     * not the network was built), an invalid_argument when the target length is not
     * the output size; otherwise every layer's delta, from the last layer back.
     */
    method Backward(target: seq<real>) returns (r: Result<()>)
      requires Valid()
      modifies this
      ensures Valid()
      ensures inputSize == old(inputSize) && layerSizes == old(layerSizes) && activations == old(activations)
      ensures isBuilt == old(isBuilt) && SameShapes(old(layers), layers)
      ensures |layers| == 0 ==> r == Err(RuntimeError("Network not built"))
      ensures 0 < |layers| && |target| != Last(layers).outputSize ==> r == Err(InvalidArgument("Target size mismatch"))
      ensures r.Err? ==> layers == old(layers)
      ensures r.Ok? <==> 0 < |old(layers)| && |target| == Last(old(layers)).outputSize
      ensures r.Ok? ==> layers == Backpropagated(numerics, old(layers), target)
    {
      if |layers| == 0 {
        return Err(RuntimeError("Network not built"));
      }
      if |target| != Last(layers).outputSize {
        return Err(InvalidArgument("Target size mismatch"));
      }
      var b := BackwardLayers(numerics, layers, target);
      FramedChain(layers, b);
      layers := b;
      r := Ok(());
    }

    /** updateWeightsInternal(lr): weight(j, i) += lr * delta_j * input_i, bias_j += lr * delta_j. */
    method UpdateWeights(learningRate: real)
      requires Valid()
      modifies this
      ensures Valid()
      ensures inputSize == old(inputSize) && layerSizes == old(layerSizes) && activations == old(activations)
      ensures isBuilt == old(isBuilt) && layers == UpdatedAll(old(layers), learningRate)
    {
      layers := UpdateLayers(layers, learningRate);
    }

    /** calculateLoss(output, target): the mean squared error with its two checks. */
    method CalculateLoss(output: seq<real>, target: seq<real>) returns (r: Result<real>)
      ensures r == MeanSquaredError(output, target)
    {
      r := MeanSquaredLoss(output, target);
    }

    /**
     * train(inputs, targets, lr): the three checks in this order, then forward, loss,
     * backward and update for every sample in input order, and the mean loss. An
     * exception on a sample ends the loop with the samples before it already applied.
     */
    method Train(inputs: seq<seq<real>>, targets: seq<seq<real>>, learningRate: real) returns (r: Result<real>)
      requires Valid() && (isBuilt ==> Ready(layers, inputSize))
      modifies this
      ensures Valid() && (isBuilt ==> Ready(layers, inputSize))
      ensures inputSize == old(inputSize) && layerSizes == old(layerSizes) && activations == old(activations)
      ensures isBuilt == old(isBuilt)
      ensures |inputs| == 0 || |targets| == 0 ==> r == Err(InvalidArgument("Training data cannot be empty"))
      ensures 0 < |inputs| && 0 < |targets| && |inputs| != |targets| ==> r == Err(InvalidArgument("Training data size mismatch"))
      ensures 0 < |inputs| == |targets| && !isBuilt ==> r == Err(RuntimeError("Network not built"))
      ensures (|inputs| == 0 || |targets| == 0 || |inputs| != |targets| || !isBuilt) ==> layers == old(layers)
      ensures 0 < |inputs| == |targets| && isBuilt ==>
        var p := Epoch(numerics, old(layers), inputSize, inputs, targets, learningRate);
        layers == p.layers && r == EpochResult(p, |inputs|)
    {
      if |inputs| == 0 || |targets| == 0 {
        return Err(InvalidArgument("Training data cannot be empty"));
      }
      if |inputs| != |targets| {
        return Err(InvalidArgument("Training data size mismatch"));
      }
      if !isBuilt {
        return Err(RuntimeError("Network not built"));
      }
      var next;
      next, r := TrainEpoch(numerics, layers, inputSize, inputs, targets, learningRate);
      layers := next;
    }

    /** getLayerSizes(). */
    method GetLayerSizes() returns (sizes: seq<int>)
      ensures sizes == LayerSizes(inputSize, layers)
    {
      sizes := [inputSize];
      var k := 0;
      while k < |layers|
        invariant k <= |layers| && |sizes| == k + 1 && sizes[0] == inputSize
        invariant forall u | 0 <= u < k :: sizes[u + 1] == layers[u].outputSize
      {
        sizes := sizes + [layers[k].outputSize];
        k := k + 1;
      }
    }

    /** getAllWeights(). */
    method GetAllWeights() returns (all: seq<seq<seq<real>>>)
      requires Valid()
      ensures all == AllWeights(layers)
    {
      all := [];
      var k := 0;
      while k < |layers|
        invariant k <= |layers| && |all| == k
        invariant forall u | 0 <= u < k :: all[u] == WeightGrid(layers[u])
      {
        var grid := LayerWeights(layers[k]);
        all := all + [grid];
        k := k + 1;
      }
    }
  }
}
