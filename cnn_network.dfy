/**
 * The CNN network of include/cnn/cnn_network.h and src/cnn/cnn_network.cpp: a
 * builder that chains spatial layers (convolution, pooling, one flatten) through
 * a current (C, H, W) shape, a build step that creates the dense layers after the
 * flatten, and forward, backward, update, loss and train over both parts. The
 * dense arithmetic is the one of DenseLayers; the spatial layers are the layer
 * objects of ConvLayers, PoolingLayers and FlattenLayers, each updated in place.
 */
module CNNNetworks {
  import opened Errors
  import opened Tensors
  import opened Activations
  import opened DenseLayers
  import NeuralNetworks
  import ConvLayers
  import PoolingLayers
  import FlattenLayers

  type Shape = (nat, nat, nat)

  function ShapeOf(t: Tensor): Shape
  {
    (t.channels, t.height, t.width)
  }

  function Volume(s: Shape): nat
  {
    s.0 * s.1 * s.2
  }

  /** One entry of cnnLayers_: a shared pointer to a layer of one of the three kinds. */
  datatype SpatialLayer =
    | Conv(conv: ConvLayers.ConvLayer)
    | Pool(pool: PoolingLayers.PoolingLayer)
    | Flat(flat: FlattenLayers.FlattenLayer)

  /** The layer object an entry points at. */
  function Obj(s: SpatialLayer): object
  {
    match s
    case Conv(l) => l
    case Pool(l) => l
    case Flat(l) => l
  }

  /** The shape a layer's forward accepts. */
  function InShape(s: SpatialLayer): Shape
  {
    match s
    case Conv(l) => (l.inputChannels, l.inputHeight, l.inputWidth)
    case Pool(l) => (l.inputChannels, l.inputHeight, l.inputWidth)
    case Flat(l) => (l.inputChannels, l.inputHeight, l.inputWidth)
  }

  /** outputChannels(), outputHeight(), outputWidth(): the shape a layer's forward returns. */
  function OutShape(s: SpatialLayer): Shape
  {
    match s
    case Conv(l) => (l.outputChannels, l.outputHeight, l.outputWidth)
    case Pool(l) => (l.inputChannels, l.outputHeight, l.outputWidth)
    case Flat(l) => (1, 1, l.flattenedSize)
  }

  /** The error a layer's forward throws on an input of another shape. */
  function ShapeError(s: SpatialLayer): Error
  {
    match s
    case Conv(_) => InvalidArgument("ConvolutionalLayer: input shape mismatch")
    case Pool(_) => InvalidArgument("PoolingLayer: input shape mismatch")
    case Flat(_) => InvalidArgument("FlattenLayer: input shape mismatch")
  }

  /** The error a layer's backward throws on a gradient of another shape. */
  function GradError(s: SpatialLayer): Error
  {
    match s
    case Conv(_) => InvalidArgument("ConvolutionalLayer: gradOutput shape mismatch")
    case Pool(_) => InvalidArgument("PoolingLayer: gradOutput shape mismatch")
    case Flat(_) => InvalidArgument("FlattenLayer: gradOutput shape mismatch")
  }

  /** What the layer's constructor established and its members keep. */
  predicate LayerValid(s: SpatialLayer)
    reads Obj(s)
  {
    match s
    case Conv(l) => l.Valid()
    case Pool(l) => l.Config()
    case Flat(_) => true
  }

  /** parameterCount() of one layer. */
  function LayerParameters(s: SpatialLayer): nat
    requires LayerValid(s)
    reads Obj(s)
  {
    match s
    case Conv(l) => l.ParameterCount()
    case Pool(l) => l.ParameterCount()
    case Flat(l) => l.ParameterCount()
  }

  /** getOutput() and the cached input of a layer. */
  function CachedInput(s: SpatialLayer): Tensor
    reads Obj(s)
  {
    match s
    case Conv(l) => l.lastInput
    case Pool(l) => l.lastInput
    case Flat(l) => l.lastInput
  }

  function CachedOutput(s: SpatialLayer): Tensor
    reads Obj(s)
  {
    match s
    case Conv(l) => l.lastOutput
    case Pool(l) => l.lastOutput
    case Flat(l) => l.lastOutput
  }

  /** What a convolution's forward computes, on given values of its fields: with these
      kernels and biases, each pre-activation is the bias plus the window's taps over the
      zero-padded input, and each output cell is its activation. */
  ghost predicate ConvForwardOf(l: ConvLayers.ConvLayer, kernels: seq<Tensor>, biases: seq<real>,
                                pre: Tensor, input: Tensor, output: Tensor)
  {
    && HasShape(input, l.inputChannels, l.inputHeight, l.inputWidth)
    && HasShape(pre, l.outputChannels, l.outputHeight, l.outputWidth)
    && HasShape(output, l.outputChannels, l.outputHeight, l.outputWidth)
    && var padded := Padded(input, l.padding);
    && (forall oc: nat, oh: nat, ow: nat | InRange(pre, oc, oh, ow) ::
          Get(pre, oc, oh, ow) == ConvLayers.PreActivation(padded, kernels, biases, l.stride, oc, oh, ow))
    && (forall oc: nat, oh: nat, ow: nat | InRange(output, oc, oh, ow) ::
          Get(output, oc, oh, ow) == ConvActivate(l.numerics, Get(pre, oc, oh, ow), l.activation))
  }

  /** What a convolution's backward on gOut computes, on given values of its fields: with
      delta = gOut * activation'(pre), the bias gradients sum delta over each plane, the
      kernel gradients correlate delta with the padded input, and gIn is the transposed
      convolution of delta with these kernels. */
  ghost predicate ConvBackOf(l: ConvLayers.ConvLayer, kernels: seq<Tensor>, pre: Tensor, input: Tensor,
                             kernelGradients: seq<Tensor>, biasGradients: seq<real>, gOut: Tensor, gIn: Tensor)
  {
    && |kernels| == |kernelGradients| == |biasGradients| == l.outputChannels
    && HasShape(pre, l.outputChannels, l.outputHeight, l.outputWidth)
    && HasShape(gOut, l.outputChannels, l.outputHeight, l.outputWidth)
    && HasShape(gIn, l.inputChannels, l.inputHeight, l.inputWidth)
    && var d := ConvLayers.DeltaOf(gOut, pre, l.numerics, l.activation);
    && (forall oc | 0 <= oc < l.outputChannels :: biasGradients[oc] == ConvLayers.BiasGradient(d, oc, l.outputHeight))
    && (forall oc: nat, ic: nat, kh: nat, kw: nat | oc < l.outputChannels && InRange(kernelGradients[oc], ic, kh, kw) ::
          Get(kernelGradients[oc], ic, kh, kw)
            == ConvLayers.KernelGradient(d, Padded(input, l.padding), oc, ic, kh, kw, l.stride, l.outputHeight))
    && (forall c: nat, h: nat, w: nat | InRange(gIn, c, h, w) ::
          Get(gIn, c, h, w) == ConvLayers.InputGradient(d, kernels, c, h, w, l.stride, l.padding, l.outputChannels))
  }

  /** The caches a successful forward leaves: the output is the layer's function of the
      cached input (pre-activations and activations of a convolution, window maxima with
      their records or window averages of a pooling layer, the reshaped row of a flatten). */
  ghost predicate LayerForwarded(s: SpatialLayer)
    reads Obj(s)
  {
    match s
    case Conv(l) =>
      && l.Valid()
      && ConvForwardOf(l, l.kernels, l.biases, l.preActivation, l.lastInput, l.lastOutput)
    case Pool(l) =>
      && l.Config()
      && HasShape(l.lastInput, l.inputChannels, l.inputHeight, l.inputWidth)
      && HasShape(l.lastOutput, l.inputChannels, l.outputHeight, l.outputWidth)
      && (l.poolType.Max? ==>
            && l.Recorded()
            && forall c: nat, oh: nat, ow: nat | InRange(l.lastOutput, c, oh, ow) ::
                 PoolingLayers.IsWindowMax(l.lastInput, c, oh * l.stride, ow * l.stride, l.poolSize,
                                           Get(l.lastOutput, c, oh, ow), l.maxIndices[c][oh][ow]))
      && (l.poolType.Average? ==>
            forall c: nat, oh: nat, ow: nat | InRange(l.lastOutput, c, oh, ow) ::
              Get(l.lastOutput, c, oh, ow) == PoolingLayers.WindowAverage(l.lastInput, c, oh * l.stride, ow * l.stride, l.poolSize))
    case Flat(l) =>
      && HasShape(l.lastInput, l.inputChannels, l.inputHeight, l.inputWidth)
      && l.lastOutput == FlattenLayers.Reshape(l.lastInput, 1, 1, l.flattenedSize)
  }

  /** What backward reads from the last forward is in place: the convolution's cached
      input and the max-pooling records. */
  predicate BackwardReady(s: SpatialLayer)
    reads Obj(s)
  {
    match s
    case Conv(l) => HasShape(l.lastInput, l.inputChannels, l.inputHeight, l.inputWidth)
    case Pool(l) => l.poolType.Max? ==> l.Recorded()
    case Flat(_) => true
  }

  /** The layer's backward turned gOut into gIn: the gradient it returns and, for a
      convolution, the bias and kernel gradients it keeps. */
  ghost predicate BackPassed(s: SpatialLayer, gOut: Tensor, gIn: Tensor)
    reads Obj(s)
  {
    match s
    case Conv(l) =>
      && l.Valid()
      && ConvBackOf(l, l.kernels, l.preActivation, l.lastInput, l.kernelGradients, l.biasGradients, gOut, gIn)
    case Pool(l) =>
      && l.Config()
      && HasShape(gOut, l.inputChannels, l.outputHeight, l.outputWidth)
      && HasShape(gIn, l.inputChannels, l.inputHeight, l.inputWidth)
      && Sum(gIn) == Sum(gOut)
      && (l.poolType.Max? ==>
            && l.Recorded()
            && forall c: nat, h: nat, w: nat | InRange(gIn, c, h, w) ::
                 Get(gIn, c, h, w) == PoolingLayers.Routed(gOut, l.maxIndices, c, l.outputHeight, h, w))
      && (l.poolType.Average? ==>
            forall c: nat, h: nat, w: nat | InRange(gIn, c, h, w) ::
              Get(gIn, c, h, w) == PoolingLayers.Spread(gOut, c, l.outputHeight, l.poolSize, l.stride, h, w))
    case Flat(l) =>
      && HasShape(gOut, 1, 1, l.flattenedSize)
      && gIn == FlattenLayers.Reshape(gOut, l.inputChannels, l.inputHeight, l.inputWidth)
  }

  /** The state of a convolution object, as a value. */
  datatype ConvState = ConvState(kernels: seq<Tensor>, biases: seq<real>, kernelGradients: seq<Tensor>,
                                 biasGradients: seq<real>, preActivation: Tensor, lastInput: Tensor, lastOutput: Tensor)

  function StateOf(l: ConvLayers.ConvLayer): ConvState
    reads l
  {
    ConvState(l.kernels, l.biases, l.kernelGradients, l.biasGradients, l.preActivation, l.lastInput, l.lastOutput)
  }

  /** A convolution that was in state before and has since run updateWeights(lr): every
      kernel and bias stepped against its gradient, everything else as it was. */
  predicate ConvUpdatedFrom(l: ConvLayers.ConvLayer, before: ConvState, learningRate: real)
    reads l
  {
    && l.Valid() && |before.kernels| == |before.biases| == l.outputChannels
    && ConvLayers.KernelsShaped(before.kernels, l.inputChannels, l.kernelSize)
    && l.kernelGradients == before.kernelGradients && l.biasGradients == before.biasGradients
    && l.preActivation == before.preActivation && l.lastInput == before.lastInput && l.lastOutput == before.lastOutput
    && (forall oc | 0 <= oc < l.outputChannels ::
          l.kernels[oc] == ConvLayers.Stepped(before.kernels[oc], l.kernelGradients[oc], learningRate))
    && (forall oc | 0 <= oc < l.outputChannels :: l.biases[oc] == before.biases[oc] - learningRate * l.biasGradients[oc])
  }

  /** updateWeights(lr) on one layer: a convolution steps its kernels and biases against
      its gradients; pooling and flatten layers do not change. */
  twostate predicate LayerUpdated(s: SpatialLayer, learningRate: real)
    reads Obj(s)
  {
    match s
    case Conv(l) => ConvUpdatedFrom(l, old(StateOf(l)), learningRate)
    case Pool(l) => unchanged(l)
    case Flat(l) => unchanged(l)
  }

  /** The layer's backward turned gOut into gIn, a convolution with the kernels it had
      before (and the caches and gradients it holds now). */
  twostate predicate BackPassedBefore(s: SpatialLayer, gOut: Tensor, gIn: Tensor)
    reads Obj(s)
  {
    match s
    case Conv(l) =>
      ConvBackOf(l, old(l.kernels), l.preActivation, l.lastInput, l.kernelGradients, l.biasGradients, gOut, gIn)
    case Pool(_) => BackPassed(s, gOut, gIn)
    case Flat(_) => BackPassed(s, gOut, gIn)
  }

  /** backward, then updateWeights(lr), on one layer: a convolution keeps its caches,
      holds new gradients and has its kernels and biases stepped against them; pooling
      and flatten layers keep every field. */
  twostate predicate LayerLearned(s: SpatialLayer, learningRate: real)
    reads Obj(s)
  {
    match s
    case Conv(l) =>
      ConvUpdatedFrom(l, old(StateOf(l)).(kernelGradients := l.kernelGradients, biasGradients := l.biasGradients), learningRate)
    case Pool(_) => KeptOf(s, BackwardPass) == old(KeptOf(s, BackwardPass))
    case Flat(_) => KeptOf(s, BackwardPass) == old(KeptOf(s, BackwardPass))
  }

  /** A pass over the spatial layers: forward or backward. */
  datatype Pass = ForwardPass | BackwardPass

  /** The part of a layer a pass leaves as it was. */
  datatype Kept =
    | Nothing
    | ConvParams(kernels: seq<Tensor>, biases: seq<real>, kernelGradients: seq<Tensor>, biasGradients: seq<real>)
    | ConvCaches(kernels: seq<Tensor>, biases: seq<real>, preActivation: Tensor, lastInput: Tensor, lastOutput: Tensor)
    | PoolFields(lastInput: Tensor, lastOutput: Tensor, maxIndices: PoolingLayers.Indices)
    | FlatFields(lastInput: Tensor, lastOutput: Tensor)

  /** A forward pass keeps a convolution's kernels, biases and gradients, and nothing of a
      pooling or flatten layer; a backward pass writes only a convolution's gradients, so it
      keeps its parameters and caches and every field of the other layers. */
  function KeptOf(s: SpatialLayer, pass: Pass): Kept
    reads Obj(s)
  {
    match (s, pass)
    case (Conv(l), ForwardPass) => ConvParams(l.kernels, l.biases, l.kernelGradients, l.biasGradients)
    case (Conv(l), BackwardPass) => ConvCaches(l.kernels, l.biases, l.preActivation, l.lastInput, l.lastOutput)
    case (Pool(l), ForwardPass) => Nothing
    case (Pool(l), BackwardPass) => PoolFields(l.lastInput, l.lastOutput, l.maxIndices)
    case (Flat(l), ForwardPass) => Nothing
    case (Flat(l), BackwardPass) => FlatFields(l.lastInput, l.lastOutput)
  }

  /** One training sample on one layer, given what its forward kept of it (a
      convolution's kernels, biases and gradients): a convolution's caches are its
      forward with those kernels and biases, which are then stepped against the
      gradients it holds; a pooling or flatten layer holds its forward. */
  ghost predicate TrainedFrom(s: SpatialLayer, before: Kept, learningRate: real)
    reads Obj(s)
  {
    match s
    case Conv(l) =>
      && before.ConvParams?
      && ConvForwardOf(l, before.kernels, before.biases, l.preActivation, l.lastInput, l.lastOutput)
      && ConvUpdatedFrom(l, ConvState(before.kernels, before.biases, l.kernelGradients, l.biasGradients,
                                      l.preActivation, l.lastInput, l.lastOutput), learningRate)
    case Pool(_) => LayerForwarded(s)
    case Flat(_) => LayerForwarded(s)
  }

  /** The layer's backward turned gOut into gIn, a convolution with the kernels its
      forward kept (before) and the caches and gradients it holds. */
  ghost predicate BackPassedWith(s: SpatialLayer, before: Kept, gOut: Tensor, gIn: Tensor)
    reads Obj(s)
  {
    match s
    case Conv(l) =>
      && before.ConvParams?
      && ConvBackOf(l, before.kernels, l.preActivation, l.lastInput, l.kernelGradients, l.biasGradients, gOut, gIn)
    case Pool(_) => BackPassed(s, gOut, gIn)
    case Flat(_) => BackPassed(s, gOut, gIn)
  }

  /** A layer that was forwarded, kept before through the forward, and then learned,
      was trained from before; its caches are the forward's. */
  twostate lemma TrainedLayer(new s: SpatialLayer, new before: Kept, new learningRate: real)
    requires old(allocated(s)) && old(LayerForwarded(s)) && before == old(KeptOf(s, ForwardPass))
    requires LayerLearned(s, learningRate)
    ensures TrainedFrom(s, before, learningRate)
    ensures CachedInput(s) == old(CachedInput(s)) && CachedOutput(s) == old(CachedOutput(s))
  {
  }

  /** The same for the gradient a learned layer passed down. */
  twostate lemma BackPassedLayer(new s: SpatialLayer, new before: Kept, new gOut: Tensor, new gIn: Tensor)
    requires old(allocated(s)) && before == old(KeptOf(s, ForwardPass)) && BackPassedBefore(s, gOut, gIn)
    ensures BackPassedWith(s, before, gOut, gIn)
  {
  }

  /** layer->forward(x) through the base-class pointer. */
  method ForwardSpatial(s: SpatialLayer, x: Tensor) returns (r: Result<Tensor>)
    requires LayerValid(s)
    modifies Obj(s)
    ensures LayerValid(s) && BackwardReady(s) == (r.Ok? || old(BackwardReady(s)))
    ensures r.Err? <==> ShapeOf(x) != InShape(s)
    ensures r.Err? ==> r.error == ShapeError(s) && unchanged(Obj(s))
    ensures r.Ok? ==> ShapeOf(r.value) == OutShape(s) && LayerForwarded(s)
    ensures r.Ok? ==> CachedInput(s) == x && CachedOutput(s) == r.value
    ensures KeptOf(s, ForwardPass) == old(KeptOf(s, ForwardPass))
  {
    match s
    case Conv(l) =>
      r := l.Forward(x);
    case Pool(l) =>
      r := l.Forward(x);
    case Flat(l) =>
      r := l.Forward(x);
      if r.Ok? {
        assert r.value == FlattenLayers.Reshape(x, 1, 1, l.flattenedSize);
      }
  }

  /** layer->backward(g) through the base-class pointer. */
  method BackwardSpatial(s: SpatialLayer, g: Tensor) returns (r: Result<Tensor>)
    requires LayerValid(s) && BackwardReady(s)
    modifies Obj(s)
    ensures LayerValid(s) && BackwardReady(s)
    ensures old(LayerForwarded(s)) ==> LayerForwarded(s)
    ensures r.Err? <==> ShapeOf(g) != OutShape(s)
    ensures r.Err? ==> r.error == GradError(s) && unchanged(Obj(s))
    ensures r.Ok? ==> ShapeOf(r.value) == InShape(s) && BackPassed(s, g, r.value)
    ensures KeptOf(s, BackwardPass) == old(KeptOf(s, BackwardPass))
  {
    match s
    case Conv(l) =>
      r := l.Backward(g);
    case Pool(l) =>
      r := l.Backward(g);
    case Flat(l) =>
      r := l.Backward(g);
      if r.Ok? {
        assert r.value == FlattenLayers.Reshape(g, l.inputChannels, l.inputHeight, l.inputWidth);
      }
  }

  /** layer->updateWeights(lr) through the base-class pointer. */
  method UpdateSpatial(s: SpatialLayer, learningRate: real)
    requires LayerValid(s)
    modifies Obj(s)
    ensures LayerValid(s) && LayerUpdated(s, learningRate)
    ensures old(BackwardReady(s)) ==> BackwardReady(s)
  {
    match s
    case Conv(l) =>
      l.UpdateWeights(learningRate);
    case Pool(l) =>
      l.UpdateWeights(learningRate);
    case Flat(l) =>
      l.UpdateWeights(learningRate);
  }

  // ------------------------------------------------------------------ shapes

  /** Each layer accepts what the layer before it returns. */
  predicate Linked(ls: seq<SpatialLayer>)
  {
    forall j {:trigger OutShape(ls[j])} | 0 <= j < |ls| - 1 :: InShape(ls[j + 1]) == OutShape(ls[j])
  }

  /** The layers accept an input of the given shape and hand each other matching shapes. */
  predicate ShapesChain(ls: seq<SpatialLayer>, shape: Shape)
  {
    (0 < |ls| ==> InShape(ls[0]) == shape) && Linked(ls)
  }

  /** Appending a layer that accepts the chain's final shape extends the chain, and its
      output shape becomes the final one. */
  lemma ChainAppend(ls: seq<SpatialLayer>, shape: Shape, s: SpatialLayer)
    requires ShapesChain(ls, shape) && InShape(s) == FinalShape(ls, shape)
    ensures ShapesChain(ls + [s], shape) && FinalShape(ls + [s], shape) == OutShape(s)
  {
    var ls' := ls + [s];
    forall j | 0 <= j < |ls'| - 1
      ensures InShape(ls'[j + 1]) == OutShape(ls'[j])
    {
      if j + 1 < |ls| {
        assert OutShape(ls[j]) == OutShape(ls'[j]);
      }
    }
  }

  /** The shape that reaches layer k on the way forward: the input's for the first layer,
      the previous layer's output shape after that. */
  function Feeds(ls: seq<SpatialLayer>, shape: Shape, k: nat): Shape
    requires k <= |ls|
  {
    if k == 0 then shape else OutShape(ls[k - 1])
  }

  /** Scanning up from layer k: the first layer whose input shape is not the shape that
      reaches it, or |ls| when every layer from k on accepts it. The forward pass throws
      that layer's error. */
  function ForwardBreak(ls: seq<SpatialLayer>, shape: Shape, k: nat): (b: nat)
    requires k <= |ls|
    ensures k <= b <= |ls|
    decreases |ls| - k
  {
    if k == |ls| || InShape(ls[k]) != Feeds(ls, shape, k) then k else ForwardBreak(ls, shape, k + 1)
  }

  /** Every layer from k up to the break accepts what reaches it, and the layer at the
      break, if any, does not. */
  lemma {:induction false} ForwardBreakMeaning(ls: seq<SpatialLayer>, shape: Shape, k: nat)
    requires k <= |ls|
    ensures var b := ForwardBreak(ls, shape, k);
      && (forall j | k <= j < b :: InShape(ls[j]) == Feeds(ls, shape, j))
      && (b < |ls| ==> InShape(ls[b]) != Feeds(ls, shape, b))
    decreases |ls| - k
  {
    if k < |ls| && InShape(ls[k]) == Feeds(ls, shape, k) {
      ForwardBreakMeaning(ls, shape, k + 1);
    }
  }

  /** Every layer below k accepts the shape that reaches it. */
  predicate ChainedBelow(ls: seq<SpatialLayer>, shape: Shape, k: nat)
    requires k <= |ls|
  {
    k == 0 || (ChainedBelow(ls, shape, k - 1) && InShape(ls[k - 1]) == Feeds(ls, shape, k - 1))
  }

  /** Layer i, below k, is one of them. */
  lemma {:induction false} ChainedAt(ls: seq<SpatialLayer>, shape: Shape, i: nat, k: nat)
    requires i < k <= |ls| && ChainedBelow(ls, shape, k)
    ensures InShape(ls[i]) == Feeds(ls, shape, i)
    decreases k
  {
    if i < k - 1 {
      ChainedAt(ls, shape, i, k - 1);
    }
  }

  /** When every layer below k accepts what reaches it and layer k (if there is one) does
      not, the scan from i up to k stops at k. */
  lemma {:induction false} ForwardBreakFrom(ls: seq<SpatialLayer>, shape: Shape, i: nat, k: nat)
    requires i <= k <= |ls| && ChainedBelow(ls, shape, k)
    requires k < |ls| ==> InShape(ls[k]) != Feeds(ls, shape, k)
    ensures ForwardBreak(ls, shape, i) == k
    decreases k - i
  {
    if i < k {
      ChainedAt(ls, shape, i, k);
      ForwardBreakFrom(ls, shape, i + 1, k);
    }
  }

  /** The same from the bottom layer. */
  lemma ForwardBreakAt(ls: seq<SpatialLayer>, shape: Shape, k: nat)
    requires k <= |ls| && ChainedBelow(ls, shape, k)
    requires k < |ls| ==> InShape(ls[k]) != Feeds(ls, shape, k)
    ensures ForwardBreak(ls, shape, 0) == k
  {
    ForwardBreakFrom(ls, shape, 0, k);
  }

  /** The forward pass gets through every layer exactly when the layers chain from the
      input shape. */
  lemma ForwardBreakChains(ls: seq<SpatialLayer>, shape: Shape)
    ensures ForwardBreak(ls, shape, 0) == |ls| <==> ShapesChain(ls, shape)
  {
    ForwardBreakMeaning(ls, shape, 0);
    var b := ForwardBreak(ls, shape, 0);
    if b == |ls| {
      forall j | 0 <= j < |ls| - 1 ensures InShape(ls[j + 1]) == OutShape(ls[j]) {
        assert InShape(ls[j + 1]) == Feeds(ls, shape, j + 1);
      }
      if 0 < |ls| {
        assert InShape(ls[0]) == Feeds(ls, shape, 0);
      }
    }
  }

  /** What one training sample throws on a built network whose output has outLen values,
      in the order the checks run: the input shape check of forwardInternal, the first
      spatial layer that does not accept what reaches it, then the two checks of
      calculateLoss; Ok when it throws nothing. */
  function SampleFault(ls: seq<SpatialLayer>, inShape: Shape, outLen: int, x: Tensor, t: seq<real>): (r: Result<()>)
    ensures r.Ok? <==> ShapeOf(x) == inShape && ShapesChain(ls, inShape) && 0 < outLen && |t| == outLen
  {
    ForwardBreakChains(ls, inShape);
    if ShapeOf(x) != inShape then Err(InvalidArgument("Input shape mismatch"))
    else if ForwardBreak(ls, inShape, 0) < |ls| then Err(ShapeError(ls[ForwardBreak(ls, inShape, 0)]))
    else if outLen <= 0 then Err(InvalidArgument("Output cannot be empty for loss calculation"))
    else if |t| != outLen then Err(InvalidArgument("Target size mismatch"))
    else Ok(())
  }

  /** A sample that gets through the spatial layers throws what calculateLoss throws on an
      output of outLen values. */
  lemma SampleFaultLoss(ls: seq<SpatialLayer>, inShape: Shape, x: Tensor, t: seq<real>, output: seq<real>)
    requires ShapeOf(x) == inShape && ShapesChain(ls, inShape)
    ensures MeanSquaredError(output, t).Err? ==> SampleFault(ls, inShape, |output|, x, t) == Err(MeanSquaredError(output, t).error)
  {
    ForwardBreakChains(ls, inShape);
  }

  /** The first sample from i on that throws, or |inputs| when none of them does. */
  function FirstFault(ls: seq<SpatialLayer>, inShape: Shape, outLen: int, inputs: seq<Tensor>, targets: seq<seq<real>>, i: nat): (k: nat)
    requires i <= |inputs| == |targets|
    ensures i <= k <= |inputs|
    ensures forall j | i <= j < k :: SampleFault(ls, inShape, outLen, inputs[j], targets[j]).Ok?
    ensures k < |inputs| ==> SampleFault(ls, inShape, outLen, inputs[k], targets[k]).Err?
    decreases |inputs| - i
  {
    if i == |inputs| || SampleFault(ls, inShape, outLen, inputs[i], targets[i]).Err? then i
    else FirstFault(ls, inShape, outLen, inputs, targets, i + 1)
  }

  /** When samples below k go through and sample k throws, k is the first that throws. */
  lemma FirstFaultAt(ls: seq<SpatialLayer>, inShape: Shape, outLen: int, inputs: seq<Tensor>, targets: seq<seq<real>>, k: nat)
    requires k < |inputs| == |targets| && SampleFault(ls, inShape, outLen, inputs[k], targets[k]).Err?
    requires forall j | 0 <= j < k :: SampleFault(ls, inShape, outLen, inputs[j], targets[j]).Ok?
    ensures FirstFault(ls, inShape, outLen, inputs, targets, 0) == k
  {
  }

  /** The shape of the gradient that reaches layer k on the way back: the incoming
      gradient's for the last layer, the input shape of the layer above after that. */
  function BackFeeds(ls: seq<SpatialLayer>, gShape: Shape, k: nat): Shape
    requires k < |ls|
  {
    if k == |ls| - 1 then gShape else InShape(ls[k + 1])
  }

  /** Scanning down from layer i - 1: 0 when layers 0 to i - 1 all accept the gradient
      that reaches them, otherwise b where layer b - 1 is the highest of them that
      rejects it. The backward pass throws that layer's error. */
  function BackwardStop(ls: seq<SpatialLayer>, gShape: Shape, i: nat): (b: nat)
    requires i <= |ls|
    ensures b <= i
  {
    if i == 0 then 0
    else if OutShape(ls[i - 1]) != BackFeeds(ls, gShape, i - 1) then i
    else BackwardStop(ls, gShape, i - 1)
  }

  /** Every layer from the stop up to i - 1 accepts the gradient that reaches it, and the
      layer just below the stop, if any, does not. */
  lemma {:induction false} BackwardStopMeaning(ls: seq<SpatialLayer>, gShape: Shape, i: nat)
    requires i <= |ls|
    ensures var b := BackwardStop(ls, gShape, i);
      && (forall j | b <= j < i :: OutShape(ls[j]) == BackFeeds(ls, gShape, j))
      && (0 < b ==> OutShape(ls[b - 1]) != BackFeeds(ls, gShape, b - 1))
  {
    if 0 < i && OutShape(ls[i - 1]) == BackFeeds(ls, gShape, i - 1) {
      BackwardStopMeaning(ls, gShape, i - 1);
    }
  }

  /** Every layer from i up accepts the gradient that reaches it. */
  predicate LinkedAbove(ls: seq<SpatialLayer>, gShape: Shape, i: nat)
    requires i <= |ls|
    decreases |ls| - i
  {
    i == |ls| || (OutShape(ls[i]) == BackFeeds(ls, gShape, i) && LinkedAbove(ls, gShape, i + 1))
  }

  /** Layer j, from i up, is one of them. */
  lemma {:induction false} LinkedAboveAt(ls: seq<SpatialLayer>, gShape: Shape, i: nat, j: nat)
    requires i <= j < |ls| && LinkedAbove(ls, gShape, i)
    ensures OutShape(ls[j]) == BackFeeds(ls, gShape, j)
    decreases j - i
  {
    if i < j {
      LinkedAboveAt(ls, gShape, i + 1, j);
    }
  }

  /** When every layer from i up accepts what reaches it and layer i - 1 (if there is one)
      does not, the scan down from m, at or above i, stops at i. */
  lemma {:induction false} BackwardStopFrom(ls: seq<SpatialLayer>, gShape: Shape, i: nat, m: nat)
    requires i <= m <= |ls| && LinkedAbove(ls, gShape, i)
    requires 0 < i ==> OutShape(ls[i - 1]) != BackFeeds(ls, gShape, i - 1)
    ensures BackwardStop(ls, gShape, m) == i
    decreases m
  {
    if i < m {
      LinkedAboveAt(ls, gShape, i, m - 1);
      BackwardStopFrom(ls, gShape, i, m - 1);
    }
  }

  /** The same from the top layer. */
  lemma BackwardStopAt(ls: seq<SpatialLayer>, gShape: Shape, i: nat)
    requires i <= |ls| && LinkedAbove(ls, gShape, i)
    requires 0 < i ==> OutShape(ls[i - 1]) != BackFeeds(ls, gShape, i - 1)
    ensures BackwardStop(ls, gShape, |ls|) == i
  {
    BackwardStopFrom(ls, gShape, i, |ls|);
  }

  /** The backward pass gets through every layer exactly when the layers are linked and
      the incoming gradient has the last layer's output shape. */
  lemma BackwardStopLinked(ls: seq<SpatialLayer>, gShape: Shape)
    ensures BackwardStop(ls, gShape, |ls|) == 0 <==> Linked(ls) && (0 < |ls| ==> gShape == OutShape(ls[|ls| - 1]))
  {
    BackwardStopMeaning(ls, gShape, |ls|);
    var b := BackwardStop(ls, gShape, |ls|);
    if b == 0 {
      forall j | 0 <= j < |ls| - 1 ensures InShape(ls[j + 1]) == OutShape(ls[j]) {
        assert OutShape(ls[j]) == BackFeeds(ls, gShape, j);
      }
      if 0 < |ls| {
        assert OutShape(ls[|ls| - 1]) == BackFeeds(ls, gShape, |ls| - 1);
      }
    }
  }

  /** The shape the spatial part hands on for an input of the given shape. */
  function FinalShape(ls: seq<SpatialLayer>, shape: Shape): Shape
  {
    if |ls| == 0 then shape else OutShape(ls[|ls| - 1])
  }

  /** static_cast<int>(neurons) for a 64-bit size_t: the value modulo 2^32, read as a
      two's-complement 32-bit integer. */
  function SizeToInt(n: nat): (r: int)
    ensures -0x8000_0000 <= r < 0x8000_0000
    ensures (n - r) % 0x1_0000_0000 == 0
    ensures n < 0x8000_0000 ==> r == n
  {
    var low := n % 0x1_0000_0000;
    if low < 0x8000_0000 then low else low - 0x1_0000_0000
  }

  /** The error a convolution's initializeWeights throws when it has no input channel to
      draw over: He's message for ReLU and LeakyReLU, Xavier's otherwise. */
  function InitError(activation: CNNActivationType): Error
  {
    if ConvLayers.UsesHeInit(activation) then InvalidArgument("He initialization: fanIn must be greater than 0")
    else InvalidArgument("Xavier initialization: fanIn and fanOut must be greater than 0")
  }

  /** The largest int: build rejects a larger flattened size. */
  const IntMax: nat := 0x7FFF_FFFF

  // ------------------------------------------------------------------ build

  /** Where build's layer loop stops: at the first layer constructor that throws, or after
      the last size. Layer 0 reads the flattened size, which is 0 when nothing is flattened. */
  function BuildBreak(flattenedSize: nat, sizes: seq<int>): (f: nat)
    ensures f <= |sizes| && NeuralNetworks.PositiveBelow(sizes, f)
    ensures 0 < f ==> 0 < flattenedSize
  {
    if 0 < |sizes| && flattenedSize == 0 then 0 else NeuralNetworks.FirstBad(sizes)
  }

  /** The first n dense layers build creates: flattenedSize -> sizes[0] -> sizes[1] -> ... */
  function DenseChain(flattenedSize: nat, sizes: seq<int>, acts: seq<ActivationType>,
                      weightDraw: nat -> nat -> real, biasDraw: nat -> nat -> real, n: nat): (r: seq<Layer>)
    requires n <= |sizes| <= |acts| && NeuralNetworks.PositiveBelow(sizes, n) && (0 < n ==> 0 < flattenedSize)
    ensures |r| == n && Chained(r)
    ensures forall k | 0 <= k < n ::
      r[k].inputSize == NeuralNetworks.InputOf(flattenedSize, sizes, k) && r[k].outputSize == sizes[k]
    decreases n
  {
    if n == 0 then []
    else
      var ls := DenseChain(flattenedSize, sizes, acts, weightDraw, biasDraw, n - 1);
      var l := NeuralNetworks.ChainLayer(flattenedSize, sizes, acts, weightDraw, biasDraw, n - 1);
      assert Chained(ls + [l]) by {
        forall j: nat | j + 1 < n ensures Link(ls + [l], j) {
          if j + 1 < n - 1 {
            assert Link(ls, j);
          }
        }
      }
      ls + [l]
  }

  /** The dense loop of build(): layer i goes from the previous size to sizes[i], and the
      first constructor that throws ends the loop with the layers made so far. */
  method BuildDense(flattenedSize: nat, sizes: seq<int>, acts: seq<ActivationType>,
                    weightDraw: nat -> nat -> real, biasDraw: nat -> nat -> real) returns (ls: seq<Layer>, r: Result<()>)
    requires |sizes| <= |acts|
    ensures var f := BuildBreak(flattenedSize, sizes);
      && ls == DenseChain(flattenedSize, sizes, acts, weightDraw, biasDraw, f)
      && (r.Ok? <==> f == |sizes|)
      && (r.Err? ==> r.error == NewLayer(NeuralNetworks.InputOf(flattenedSize, sizes, f), sizes[f], acts[f],
                                         weightDraw(f), biasDraw(f)).error)
  {
    ls := [];
    r := Ok(());
    var prevSize: int := flattenedSize;
    var i := 0;
    while i < |sizes| && r.Ok?
      decreases |sizes| - i, if r.Ok? then 1 else 0
      invariant i <= BuildBreak(flattenedSize, sizes)
      invariant ls == DenseChain(flattenedSize, sizes, acts, weightDraw, biasDraw, i)
      invariant i < |sizes| ==> prevSize == NeuralNetworks.InputOf(flattenedSize, sizes, i)
      invariant r.Ok? ==> i <= |sizes|
      invariant r.Err? ==>
        && i == BuildBreak(flattenedSize, sizes) < |sizes|
        && r.error == NewLayer(prevSize, sizes[i], acts[i], weightDraw(i), biasDraw(i)).error
    {
      var made := NewLayer(prevSize, sizes[i], acts[i], weightDraw(i), biasDraw(i));
      if made.Err? {
        r := Err(made.error);
      } else {
        ls := ls + [made.value];
        prevSize := sizes[i];
        i := i + 1;
      }
    }
  }

  /** Parameters of the first n dense layers: in * out weights and out biases each. */
  function DenseParameters(ls: seq<Layer>, n: nat): int
    requires n <= |ls|
  {
    if n == 0 then 0 else DenseParameters(ls, n - 1) + ls[n - 1].inputSize * ls[n - 1].outputSize + ls[n - 1].outputSize
  }

  /** The parameters a configuration asks for, layer i reading the size before it. */
  function ConfiguredParameters(flattenedSize: nat, sizes: seq<int>, n: nat): int
    requires n <= |sizes|
  {
    if n == 0 then 0 else
      ConfiguredParameters(flattenedSize, sizes, n - 1)
      + NeuralNetworks.InputOf(flattenedSize, sizes, n - 1) * sizes[n - 1] + sizes[n - 1]
  }

  /** Layers of the configured sizes hold the configured parameter count. */
  lemma {:induction false} ParametersOfSizes(ls: seq<Layer>, flattenedSize: nat, sizes: seq<int>, n: nat)
    requires n <= |ls| && n <= |sizes|
    requires forall k | 0 <= k < n ::
      ls[k].inputSize == NeuralNetworks.InputOf(flattenedSize, sizes, k) && ls[k].outputSize == sizes[k]
    ensures DenseParameters(ls, n) == ConfiguredParameters(flattenedSize, sizes, n)
  {
    if n > 0 {
      ParametersOfSizes(ls, flattenedSize, sizes, n - 1);
    }
  }

  /** The dense parameter count after a build depends on the configuration only, not on
      the random draws. */
  lemma BuiltParameters(flattenedSize: nat, sizes: seq<int>, acts: seq<ActivationType>,
                        weightDraw: nat -> nat -> real, biasDraw: nat -> nat -> real, n: nat)
    requires n <= |sizes| <= |acts| && NeuralNetworks.PositiveBelow(sizes, n) && (0 < n ==> 0 < flattenedSize)
    ensures DenseParameters(DenseChain(flattenedSize, sizes, acts, weightDraw, biasDraw, n), n)
      == ConfiguredParameters(flattenedSize, sizes, n)
  {
    ParametersOfSizes(DenseChain(flattenedSize, sizes, acts, weightDraw, biasDraw, n), flattenedSize, sizes, n);
  }

  /** Every dense layer of a chain stores exactly in * out weights and out biases. */
  lemma {:induction false} DenseParametersAreStored(ls: seq<Layer>, n: nat)
    requires Chained(ls) && n <= |ls|
    ensures DenseParameters(ls, n) == StoredParameters(ls, n) >= 0
  {
    if n > 0 {
      DenseParametersAreStored(ls, n - 1);
      assert WellSized(ls[n - 1]);
    }
  }

  /** The number of weights and biases the first n layers hold. */
  function StoredParameters(ls: seq<Layer>, n: nat): nat
    requires n <= |ls|
  {
    if n == 0 then 0 else StoredParameters(ls, n - 1) + |ls[n - 1].weights| + |ls[n - 1].biases|
  }

  // ------------------------------------------------------------------ backward glue

  /** gradFromDense: cell i of the (1, 1, n) gradient is sum over j of weight(j, i) * delta_j
      of the first dense layer. */
  function DenseGradient(l: Layer): (g: Tensor)
    requires WellSized(l)
    ensures HasShape(g, 1, 1, l.inputSize as nat)
    ensures forall i | 0 <= i < l.inputSize :: g.data[i] == BackSum(l, i, l.outputSize)
  {
    TensorData(1, 1, l.inputSize as nat, seq(l.inputSize, i requires 0 <= i < l.inputSize => BackSum(l, i, l.outputSize)))
  }

  /** The loop that fills gradFromDense cell by cell. */
  method ComputeDenseGradient(l: Layer, n: nat) returns (g: Tensor)
    requires WellSized(l) && n == l.inputSize
    ensures g == DenseGradient(l)
  {
    g := Zeros(1, 1, n);
    var i := 0;
    while i < n
      invariant i <= n && HasShape(g, 1, 1, n)
      invariant forall u | 0 <= u < i :: g.data[u] == BackSum(l, u, l.outputSize)
    {
      var grad := ComputeBackSum(l, i);
      assert FlatIndex(g, 0, 0, i) == i;
      g := Set(g, 0, 0, i, grad);
      forall u | 0 <= u < i
        ensures g.data[u] == BackSum(l, u, l.outputSize)
      {
        assert FlatIndex(g, 0, 0, u) == u;
      }
      i := i + 1;
    }
    assert g.data == DenseGradient(l).data;
  }

  /** Two sequences that end alike were alike before their last element. */
  lemma SnocInjective<T>(a: seq<T>, x: T, b: seq<T>, y: T)
    requires a + [x] == b + [y]
    ensures a == b && x == y
  {
    assert a == (a + [x])[..|a|] && b == (b + [y])[..|b|];
  }

  /** The running loss of train() is the left fold of the per-sample losses. */
  lemma SumSeqSnoc(s: seq<real>, x: real)
    ensures SumSeq(s + [x]) == SumSeq(s) + x
  {
    assert (s + [x])[..|s|] == s;
  }

  /** The running loss of train() and the per-sample losses it adds up, none negative. */
  predicate Tally(losses: seq<real>, total: real)
  {
    total == SumSeq(losses) && forall j | 0 <= j < |losses| :: losses[j] >= 0.0
  }

  /** Adding a sample's non-negative loss to the running loss keeps the tally. */
  lemma TallySnoc(losses: seq<real>, total: real, x: real, losses': seq<real>, total': real)
    requires Tally(losses, total) && x >= 0.0 && losses' == losses + [x] && total' == total + x
    ensures Tally(losses', total')
  {
    SumSeqSnoc(losses, x);
  }

  /** The dense loop of forwardInternal, stated through the layer-by-layer recursion. */
  method ForwardDense(m: Numerics, ls: seq<Layer>, x: seq<real>) returns (r: seq<Layer>, y: seq<real>)
    requires Chained(ls) && 0 < |ls| && ls[0].inputSize <= |x|
    ensures r == ForwardChain(m, ls, x) && Chained(r) && SameShapes(ls, r)
    ensures y == Last(r).output && |y| == Last(ls).outputSize
  {
    r, y := ForwardLayers(m, ls, x);
    FramedChain(ls, r);
  }

  /** The perceptron's backward pass on the dense layers, as the chain of deltas. */
  method BackwardDense(m: Numerics, ls: seq<Layer>, target: seq<real>) returns (r: seq<Layer>)
    requires Chained(ls) && 0 < |ls| && |target| == Last(ls).outputSize
    ensures r == BackwardChain(m, ls, target) && Chained(r) && SameShapes(ls, r)
  {
    r := BackwardLayers(m, ls, target);
    BackwardChainIsBackpropagated(m, ls, target);
    FramedChain(ls, r);
  }

  /** The perceptron's update on the dense layers, layer by layer. */
  method UpdateDense(ls: seq<Layer>, learningRate: real) returns (r: seq<Layer>)
    requires Chained(ls)
    ensures r == UpdateChain(ls, learningRate) && Chained(r) && SameShapes(ls, r)
  {
    r := UpdateLayers(ls, learningRate);
    UpdateChainIsUpdatedAll(ls, learningRate);
  }

  // ------------------------------------------------------------------ the network

  class CNNNetwork {
    /** The library's exp and tanh, used by the sigmoid and tanh activations. */
    const numerics: Numerics
    var inputChannels: nat
    var inputHeight: nat
    var inputWidth: nat
    var currentChannels: nat
    var currentHeight: nat
    var currentWidth: nat
    var spatial: seq<SpatialLayer>
    var denseLayers: seq<Layer>
    var denseLayerSizes: seq<int>
    var denseActivations: seq<ActivationType>
    var isBuilt: bool
    var hasFlatten: bool
    var flattenedSize: nat
    var flattenedOutput: seq<real>
    var lastOutput: seq<real>
    /** The spatial layer objects. */
    ghost var Repr: set<object>
    /** The position of each spatial layer object in spatial; it keeps the objects distinct. */
    ghost var Slot: map<object, nat>

    function InputShape(): Shape
      reads this`inputChannels, this`inputHeight, this`inputWidth
    {
      (inputChannels, inputHeight, inputWidth)
    }

    function CurrentShape(): Shape
      reads this`currentChannels, this`currentHeight, this`currentWidth
    {
      (currentChannels, currentHeight, currentWidth)
    }

    /**
     * The network's invariant: the spatial entries point at distinct objects, each valid;
     * a flatten, once added, is the last spatial layer and holds flattenedSize; dense
     * sizes are only configured and dense layers only built after a flatten, and the
     * built dense layers chain from flattenedSize.
     */
    ghost predicate Valid()
      reads this`spatial, this`Repr, this`Slot, Repr, this`hasFlatten, this`flattenedSize
      reads this`denseLayerSizes, this`denseActivations, this`denseLayers
    {
      && LayersValid()
      && (forall k | 0 <= k < |spatial| - 1 :: !spatial[k].Flat?)
      && (hasFlatten <==> 0 < |spatial| && spatial[|spatial| - 1].Flat?)
      && (hasFlatten ==> spatial[|spatial| - 1].flat.flattenedSize == flattenedSize)
      && |denseLayerSizes| == |denseActivations|
      && (!hasFlatten ==> denseLayerSizes == [] && denseLayers == [])
      && Chained(denseLayers) && (0 < |denseLayers| ==> denseLayers[0].inputSize == flattenedSize)
    }

    /** The spatial entries point at distinct valid objects in Repr. */
    ghost predicate LayersValid()
      reads this`spatial, this`Repr, this`Slot, Repr
    {
      && this !in Repr
      && (forall k {:trigger Obj(spatial[k])} | 0 <= k < |spatial| ::
            Obj(spatial[k]) in Repr && Obj(spatial[k]) in Slot && Slot[Obj(spatial[k])] == k)
      && (forall k {:trigger LayerValid(spatial[k])} | 0 <= k < |spatial| :: LayerValid(spatial[k]))
    }

    /** The builder has tracked shapes so far: the spatial layers chain from the input
        shape, and until a flatten the current shape is what the last of them returns. */
    predicate Consistent()
      reads this`spatial, this`inputChannels, this`inputHeight, this`inputWidth
      reads this`hasFlatten, this`currentChannels, this`currentHeight, this`currentWidth
    {
      ShapesChain(spatial, InputShape()) && (!hasFlatten ==> CurrentShape() == FinalShape(spatial, InputShape()))
    }

    /** Every spatial layer has what its backward reads. */
    predicate SpatialReady()
      requires LayersValid()
      reads this`spatial, this`Repr, this`Slot, Repr
    {
      forall k {:trigger BackwardReady(spatial[k])} | 0 <= k < |spatial| :: BackwardReady(spatial[k])
    }

    /** The spatial layers were forwarded in order from x: layer 0 cached x, every later
        layer cached the output of the one before it, and each output is its layer's
        function of its input. */
    ghost predicate ForwardedFrom(x: Tensor)
      requires LayersValid()
      reads this`spatial, this`Repr, this`Slot, Repr
    {
      && (forall k {:trigger LayerForwarded(spatial[k])} | 0 <= k < |spatial| :: LayerForwarded(spatial[k]))
      && (forall k {:trigger CachedInput(spatial[k])} | 0 <= k < |spatial| ::
            CachedInput(spatial[k]) == if k == 0 then x else CachedOutput(spatial[k - 1]))
    }

    /** What the pass keeps of each of the first n spatial layers, in order. */
    function KeptBelow(n: nat, pass: Pass): (ks: seq<Kept>)
      requires LayersValid() && n <= |spatial|
      reads this`spatial, this`Repr, this`Slot, Repr
      ensures |ks| == n
    {
      if n == 0 then [] else KeptBelow(n - 1, pass) + [KeptOf(spatial[n - 1], pass)]
    }

    /** A change that keeps what the pass keeps of layer k and leaves the other layer
        objects alone keeps the whole list. */
    twostate lemma KeptBelowKept(new k: nat, new pass: Pass)
      requires old(LayersValid()) && LayersValid() && spatial == old(spatial) && Repr == old(Repr) && Slot == old(Slot)
      requires k < |spatial| && KeptOf(spatial[k], pass) == old(KeptOf(spatial[k], pass))
      requires forall j | 0 <= j < |spatial| && j != k :: unchanged(Obj(spatial[j]))
      ensures KeptBelow(|spatial|, pass) == old(KeptBelow(|spatial|, pass))
    {
      var n := 0;
      while n < |spatial|
        invariant n <= |spatial| && KeptBelow(n, pass) == old(KeptBelow(n, pass))
      {
        if n != k {
          assert unchanged(Obj(spatial[n]));
        }
        n := n + 1;
      }
    }

    /** An unchanged list means every layer kept what the pass keeps. */
    twostate lemma KeptEach(pass: Pass)
      requires old(LayersValid()) && LayersValid() && spatial == old(spatial)
      requires KeptBelow(|spatial|, pass) == old(KeptBelow(|spatial|, pass))
      ensures forall k | 0 <= k < |spatial| :: KeptOf(spatial[k], pass) == old(KeptOf(spatial[k], pass))
    {
      forall k | 0 <= k < |spatial|
        ensures KeptOf(spatial[k], pass) == old(KeptOf(spatial[k], pass))
      {
        KeptAt(k, pass);
      }
    }

    /** The same for one layer k: the lists stay equal when cut down to layer k + 1. */
    twostate lemma KeptAt(new k: nat, new pass: Pass)
      requires old(LayersValid()) && LayersValid() && spatial == old(spatial) && k < |spatial|
      requires KeptBelow(|spatial|, pass) == old(KeptBelow(|spatial|, pass))
      ensures KeptOf(spatial[k], pass) == old(KeptOf(spatial[k], pass))
    {
      var n: nat := |spatial|;
      while k + 1 < n
        invariant k < n <= |spatial| && KeptBelow(n, pass) == old(KeptBelow(n, pass))
      {
        KeptLast(n, pass);
        n := n - 1;
      }
      KeptLast(n, pass);
    }

    /** The last entries of two equal lists are equal, and so are the lists before them. */
    twostate lemma KeptLast(new n: nat, new pass: Pass)
      requires old(LayersValid()) && LayersValid() && spatial == old(spatial)
      requires 0 < n <= |spatial| && KeptBelow(n, pass) == old(KeptBelow(n, pass))
      ensures KeptBelow(n - 1, pass) == old(KeptBelow(n - 1, pass))
      ensures KeptOf(spatial[n - 1], pass) == old(KeptOf(spatial[n - 1], pass))
    {
      SnocInjective(KeptBelow(n - 1, pass), KeptOf(spatial[n - 1], pass),
                    old(KeptBelow(n - 1, pass)), old(KeptOf(spatial[n - 1], pass)));
    }

    /** Entry k of the list is what the pass keeps of layer k. */
    lemma KeptBelowAt(n: nat, pass: Pass)
      requires LayersValid() && n <= |spatial|
      ensures forall k | 0 <= k < n :: KeptBelow(n, pass)[k] == KeptOf(spatial[k], pass)
      decreases n
    {
      if 0 < n {
        KeptBelowAt(n - 1, pass);
      }
    }

    /** What the spatial part hands to the dense part for input x. */
    function SpatialOutput(x: Tensor): Tensor
      requires LayersValid()
      reads this`spatial, this`Repr, this`Slot, Repr
    {
      if |spatial| == 0 then x else CachedOutput(spatial[|spatial| - 1])
    }

    /** The length of what forward returns: the last dense layer's width, or the size of
        the spatial output when there are no dense layers. */
    function OutputLength(): int
      reads this
    {
      if 0 < |denseLayers| then Last(denseLayers).outputSize else Volume(FinalShape(spatial, InputShape()))
    }

    /** The configuration, the spatial layer list and the flags stay as they were. */
    twostate predicate SameBuild()
      reads this
    {
      && inputChannels == old(inputChannels) && inputHeight == old(inputHeight) && inputWidth == old(inputWidth)
      && currentChannels == old(currentChannels) && currentHeight == old(currentHeight) && currentWidth == old(currentWidth)
      && spatial == old(spatial) && denseLayerSizes == old(denseLayerSizes) && denseActivations == old(denseActivations)
      && isBuilt == old(isBuilt) && hasFlatten == old(hasFlatten) && flattenedSize == old(flattenedSize)
      && Repr == old(Repr) && Slot == old(Slot)
    }

    /** CNNNetwork(): all sizes 0, no layers, no flatten, not built. */
    constructor(m: Numerics)
      ensures Valid() && Consistent() && numerics == m
      ensures InputShape() == (0, 0, 0) && CurrentShape() == (0, 0, 0)
      ensures spatial == [] && denseLayers == [] && denseLayerSizes == [] && denseActivations == []
      ensures !isBuilt && !hasFlatten && flattenedSize == 0 && Repr == {}
    {
      numerics := m;
      inputChannels, inputHeight, inputWidth := 0, 0, 0;
      currentChannels, currentHeight, currentWidth := 0, 0, 0;
      spatial, denseLayers, denseLayerSizes, denseActivations := [], [], [], [];
      isBuilt, hasFlatten, flattenedSize := false, false, 0;
      flattenedOutput, lastOutput := [], [];
      Repr := {};
      Slot := map[];
    }

    /** setInputSize(c, h, w): the input and the current shape; the layers already added
        keep the shapes they were built for. */
    method SetInputSize(channels: nat, height: nat, width: nat)
      requires Valid()
      modifies this`inputChannels, this`inputHeight, this`inputWidth
      modifies this`currentChannels, this`currentHeight, this`currentWidth
      ensures Valid() && InputShape() == (channels, height, width) && CurrentShape() == (channels, height, width)
      ensures spatial == [] ==> Consistent()
    {
      SetInputShape((channels, height, width));
      SetCurrentShape((channels, height, width));
    }

    /** Sets the configured input shape. */
    method SetInputShape(shape: Shape)
      modifies this`inputChannels, this`inputHeight, this`inputWidth
      ensures InputShape() == shape
    {
      inputChannels, inputHeight, inputWidth := shape.0, shape.1, shape.2;
    }

    /**
     * addConvLayer(outC, k, stride = 1, padding = 0, activation = ReLU): a runtime_error
     * after a flatten; otherwise a convolution from the current shape (whose constructor
     * may throw), appended, and the current shape becomes its output shape.
     */
    method AddConvLayer(draw: nat -> nat -> real, outputChannels: nat, kernelSize: nat, stride: nat := 1,
                        padding: nat := 0, activation: CNNActivationType := CNNActivationType.ReLU)
      returns (r: Result<()>)
      requires Valid()
      modifies this`spatial, this`Repr, this`Slot, this`currentChannels, this`currentHeight, this`currentWidth
      ensures Valid()
      ensures old(hasFlatten) ==> r == Err(RuntimeError("Cannot add CNN layer after Flatten"))
      ensures r.Err? ==> spatial == old(spatial) && CurrentShape() == old(CurrentShape()) && Repr == old(Repr)
      ensures !old(hasFlatten) ==>
        (r.Err? <==> ConvLayers.ConvConfig(old(currentHeight), old(currentWidth), kernelSize, stride, padding).Err?
                     || (outputChannels > 0 && old(currentChannels) == 0))
      ensures !old(hasFlatten) && r.Err? ==>
        var config := ConvLayers.ConvConfig(old(currentHeight), old(currentWidth), kernelSize, stride, padding);
        r.error == if config.Err? then config.error else InitError(activation)
      ensures r.Ok? ==>
        && |spatial| == |old(spatial)| + 1 && spatial[..|old(spatial)|] == old(spatial)
        && var s := spatial[|spatial| - 1];
        && s.Conv? && fresh(s.conv) && InShape(s) == old(CurrentShape()) && CurrentShape() == OutShape(s)
        && currentChannels == outputChannels
        && ConvLayers.ConvConfig(old(currentHeight), old(currentWidth), kernelSize, stride, padding) == Ok((currentHeight, currentWidth))
        && s.conv.kernelSize == kernelSize && s.conv.stride == stride && s.conv.padding == padding
        && s.conv.activation == activation
      ensures old(Consistent()) ==> Consistent()
    {
      if hasFlatten {
        r := Err(RuntimeError("Cannot add CNN layer after Flatten"));
      } else {
        r := AddConv(draw, outputChannels, kernelSize, stride, padding, activation);
      }
    }

    /** addConvLayer once the flatten check has passed. */
    method AddConv(draw: nat -> nat -> real, outputChannels: nat, kernelSize: nat, stride: nat,
                   padding: nat, activation: CNNActivationType)
      returns (r: Result<()>)
      requires Valid() && !hasFlatten
      modifies this`spatial, this`Repr, this`Slot, this`currentChannels, this`currentHeight, this`currentWidth
      ensures Valid()
      ensures r.Err? ==> spatial == old(spatial) && CurrentShape() == old(CurrentShape()) && Repr == old(Repr)
      ensures r.Err? <==> ConvLayers.ConvConfig(old(currentHeight), old(currentWidth), kernelSize, stride, padding).Err?
                          || (outputChannels > 0 && old(currentChannels) == 0)
      ensures r.Err? ==>
        var config := ConvLayers.ConvConfig(old(currentHeight), old(currentWidth), kernelSize, stride, padding);
        r.error == if config.Err? then config.error else InitError(activation)
      ensures r.Ok? ==>
        && |spatial| == |old(spatial)| + 1 && spatial[..|old(spatial)|] == old(spatial)
        && var s := spatial[|spatial| - 1];
        && s.Conv? && fresh(s.conv) && InShape(s) == old(CurrentShape()) && CurrentShape() == OutShape(s)
        && currentChannels == outputChannels
        && ConvLayers.ConvConfig(old(currentHeight), old(currentWidth), kernelSize, stride, padding) == Ok((currentHeight, currentWidth))
        && s.conv.kernelSize == kernelSize && s.conv.stride == stride && s.conv.padding == padding
        && s.conv.activation == activation
      ensures old(Consistent()) ==> Consistent()
    {
      var made := ConvLayers.ConvLayer.Create(currentChannels, currentHeight, currentWidth, outputChannels,
                                              kernelSize, stride, padding, activation, numerics, draw);
      if made.Err? {
        r := Err(made.error);
      } else {
        var layer := made.value;
        Append(Conv(layer));
        r := Ok(());
      }
    }

    /** The step addConvLayer and addPoolingLayer share: a new layer that accepts the
        current shape is appended, and the current shape becomes its output shape. */
    method Append(s: SpatialLayer)
      requires Valid() && !hasFlatten && !s.Flat? && LayerValid(s) && Obj(s) !in Repr && Obj(s) != this
      modifies this`spatial, this`Repr, this`Slot, this`currentChannels, this`currentHeight, this`currentWidth
      ensures Valid() && spatial == old(spatial) + [s] && Repr == old(Repr) + {Obj(s)}
      ensures CurrentShape() == OutShape(s)
      ensures old(Consistent()) && InShape(s) == old(CurrentShape()) ==> Consistent()
    {
      if Consistent() && InShape(s) == CurrentShape() {
        ChainAppend(spatial, InputShape(), s);
      }
      AppendLayer(s);
      SetCurrentShape(OutShape(s));
    }

    /** Appends a layer object the network does not hold yet. */
    method AppendLayer(s: SpatialLayer)
      requires Valid() && !hasFlatten && !s.Flat? && LayerValid(s) && Obj(s) !in Repr && Obj(s) != this
      modifies this`spatial, this`Repr, this`Slot
      ensures Valid() && spatial == old(spatial) + [s] && Repr == old(Repr) + {Obj(s)}
    {
      spatial, Repr, Slot := spatial + [s], Repr + {Obj(s)}, Slot[Obj(s) := |spatial|];
    }

    /** Sets the shape the builder tracks. */
    method SetCurrentShape(shape: Shape)
      modifies this`currentChannels, this`currentHeight, this`currentWidth
      ensures CurrentShape() == shape
    {
      currentChannels, currentHeight, currentWidth := shape.0, shape.1, shape.2;
    }

    /**
     * addPoolingLayer(poolSize, stride, type = Max): a runtime_error after a flatten;
     * otherwise a pooling layer from the current shape (whose constructor may throw),
     * appended, and the current shape becomes its output shape.
     */
    method AddPoolingLayer(poolSize: nat, stride: nat, kind: PoolingLayers.PoolingType := PoolingLayers.DefaultPoolingType)
      returns (r: Result<()>)
      requires Valid()
      modifies this`spatial, this`Repr, this`Slot, this`currentChannels, this`currentHeight, this`currentWidth
      ensures Valid()
      ensures old(hasFlatten) ==> r == Err(RuntimeError("Cannot add CNN layer after Flatten"))
      ensures r.Err? ==> spatial == old(spatial) && CurrentShape() == old(CurrentShape()) && Repr == old(Repr)
      ensures !old(hasFlatten) ==>
        (r.Err? <==> PoolingLayers.PoolingConfig(old(currentHeight), old(currentWidth), poolSize, stride).Err?)
      ensures !old(hasFlatten) && r.Err? ==>
        r.error == PoolingLayers.PoolingConfig(old(currentHeight), old(currentWidth), poolSize, stride).error
      ensures r.Ok? ==>
        && |spatial| == |old(spatial)| + 1 && spatial[..|old(spatial)|] == old(spatial)
        && var s := spatial[|spatial| - 1];
        && s.Pool? && fresh(s.pool) && InShape(s) == old(CurrentShape()) && CurrentShape() == OutShape(s)
        && currentChannels == old(currentChannels)
        && PoolingLayers.PoolingConfig(old(currentHeight), old(currentWidth), poolSize, stride) == Ok((currentHeight, currentWidth))
        && s.pool.poolType == kind
      ensures old(Consistent()) ==> Consistent()
    {
      if hasFlatten {
        r := Err(RuntimeError("Cannot add CNN layer after Flatten"));
      } else {
        r := AddPool(poolSize, stride, kind);
      }
    }

    /** addPoolingLayer once the flatten check has passed. */
    method AddPool(poolSize: nat, stride: nat, kind: PoolingLayers.PoolingType) returns (r: Result<()>)
      requires Valid() && !hasFlatten
      modifies this`spatial, this`Repr, this`Slot, this`currentChannels, this`currentHeight, this`currentWidth
      ensures Valid()
      ensures r.Err? ==> spatial == old(spatial) && CurrentShape() == old(CurrentShape()) && Repr == old(Repr)
      ensures r.Err? <==> PoolingLayers.PoolingConfig(old(currentHeight), old(currentWidth), poolSize, stride).Err?
      ensures r.Err? ==> r.error == PoolingLayers.PoolingConfig(old(currentHeight), old(currentWidth), poolSize, stride).error
      ensures r.Ok? ==>
        && |spatial| == |old(spatial)| + 1 && spatial[..|old(spatial)|] == old(spatial)
        && var s := spatial[|spatial| - 1];
        && s.Pool? && fresh(s.pool) && InShape(s) == old(CurrentShape()) && CurrentShape() == OutShape(s)
        && currentChannels == old(currentChannels)
        && PoolingLayers.PoolingConfig(old(currentHeight), old(currentWidth), poolSize, stride) == Ok((currentHeight, currentWidth))
        && s.pool.poolType == kind
      ensures old(Consistent()) ==> Consistent()
    {
      var made := PoolingLayers.PoolingLayer.Create(currentChannels, currentHeight, currentWidth, poolSize, stride, kind);
      if made.Err? {
        r := Err(made.error);
      } else {
        var layer := made.value;
        Append(Pool(layer));
        r := Ok(());
      }
    }

    /** addFlattenLayer(): a runtime_error when a flatten exists; otherwise a flatten of
        the current shape is appended and flattenedSize becomes that shape's volume. The
        current shape itself stays. */
    method AddFlattenLayer() returns (r: Result<()>)
      requires Valid()
      modifies this`spatial, this`Repr, this`Slot, this`hasFlatten, this`flattenedSize
      ensures Valid() && hasFlatten
      ensures r.Err? <==> old(hasFlatten)
      ensures r.Err? ==> r == Err(RuntimeError("Flatten layer already added"))
      ensures r.Err? ==> spatial == old(spatial) && flattenedSize == old(flattenedSize) && Repr == old(Repr)
      ensures r.Ok? ==>
        && |spatial| == |old(spatial)| + 1 && spatial[..|old(spatial)|] == old(spatial)
        && var s := spatial[|spatial| - 1];
        && s.Flat? && fresh(s.flat) && InShape(s) == CurrentShape() && flattenedSize == Volume(CurrentShape())
      ensures old(Consistent()) ==> Consistent()
    {
      if hasFlatten {
        r := Err(RuntimeError("Flatten layer already added"));
      } else {
        AddFlat();
        r := Ok(());
      }
    }

    /** addFlattenLayer once the check for an existing flatten has passed. */
    method AddFlat()
      requires Valid() && !hasFlatten
      modifies this`spatial, this`Repr, this`Slot, this`hasFlatten, this`flattenedSize
      ensures Valid() && hasFlatten
      ensures |spatial| == |old(spatial)| + 1 && spatial[..|old(spatial)|] == old(spatial)
      ensures var s := spatial[|spatial| - 1];
        s.Flat? && fresh(s.flat) && InShape(s) == CurrentShape() && flattenedSize == Volume(CurrentShape())
      ensures old(Consistent()) ==> Consistent()
    {
      var layer := new FlattenLayers.FlattenLayer(currentChannels, currentHeight, currentWidth);
      if Consistent() {
        ChainAppend(spatial, InputShape(), Flat(layer));
      }
      AppendFlat(layer);
    }

    /** Appends a flatten object the network does not hold yet and records its size. */
    method AppendFlat(layer: FlattenLayers.FlattenLayer)
      requires Valid() && !hasFlatten && layer !in Repr
      modifies this`spatial, this`Repr, this`Slot, this`hasFlatten, this`flattenedSize
      ensures Valid() && hasFlatten && flattenedSize == layer.flattenedSize
      ensures spatial == old(spatial) + [Flat(layer)] && Repr == old(Repr) + {layer}
    {
      spatial, Repr, Slot := spatial + [Flat(layer)], Repr + {layer}, Slot[layer := |spatial|];
      hasFlatten, flattenedSize := true, layer.flattenedSize;
    }

    /** addDenseLayer(neurons, activation = ReLU): a flatten first when none exists, then the
        size, cast to int, and the activation are recorded for build. */
    method AddDenseLayer(neurons: nat, activation: ActivationType := ActivationType.ReLU)
      requires Valid()
      modifies this`spatial, this`Repr, this`Slot, this`hasFlatten, this`flattenedSize
      modifies this`denseLayerSizes, this`denseActivations
      ensures Valid() && hasFlatten
      ensures denseLayerSizes == old(denseLayerSizes) + [SizeToInt(neurons)]
      ensures denseActivations == old(denseActivations) + [activation]
      ensures old(hasFlatten) ==> spatial == old(spatial) && flattenedSize == old(flattenedSize) && Repr == old(Repr)
      ensures !old(hasFlatten) ==>
        && |spatial| == |old(spatial)| + 1 && spatial[..|old(spatial)|] == old(spatial)
        && spatial[|spatial| - 1].Flat? && fresh(spatial[|spatial| - 1].flat)
        && InShape(spatial[|spatial| - 1]) == CurrentShape() && flattenedSize == Volume(CurrentShape())
      ensures old(Consistent()) ==> Consistent()
    {
      if !hasFlatten {
        AddFlat();
      }
      denseLayerSizes, denseActivations := denseLayerSizes + [SizeToInt(neurons)], denseActivations + [activation];
    }

    /**
     * build(): a runtime_error when an input dimension is 0. Every configured dense size
     * came with a flatten, so the implicit flatten build would add is never needed. The
     * dense layers are cleared, a flattened size above INT_MAX is a runtime_error, and
     * layer i is constructed from the previous size to size i; a constructor that throws
     * leaves the layers before it in place and isBuilt as it was.
     */
    method Build(weightDraw: nat -> nat -> real, biasDraw: nat -> nat -> real) returns (r: Result<()>)
      requires Valid()
      modifies this`denseLayers, this`isBuilt
      ensures Valid()
      ensures inputChannels == 0 || inputHeight == 0 || inputWidth == 0 ==>
        r == Err(RuntimeError("Input size not set")) && denseLayers == old(denseLayers) && isBuilt == old(isBuilt)
      ensures 0 < inputChannels && 0 < inputHeight && 0 < inputWidth && IntMax < flattenedSize ==>
        r == Err(RuntimeError("Flattened size exceeds supported dense layer size")) && denseLayers == [] && isBuilt == old(isBuilt)
      ensures 0 < inputChannels && 0 < inputHeight && 0 < inputWidth && flattenedSize <= IntMax ==>
        var f := BuildBreak(flattenedSize, denseLayerSizes);
        && denseLayers == DenseChain(flattenedSize, denseLayerSizes, denseActivations, weightDraw, biasDraw, f)
        && (r.Ok? <==> f == |denseLayerSizes|) && isBuilt == (old(isBuilt) || r.Ok?)
        && (r.Err? ==> r == Err(NewLayer(NeuralNetworks.InputOf(flattenedSize, denseLayerSizes, f), denseLayerSizes[f],
                                         denseActivations[f], weightDraw(f), biasDraw(f)).error))
    {
      if inputChannels == 0 || inputHeight == 0 || inputWidth == 0 {
        r := Err(RuntimeError("Input size not set"));
      } else if flattenedSize > IntMax {
        StoreChain([]);
        r := Err(RuntimeError("Flattened size exceeds supported dense layer size"));
      } else {
        r := BuildLayers(weightDraw, biasDraw);
      }
    }

    /** The dense layer loop of build(), once the size checks have passed. */
    method BuildLayers(weightDraw: nat -> nat -> real, biasDraw: nat -> nat -> real) returns (r: Result<()>)
      requires Valid()
      modifies this`denseLayers, this`isBuilt
      ensures Valid()
      ensures var f := BuildBreak(flattenedSize, denseLayerSizes);
        && denseLayers == DenseChain(flattenedSize, denseLayerSizes, denseActivations, weightDraw, biasDraw, f)
        && (r.Ok? <==> f == |denseLayerSizes|) && isBuilt == (old(isBuilt) || r.Ok?)
        && (r.Err? ==> r == Err(NewLayer(NeuralNetworks.InputOf(flattenedSize, denseLayerSizes, f), denseLayerSizes[f],
                                         denseActivations[f], weightDraw(f), biasDraw(f)).error))
    {
      var built;
      built, r := BuildDense(flattenedSize, denseLayerSizes, denseActivations, weightDraw, biasDraw);
      StoreBuild(built, r.Ok?);
    }

    /** Stores dense layers that chain from the flattened size. */
    method StoreChain(ls: seq<Layer>)
      requires Valid() && Chained(ls) && (0 < |ls| ==> ls[0].inputSize == flattenedSize) && (!hasFlatten ==> ls == [])
      modifies this`denseLayers
      ensures Valid() && denseLayers == ls
    {
      denseLayers := ls;
    }

    /** Stores the dense layers build made, and marks the network built when it finished. */
    method StoreBuild(ls: seq<Layer>, finished: bool)
      requires Valid() && Chained(ls) && (0 < |ls| ==> ls[0].inputSize == flattenedSize) && (!hasFlatten ==> ls == [])
      modifies this`denseLayers, this`isBuilt
      ensures Valid() && denseLayers == ls && isBuilt == (old(isBuilt) || finished)
    {
      denseLayers := ls;
      isBuilt := isBuilt || finished;
    }

    /** The loop of forwardInternal over the spatial layers: each forwards what the one
        before it returned, and the first that rejects its input's shape throws. */
    method ForwardSpatialLayers(input: Tensor) returns (r: Result<Tensor>)
      requires Valid()
      modifies Repr
      ensures Valid()
      ensures r.Ok? <==> ShapesChain(spatial, ShapeOf(input))
      ensures r.Err? ==> var b := ForwardBreak(spatial, ShapeOf(input), 0); b < |spatial| && r.error == ShapeError(spatial[b])
      ensures r.Err? ==> ForwardStopped(input, ForwardBreak(spatial, ShapeOf(input), 0))
      ensures r.Ok? ==> ForwardedFrom(input) && SpatialReady()
      ensures r.Ok? ==> r.value == SpatialOutput(input) && ShapeOf(r.value) == FinalShape(spatial, ShapeOf(input))
      ensures KeptBelow(|spatial|, ForwardPass) == old(KeptBelow(|spatial|, ForwardPass))
    {
      var k;
      r, k := ForwardRun(input);
      ForwardBreakAt(spatial, ShapeOf(input), k);
      ForwardBreakChains(spatial, ShapeOf(input));
    }

    /** That loop itself: k is the layer it stopped at, or the number of layers. */
    method ForwardRun(input: Tensor) returns (r: Result<Tensor>, k: nat)
      requires LayersValid()
      modifies Repr
      ensures LayersValid() && k <= |spatial| && ChainedBelow(spatial, ShapeOf(input), k)
      ensures r.Err? ==> k < |spatial| && InShape(spatial[k]) != Feeds(spatial, ShapeOf(input), k) && r.error == ShapeError(spatial[k])
      ensures r.Err? ==> ForwardStopped(input, k)
      ensures r.Ok? ==> k == |spatial| && ForwardedPrefix(input, k, r.value)
      ensures KeptBelow(|spatial|, ForwardPass) == old(KeptBelow(|spatial|, ForwardPass))
    {
      var x := input;
      k := 0;
      while k < |spatial|
        invariant k <= |spatial| && LayersValid() && ForwardedPrefix(input, k, x) && ChainedBelow(spatial, ShapeOf(input), k)
        invariant forall j | k <= j < |spatial| :: unchanged(Obj(spatial[j]))
        invariant KeptBelow(|spatial|, ForwardPass) == old(KeptBelow(|spatial|, ForwardPass))
      {
        var y := ForwardStep(input, k, x);
        if y.Err? {
          return Err(y.error), k;
        }
        x := y.value;
        k := k + 1;
      }
      r := Ok(x);
    }

    /** The first k spatial layers were forwarded in order from input, and x is what the
        last of them returned (input itself when k is 0). */
    ghost predicate ForwardedPrefix(input: Tensor, k: nat, x: Tensor)
      requires LayersValid() && k <= |spatial|
      reads this`spatial, this`Repr, this`Slot, Repr
    {
      && ShapeOf(x) == (if k == 0 then ShapeOf(input) else OutShape(spatial[k - 1]))
      && x == (if k == 0 then input else CachedOutput(spatial[k - 1]))
      && (forall j {:trigger LayerForwarded(spatial[j])} | 0 <= j < k :: LayerForwarded(spatial[j]))
      && (forall j {:trigger CachedInput(spatial[j])} | 0 <= j < k ::
            CachedInput(spatial[j]) == if j == 0 then input else CachedOutput(spatial[j - 1]))
      && (forall j {:trigger BackwardReady(spatial[j])} | 0 <= j < k :: BackwardReady(spatial[j]))
    }

    /** The forward loop stopped at layer b: the layers below it were forwarded in order
        from input, and layer b and those above it are as they were. */
    twostate predicate ForwardStopped(input: Tensor, b: nat)
      requires LayersValid() && b <= |spatial| && Repr == old(Repr)
      reads this`spatial, this`Repr, this`Slot, Repr
    {
      && ForwardedPrefix(input, b, if b == 0 then input else CachedOutput(spatial[b - 1]))
      && forall j | b <= j < |spatial| :: unchanged(Obj(spatial[j]))
    }

    /** One pass of that loop: layer k forwards x, the output of the layers before it. */
    method ForwardStep(ghost input: Tensor, k: nat, x: Tensor) returns (r: Result<Tensor>)
      requires LayersValid() && k < |spatial| && ForwardedPrefix(input, k, x) && ChainedBelow(spatial, ShapeOf(input), k)
      modifies Obj(spatial[k])
      ensures LayersValid()
      ensures r.Err? ==> InShape(spatial[k]) != Feeds(spatial, ShapeOf(input), k)
      ensures r.Ok? ==> ChainedBelow(spatial, ShapeOf(input), k + 1)
      ensures r.Err? <==> ShapeOf(x) != InShape(spatial[k])
      ensures r.Err? ==> r.error == ShapeError(spatial[k]) && unchanged(Obj(spatial[k])) && ForwardedPrefix(input, k, x)
      ensures r.Ok? ==> ForwardedPrefix(input, k + 1, r.value)
      ensures forall j | 0 <= j < |spatial| && j != k :: unchanged(Obj(spatial[j]))
      ensures KeptBelow(|spatial|, ForwardPass) == old(KeptBelow(|spatial|, ForwardPass))
    {
      r := ForwardSpatial(spatial[k], x);
      KeptBelowKept(k, ForwardPass);
    }

    /** Keeps what a forward pass computed: the flattened spatial output, the dense
        layers with their caches, and the network output. */
    method StoreForward(flat: seq<real>, ls: seq<Layer>, y: seq<real>)
      modifies this`flattenedOutput, this`denseLayers, this`lastOutput
      ensures flattenedOutput == flat && denseLayers == ls && lastOutput == y
    {
      flattenedOutput, denseLayers, lastOutput := flat, ls, y;
    }

    /**
     * forwardInternal(input): a runtime_error before build, an invalid_argument when the
     * input shape is not the declared one, the error of the first spatial layer that
     * does not accept what reaches it (ForwardBreak) when the layers do not chain; otherwise the spatial layers run in order, their result is
     * flattened, the dense layers run on it, and the result is the last dense output, or
     * the flattened vector when there are no dense layers.
     */
    method Forward(input: Tensor) returns (r: Result<seq<real>>)
      requires Valid()
      modifies this`flattenedOutput, this`denseLayers, this`lastOutput, Repr
      ensures Valid() && SameBuild() && Consistent() == old(Consistent())
      ensures SameShapes(old(denseLayers), denseLayers) && OutputLength() == old(OutputLength())
      ensures !isBuilt ==> r == Err(RuntimeError("Network not built"))
      ensures isBuilt && ShapeOf(input) != InputShape() ==> r == Err(InvalidArgument("Input shape mismatch"))
      ensures !isBuilt || ShapeOf(input) != InputShape() ==> unchanged(this) && unchanged(Repr)
      ensures r.Ok? <==> isBuilt && ShapeOf(input) == InputShape() && ShapesChain(spatial, InputShape())
      ensures isBuilt && ShapeOf(input) == InputShape() && r.Err? ==>
        var b := ForwardBreak(spatial, InputShape(), 0); b < |spatial| && r.error == ShapeError(spatial[b])
      ensures isBuilt && ShapeOf(input) == InputShape() && r.Err? ==> ForwardStopped(input, ForwardBreak(spatial, InputShape(), 0))
      ensures r.Err? ==> denseLayers == old(denseLayers) && flattenedOutput == old(flattenedOutput) && lastOutput == old(lastOutput)
      ensures r.Ok? ==> ForwardedFrom(input) && SpatialReady() && flattenedOutput == Flatten(SpatialOutput(input))
      ensures r.Ok? && |denseLayers| == 0 ==> r.value == flattenedOutput
      ensures r.Ok? && 0 < |denseLayers| ==>
        |old(denseLayers)| > 0 && old(denseLayers)[0].inputSize <= |flattenedOutput|
        && denseLayers == ForwardChain(numerics, old(denseLayers), flattenedOutput) && r.value == Last(denseLayers).output
      ensures r.Ok? ==> lastOutput == r.value && |r.value| == OutputLength()
      ensures KeptBelow(|spatial|, ForwardPass) == old(KeptBelow(|spatial|, ForwardPass))
    {
      if !isBuilt {
        r := Err(RuntimeError("Network not built"));
      } else if ShapeOf(input) != InputShape() {
        r := Err(InvalidArgument("Input shape mismatch"));
      } else {
        r := ForwardBuilt(input);
      }
    }

    /** forwardInternal past its two checks: the spatial layers, the flatten, the dense layers. */
    method ForwardBuilt(input: Tensor) returns (r: Result<seq<real>>)
      requires Valid() && isBuilt && ShapeOf(input) == InputShape()
      modifies this`flattenedOutput, this`denseLayers, this`lastOutput, Repr
      ensures Valid() && SameShapes(old(denseLayers), denseLayers)
      ensures r.Ok? <==> ShapesChain(spatial, InputShape())
      ensures r.Err? ==>
        var b := ForwardBreak(spatial, InputShape(), 0); b < |spatial| && r.error == ShapeError(spatial[b]) && ForwardStopped(input, b)
      ensures r.Err? ==> denseLayers == old(denseLayers) && flattenedOutput == old(flattenedOutput) && lastOutput == old(lastOutput)
      ensures r.Ok? ==> ForwardedFrom(input) && SpatialReady() && flattenedOutput == Flatten(SpatialOutput(input))
      ensures r.Ok? && |denseLayers| == 0 ==> r.value == flattenedOutput
      ensures r.Ok? && 0 < |denseLayers| ==>
        |old(denseLayers)| > 0 && old(denseLayers)[0].inputSize <= |flattenedOutput|
        && denseLayers == ForwardChain(numerics, old(denseLayers), flattenedOutput) && r.value == Last(denseLayers).output
      ensures r.Ok? ==> lastOutput == r.value && |r.value| == OutputLength()
      ensures KeptBelow(|spatial|, ForwardPass) == old(KeptBelow(|spatial|, ForwardPass))
    {
      var current := ForwardSpatialLayers(input);
      if current.Err? {
        r := Err(current.error);
      } else {
        var y := ForwardFlattened(current.value);
        r := Ok(y);
      }
    }

    /** The end of forwardInternal: x, what the spatial layers returned, is flattened and
        run through the dense layers. */
    method ForwardFlattened(x: Tensor) returns (y: seq<real>)
      requires Valid() && ShapeOf(x) == FinalShape(spatial, InputShape()) && ShapesChain(spatial, InputShape())
      modifies this`flattenedOutput, this`denseLayers, this`lastOutput
      ensures Valid() && SameShapes(old(denseLayers), denseLayers) && flattenedOutput == Flatten(x)
      ensures |denseLayers| == 0 ==> y == flattenedOutput
      ensures 0 < |denseLayers| ==>
        |old(denseLayers)| > 0 && old(denseLayers)[0].inputSize <= |flattenedOutput|
        && denseLayers == ForwardChain(numerics, old(denseLayers), flattenedOutput) && y == Last(denseLayers).output
      ensures lastOutput == y && |y| == OutputLength()
    {
      var flat := Flatten(x);
      var ls := denseLayers;
      y := flat;
      if 0 < |denseLayers| {
        ls, y := ForwardDense(numerics, denseLayers, flat);
      }
      StoreForward(flat, ls, y);
    }

    /** The reverse loop of backwardInternal over the spatial layers: gradCurrent starts as
        g, and each layer's backward turns it into the gradient for the layer below. */
    method BackwardSpatialLayers(g: Tensor) returns (r: Result<()>, ghost grads: seq<Tensor>)
      requires Valid() && SpatialReady()
      modifies Repr
      ensures Valid() && SpatialReady()
      ensures r.Ok? <==> Linked(spatial) && (0 < |spatial| ==> ShapeOf(g) == OutShape(spatial[|spatial| - 1]))
      ensures |grads| == |spatial| + 1 && grads[|spatial|] == g
      ensures r.Err? ==>
        var b := BackwardStop(spatial, ShapeOf(g), |spatial|); 0 < b && r.error == GradError(spatial[b - 1]) && BackwardStopped(grads, b)
      ensures r.Ok? ==> forall k {:trigger BackPassed(spatial[k], grads[k + 1], grads[k])} | 0 <= k < |spatial| :: BackPassed(spatial[k], grads[k + 1], grads[k])
      ensures KeptBelow(|spatial|, BackwardPass) == old(KeptBelow(|spatial|, BackwardPass))
    {
      var i;
      r, i, grads := BackwardRun(g);
      BackwardStopAt(spatial, ShapeOf(g), i);
      BackwardStopLinked(spatial, ShapeOf(g));
    }

    /** That loop itself: i is one above the layer it stopped at, or 0. */
    method BackwardRun(g: Tensor) returns (r: Result<()>, i: nat, ghost grads: seq<Tensor>)
      requires LayersValid() && SpatialReady()
      modifies Repr
      ensures LayersValid() && SpatialReady()
      ensures i <= |spatial| && LinkedAbove(spatial, ShapeOf(g), i)
      ensures r.Err? ==> 0 < i && OutShape(spatial[i - 1]) != BackFeeds(spatial, ShapeOf(g), i - 1) && r.error == GradError(spatial[i - 1])
      ensures r.Ok? ==> i == 0
      ensures |grads| == |spatial| + 1 && grads[|spatial|] == g
      ensures r.Ok? ==> BackPassedFrom(grads, 0)
      ensures r.Err? ==> BackwardStopped(grads, i)
      ensures KeptBelow(|spatial|, BackwardPass) == old(KeptBelow(|spatial|, BackwardPass))
    {
      var n := |spatial|;
      grads := seq(n + 1, _ => g);
      var current := g;
      i := n;
      while i > 0
        invariant 0 <= i <= n == |spatial| && LayersValid() && SpatialReady()
        invariant |grads| == n + 1 && grads[n] == g && current == grads[i]
        invariant 0 < i ==> ShapeOf(current) == BackFeeds(spatial, ShapeOf(g), i - 1)
        invariant LinkedAbove(spatial, ShapeOf(g), i) && Repr == old(Repr) && BackwardStopped(grads, i)
        invariant KeptBelow(|spatial|, BackwardPass) == old(KeptBelow(|spatial|, BackwardPass))
      {
        var b := BackwardStep(i - 1, current, grads, ShapeOf(g));
        if b.Err? {
          r := Err(b.error);
          return;
        }
        current := b.value;
        grads := grads[i - 1 := current];
        i := i - 1;
      }
      r := Ok(());
    }

    /** Layers i onwards turned grads[j + 1] into grads[j]. */
    ghost predicate BackPassedFrom(grads: seq<Tensor>, i: nat)
      requires LayersValid() && i <= |spatial| && |grads| == |spatial| + 1
      reads this`spatial, this`Repr, this`Slot, Repr
    {
      forall j {:trigger BackPassed(spatial[j], grads[j + 1], grads[j])} | i <= j < |spatial| ::
        BackPassed(spatial[j], grads[j + 1], grads[j])
    }

    /** The backward loop stopped below layer b - 1: the layers from b up turned grads[j + 1]
        into grads[j], and layer b - 1 and those below it are as they were. */
    twostate predicate BackwardStopped(grads: seq<Tensor>, b: nat)
      requires LayersValid() && b <= |spatial| && |grads| == |spatial| + 1 && Repr == old(Repr)
      reads this`spatial, this`Repr, this`Slot, Repr
    {
      && BackPassedFrom(grads, b)
      && forall j | 0 <= j < b :: unchanged(Obj(spatial[j]))
    }

    /** One pass of that loop: layer i's backward on the gradient from the layer above it. */
    method BackwardStep(i: nat, current: Tensor, ghost grads: seq<Tensor>, ghost gShape: Shape) returns (b: Result<Tensor>)
      requires LayersValid() && SpatialReady() && i < |spatial| && |grads| == |spatial| + 1 && current == grads[i + 1]
      requires BackPassedFrom(grads, i + 1)
      requires ShapeOf(current) == BackFeeds(spatial, gShape, i) && LinkedAbove(spatial, gShape, i + 1)
      modifies Obj(spatial[i])
      ensures LayersValid() && SpatialReady()
      ensures b.Err? ==> b.error == GradError(spatial[i]) && OutShape(spatial[i]) != BackFeeds(spatial, gShape, i)
      ensures b.Err? ==> unchanged(Obj(spatial[i])) && BackPassedFrom(grads, i + 1)
      ensures b.Ok? ==> BackPassedFrom(grads[i := b.value], i) && LinkedAbove(spatial, gShape, i)
      ensures b.Ok? && 0 < i ==> ShapeOf(b.value) == BackFeeds(spatial, gShape, i - 1)
      ensures KeptBelow(|spatial|, BackwardPass) == old(KeptBelow(|spatial|, BackwardPass))
    {
      b := BackwardSpatial(spatial[i], current);
      KeptBelowKept(i, BackwardPass);
    }

    /** Keeps the dense layers a pass computed. */
    method StoreDense(ls: seq<Layer>)
      modifies this`denseLayers
      ensures denseLayers == ls
    {
      denseLayers := ls;
    }

    /**
     * backwardInternal(target): nothing without dense layers; an invalid_argument when the
     * target length is not the output layer's width. Otherwise the dense deltas are
     * computed as for the perceptron, gradFromDense takes sum over j of weight(j, i) *
     * delta_j of the first dense layer, and that gradient is handed down the spatial
     * layers from the last to the first. The layers must hold what the last forward left
     * there; before any forward the C++ reads empty caches.
     */
    method Backward(target: seq<real>) returns (r: Result<()>, ghost grads: seq<Tensor>)
      requires Valid() && (0 < |denseLayers| ==> SpatialReady())
      modifies this`denseLayers, Repr
      ensures Valid() && SameShapes(old(denseLayers), denseLayers)
      ensures |old(denseLayers)| == 0 ==> r == Ok(()) && unchanged(this) && unchanged(Repr)
      ensures 0 < |old(denseLayers)| && |target| != Last(old(denseLayers)).outputSize ==>
        r == Err(InvalidArgument("Target size mismatch")) && unchanged(this) && unchanged(Repr)
      ensures 0 < |old(denseLayers)| && |target| == Last(old(denseLayers)).outputSize ==>
        && denseLayers == BackwardChain(numerics, old(denseLayers), target)
        && (r.Ok? <==> Linked(spatial))
        && |grads| == |spatial| + 1 && grads[|spatial|] == DenseGradient(denseLayers[0])
        && (r.Err? ==>
              var b := BackwardStop(spatial, (1, 1, flattenedSize), |spatial|);
              0 < b && r.error == GradError(spatial[b - 1]) && BackwardStopped(grads, b))
        && (r.Ok? ==> forall k {:trigger BackPassed(spatial[k], grads[k + 1], grads[k])} | 0 <= k < |spatial| :: BackPassed(spatial[k], grads[k + 1], grads[k]))
      ensures 0 < |denseLayers| ==> SpatialReady()
      ensures KeptBelow(|spatial|, BackwardPass) == old(KeptBelow(|spatial|, BackwardPass))
    {
      grads := [];
      if |denseLayers| == 0 {
        r := Ok(());
      } else if |target| != Last(denseLayers).outputSize {
        r := Err(InvalidArgument("Target size mismatch"));
      } else {
        r, grads := BackwardBuilt(target);
      }
    }

    /** backwardInternal past its checks. */
    method BackwardBuilt(target: seq<real>) returns (r: Result<()>, ghost grads: seq<Tensor>)
      requires Valid() && SpatialReady() && 0 < |denseLayers| && |target| == Last(denseLayers).outputSize
      modifies this`denseLayers, Repr
      ensures Valid() && SpatialReady() && SameShapes(old(denseLayers), denseLayers)
      ensures denseLayers == BackwardChain(numerics, old(denseLayers), target)
      ensures r.Ok? <==> Linked(spatial)
      ensures |grads| == |spatial| + 1 && grads[|spatial|] == DenseGradient(denseLayers[0])
      ensures r.Err? ==>
        var b := BackwardStop(spatial, (1, 1, flattenedSize), |spatial|);
        0 < b && r.error == GradError(spatial[b - 1]) && BackwardStopped(grads, b)
      ensures r.Ok? ==> forall k {:trigger BackPassed(spatial[k], grads[k + 1], grads[k])} | 0 <= k < |spatial| :: BackPassed(spatial[k], grads[k + 1], grads[k])
      ensures KeptBelow(|spatial|, BackwardPass) == old(KeptBelow(|spatial|, BackwardPass))
    {
      var g := BackwardDenseLayers(target);
      r, grads := BackwardFromDense(g);
    }

    /** The spatial half of backwardInternal, from the flattened-size gradient g. */
    method BackwardFromDense(g: Tensor) returns (r: Result<()>, ghost grads: seq<Tensor>)
      requires Valid() && SpatialReady() && 0 < |denseLayers| && ShapeOf(g) == (1, 1, flattenedSize)
      modifies Repr
      ensures Valid() && SpatialReady()
      ensures r.Ok? <==> Linked(spatial)
      ensures |grads| == |spatial| + 1 && grads[|spatial|] == g
      ensures r.Err? ==>
        var b := BackwardStop(spatial, (1, 1, flattenedSize), |spatial|);
        0 < b && r.error == GradError(spatial[b - 1]) && BackwardStopped(grads, b)
      ensures r.Ok? ==> forall k {:trigger BackPassed(spatial[k], grads[k + 1], grads[k])} | 0 <= k < |spatial| :: BackPassed(spatial[k], grads[k + 1], grads[k])
      ensures KeptBelow(|spatial|, BackwardPass) == old(KeptBelow(|spatial|, BackwardPass))
    {
      r, grads := BackwardSpatialLayers(g);
      assert BackwardStop(spatial, ShapeOf(g), |spatial|) == BackwardStop(spatial, (1, 1, flattenedSize), |spatial|);
    }

    /** The dense half of backwardInternal: the dense deltas, then the gradient the first
        dense layer hands to the spatial layers. */
    method BackwardDenseLayers(target: seq<real>) returns (g: Tensor)
      requires Valid() && 0 < |denseLayers| && |target| == Last(denseLayers).outputSize
      modifies this`denseLayers
      ensures Valid() && SameShapes(old(denseLayers), denseLayers)
      ensures denseLayers == BackwardChain(numerics, old(denseLayers), target)
      ensures g == DenseGradient(denseLayers[0]) && ShapeOf(g) == (1, 1, flattenedSize)
    {
      var ls := BackwardDense(numerics, denseLayers, target);
      StoreDense(ls);
      g := ComputeDenseGradient(denseLayers[0], flattenedSize);
    }

    /** The layer loop of updateWeightsInternal over the spatial layers. */
    method UpdateSpatialLayers(learningRate: real)
      requires Valid()
      modifies Repr
      ensures Valid()
      ensures forall k {:trigger LayerUpdated(spatial[k], learningRate)} | 0 <= k < |spatial| :: LayerUpdated(spatial[k], learningRate)
      ensures old(SpatialReady()) ==> SpatialReady()
    {
      var k := 0;
      while k < |spatial|
        invariant k <= |spatial| && Valid()
        invariant forall j {:trigger LayerUpdated(spatial[j], learningRate)} | 0 <= j < k :: LayerUpdated(spatial[j], learningRate)
        invariant forall j | k <= j < |spatial| :: unchanged(Obj(spatial[j]))
        invariant old(SpatialReady()) ==> forall j {:trigger BackwardReady(spatial[j])} | 0 <= j < k :: BackwardReady(spatial[j])
      {
        UpdateStep(k, learningRate);
        k := k + 1;
      }
    }

    /** One pass of that loop: layer k updates itself. */
    method UpdateStep(k: nat, learningRate: real)
      requires Valid() && k < |spatial|
      modifies Obj(spatial[k])
      ensures Valid() && LayerUpdated(spatial[k], learningRate)
      ensures old(BackwardReady(spatial[k])) ==> BackwardReady(spatial[k])
      ensures forall j | 0 <= j < |spatial| && j != k :: unchanged(Obj(spatial[j]))
    {
      UpdateSpatial(spatial[k], learningRate);
    }

    /** updateWeightsInternal(lr): weight(j, i) += lr * delta_j * input_i and bias_j +=
        lr * delta_j on every dense layer, then every spatial layer's own update (which
        subtracts, for a convolution). */
    method UpdateWeights(learningRate: real)
      requires Valid()
      modifies this`denseLayers, Repr
      ensures Valid() && SameShapes(old(denseLayers), denseLayers)
      ensures denseLayers == UpdateChain(old(denseLayers), learningRate)
      ensures forall k {:trigger LayerUpdated(spatial[k], learningRate)} | 0 <= k < |spatial| :: LayerUpdated(spatial[k], learningRate)
      ensures old(SpatialReady()) ==> SpatialReady()
    {
      UpdateDenseLayers(learningRate);
      label dense:
      UpdateSpatialLayers(learningRate);
      forall k | 0 <= k < |spatial|
        ensures LayerUpdated(spatial[k], learningRate)
      {
        assert LayerUpdated@dense(spatial[k], learningRate);
        match spatial[k]
        case Conv(l) => assert old@dense(StateOf(l)) == old(StateOf(l));
        case Pool(l) =>
        case Flat(l) =>
      }
    }

    /** The dense half of updateWeights: every dense layer moves by its update rule. */
    method UpdateDenseLayers(learningRate: real)
      requires Valid()
      modifies this`denseLayers
      ensures Valid() && SameShapes(old(denseLayers), denseLayers)
      ensures denseLayers == UpdateChain(old(denseLayers), learningRate)
    {
      var ls := UpdateDense(denseLayers, learningRate);
      StoreDense(ls);
    }

    /** calculateLoss(output, target): the mean squared error with its two checks. */
    method CalculateLoss(output: seq<real>, target: seq<real>) returns (r: Result<real>)
      ensures r == MeanSquaredError(output, target)
    {
      r := MeanSquaredLoss(output, target);
    }

    /**
     * train(inputs, targets, lr): the three checks in this order, then forward, loss,
     * backward and update for every sample in input order, and the mean of the
     * per-sample losses. It completes exactly when the network is built, its spatial
     * layers chain from the input shape, it produces a non-empty output, and every
     * sample has the input shape and a target of the output's length.
     */
    method Train(inputs: seq<Tensor>, targets: seq<seq<real>>, learningRate: real)
      returns (r: Result<real>, ghost losses: seq<real>, ghost outputs: seq<seq<real>>)
      requires Valid()
      modifies this`flattenedOutput, this`denseLayers, this`lastOutput, Repr
      ensures Valid() && SameShapes(old(denseLayers), denseLayers)
      ensures |inputs| == 0 || |targets| == 0 ==> r == Err(InvalidArgument("Training data cannot be empty"))
      ensures 0 < |inputs| && 0 < |targets| && |inputs| != |targets| ==> r == Err(InvalidArgument("Training data size mismatch"))
      ensures 0 < |inputs| == |targets| && !isBuilt ==> r == Err(RuntimeError("Network not built"))
      ensures |inputs| == 0 || |targets| == 0 || |inputs| != |targets| || !isBuilt ==> unchanged(this) && unchanged(Repr)
      ensures r.Ok? <==>
        && 0 < |inputs| == |targets| && isBuilt && ShapesChain(spatial, InputShape()) && 0 < old(OutputLength())
        && forall i | 0 <= i < |inputs| :: ShapeOf(inputs[i]) == InputShape() && |targets[i]| == old(OutputLength())
      ensures r.Ok? ==>
        |losses| == |inputs| && (forall i | 0 <= i < |losses| :: losses[i] >= 0.0)
        && r.value == SumSeq(losses) / |inputs| as real
      ensures r.Ok? ==>
        |outputs| == |inputs| && forall i | 0 <= i < |inputs| ::
          |outputs[i]| == old(OutputLength()) && MeanSquaredError(outputs[i], targets[i]) == Ok(losses[i])
      ensures 0 < |inputs| == |targets| && isBuilt && r.Err? ==>
        var k := FirstFault(spatial, InputShape(), old(OutputLength()), inputs, targets, 0);
        k < |inputs| && SampleFault(spatial, InputShape(), old(OutputLength()), inputs[k], targets[k]) == Err(r.error)
    {
      losses, outputs := [], [];
      if |inputs| == 0 || |targets| == 0 {
        r := Err(InvalidArgument("Training data cannot be empty"));
      } else if |inputs| != |targets| {
        r := Err(InvalidArgument("Training data size mismatch"));
      } else if !isBuilt {
        r := Err(RuntimeError("Network not built"));
      } else {
        r, losses, outputs := TrainBuilt(inputs, targets, learningRate);
      }
    }

    /** train past its three checks: the samples in input order, stopping at the first
        that throws. */
    method TrainBuilt(inputs: seq<Tensor>, targets: seq<seq<real>>, learningRate: real)
      returns (r: Result<real>, ghost losses: seq<real>, ghost outputs: seq<seq<real>>)
      requires Valid() && 0 < |inputs| == |targets| && isBuilt
      modifies this`flattenedOutput, this`denseLayers, this`lastOutput, Repr
      ensures Valid() && SameShapes(old(denseLayers), denseLayers)
      ensures r.Ok? <==>
        && ShapesChain(spatial, InputShape()) && 0 < old(OutputLength())
        && forall i | 0 <= i < |inputs| :: ShapeOf(inputs[i]) == InputShape() && |targets[i]| == old(OutputLength())
      ensures r.Ok? ==>
        |losses| == |inputs| && (forall i | 0 <= i < |losses| :: losses[i] >= 0.0)
        && r.value == SumSeq(losses) / |inputs| as real
      ensures r.Ok? ==>
        |outputs| == |inputs| && forall i | 0 <= i < |inputs| :: MeanSquaredError(outputs[i], targets[i]) == Ok(losses[i])
      ensures r.Err? ==>
        var k := FirstFault(spatial, InputShape(), old(OutputLength()), inputs, targets, 0);
        k < |inputs| && SampleFault(spatial, InputShape(), old(OutputLength()), inputs[k], targets[k]) == Err(r.error)
    {
      var fault, i, total;
      fault, i, losses, total, outputs := TrainRun(inputs, targets, learningRate);
      if fault.Ok? {
        r := Ok(total / |inputs| as real);
      } else {
        r := Err(fault.error);
        FirstFaultAt(spatial, InputShape(), old(OutputLength()), inputs, targets, i);
      }
    }

    /** The loop of train: the samples in input order, until one throws. i is the sample
        it stopped at, or the number of samples. */
    method TrainRun(inputs: seq<Tensor>, targets: seq<seq<real>>, learningRate: real)
      returns (fault: Result<()>, i: nat, ghost losses: seq<real>, total: real, ghost outputs: seq<seq<real>>)
      requires Valid() && 0 < |inputs| == |targets| && isBuilt
      modifies this`flattenedOutput, this`denseLayers, this`lastOutput, Repr
      ensures Valid() && SameShapes(old(denseLayers), denseLayers) && OutputLength() == old(OutputLength())
      ensures i <= |inputs| && (fault.Ok? ==> i == |inputs|)
      ensures forall j | 0 <= j < i :: SampleFault(spatial, InputShape(), old(OutputLength()), inputs[j], targets[j]).Ok?
      ensures fault.Err? ==> i < |inputs| && SampleFault(spatial, InputShape(), old(OutputLength()), inputs[i], targets[i]) == fault
      ensures |losses| == i && Tally(losses, total)
      ensures |outputs| == i && forall j | 0 <= j < i :: MeanSquaredError(outputs[j], targets[j]) == Ok(losses[j])
    {
      losses, outputs := [], [];
      ghost var length := OutputLength();
      total := 0.0;
      i := 0;
      fault := Ok(());
      while i < |inputs| && fault.Ok?
        invariant i <= |inputs| && Valid() && SameShapes(old(denseLayers), denseLayers)
        invariant OutputLength() == length
        invariant |losses| == i && Tally(losses, total)
        invariant |outputs| == i && forall j | 0 <= j < i :: MeanSquaredError(outputs[j], targets[j]) == Ok(losses[j])
        invariant forall j | 0 <= j < i :: SampleFault(spatial, InputShape(), length, inputs[j], targets[j]).Ok?
        invariant fault.Err? ==> i < |inputs| && SampleFault(spatial, InputShape(), length, inputs[i], targets[i]) == fault
        decreases |inputs| - i, fault.Ok?
      {
        ghost var before := denseLayers;
        var loss, tally, sum, outs := TrainStep(inputs, targets, learningRate, i, length, losses, total, outputs);
        NeuralNetworks.SameShapesTrans(old(denseLayers), before, denseLayers);
        if loss.Err? {
          fault := Err(loss.error);
        } else {
          losses, total, outputs := tally, sum, outs;
          i := i + 1;
        }
      }
    }

    /** One iteration of train's loop: sample i, and its loss added to the running loss. */
    method TrainStep(inputs: seq<Tensor>, targets: seq<seq<real>>, learningRate: real, i: nat,
                     ghost length: int, ghost losses: seq<real>, total: real, ghost outputs: seq<seq<real>>)
      returns (loss: Result<real>, ghost losses': seq<real>, sum: real, ghost outputs': seq<seq<real>>)
      requires Valid() && isBuilt && i < |inputs| == |targets| && OutputLength() == length
      requires |losses| == i && Tally(losses, total)
      requires |outputs| == i && forall j | 0 <= j < i :: MeanSquaredError(outputs[j], targets[j]) == Ok(losses[j])
      modifies this`flattenedOutput, this`denseLayers, this`lastOutput, Repr
      ensures Valid() && SameShapes(old(denseLayers), denseLayers) && OutputLength() == length
      ensures SampleFault(spatial, InputShape(), length, inputs[i], targets[i]) == if loss.Ok? then Ok(()) else Err(loss.error)
      ensures loss.Ok? ==> |losses'| == i + 1 && losses'[..i] == losses && Tally(losses', sum)
      ensures loss.Ok? ==> outputs' == outputs + [lastOutput] && MeanSquaredError(lastOutput, targets[i]) == Ok(losses'[i])
      ensures loss.Ok? ==> forall j | 0 <= j <= i :: MeanSquaredError(outputs'[j], targets[j]) == Ok(losses'[j])
    {
      ghost var grads;
      loss, grads := TrainSample(inputs[i], targets[i], learningRate);
      losses', sum, outputs' := losses, total, outputs;
      if loss.Ok? {
        losses', sum, outputs' := losses + [loss.value], total + loss.value, outputs + [lastOutput];
        TallySnoc(losses, total, loss.value, losses', sum);
      }
    }

    /**
     * One sample of train: forward, the loss against the target, backward, update. The
     * loss is the mean squared error of the forward output. Each spatial layer holds the
     * forward of x, computed with what it held before (TrainedFrom, on the record the
     * forward pass keeps of it), and a convolution's kernels and biases are then
     * stepped; the dense layers are forwarded on the flattened output, take their deltas
     * against the target and are stepped, and each spatial layer's backward turned the
     * gradient handed to it into the one it passed down.
     */
    method TrainSample(x: Tensor, t: seq<real>, learningRate: real) returns (r: Result<real>, ghost grads: seq<Tensor>)
      requires Valid() && isBuilt
      modifies this`flattenedOutput, this`denseLayers, this`lastOutput, Repr
      ensures Valid() && SameShapes(old(denseLayers), denseLayers) && OutputLength() == old(OutputLength())
      ensures r.Ok? <==>
        ShapeOf(x) == InputShape() && ShapesChain(spatial, InputShape()) && 0 < old(OutputLength()) && |t| == old(OutputLength())
      ensures r.Err? ==> SampleFault(spatial, InputShape(), old(OutputLength()), x, t) == Err(r.error)
      ensures ShapeOf(x) == InputShape() && ShapesChain(spatial, InputShape()) ==> r == MeanSquaredError(lastOutput, t)
      ensures r.Ok? ==> r.value >= 0.0
      ensures r.Ok? ==> SampleLearned(x, t, learningRate, old(KeptBelow(|spatial|, ForwardPass)), old(denseLayers), grads)
    {
      grads := [];
      r := ForwardLoss(x, t);
      if r.Ok? {
        grads := LearnSample(x, t, learningRate, old(KeptBelow(|spatial|, ForwardPass)), old(denseLayers));
      }
    }

    /** The state after the forward of x, when the forward started from the dense layers
        dense0 and kept before of the spatial layers: the spatial layers hold the forward
        of x and chain, the flattened output is that of the spatial part, and the dense
        layers are dense0 forwarded on it (the output is the flattened vector when there
        are none). */
    ghost predicate SampleForwarded(x: Tensor, before: seq<Kept>, dense0: seq<Layer>)
      reads this, Repr
    {
      && LayersValid() && ForwardedFrom(x) && SpatialReady() && Linked(spatial)
      && KeptBelow(|spatial|, ForwardPass) == before
      && flattenedOutput == Flatten(SpatialOutput(x))
      && Chained(dense0) && SameShapes(dense0, denseLayers)
      && (|denseLayers| == 0 ==> lastOutput == flattenedOutput)
      && (0 < |denseLayers| ==>
            && dense0[0].inputSize <= |flattenedOutput|
            && denseLayers == ForwardChain(numerics, dense0, flattenedOutput) && lastOutput == Last(denseLayers).output)
    }

    /**
     * The state after a whole sample (x, t) at rate learningRate, from the dense layers
     * dense0 and with before kept of the spatial layers by the forward: every spatial
     * layer was trained from before (TrainedFrom) and caches the forward of x in order;
     * the output is the last of dense0 forwarded on the flattened output; the dense
     * layers are those forwarded layers with their deltas against t, stepped; the
     * gradient handed to the spatial part is that of the first of them, and each spatial
     * layer turned grads[k + 1] into grads[k] with the kernels it had.
     */
    ghost predicate SampleLearned(x: Tensor, t: seq<real>, learningRate: real, before: seq<Kept>, dense0: seq<Layer>,
                                  grads: seq<Tensor>)
      reads this, Repr
    {
      && LayersValid() && |before| == |spatial|
      && flattenedOutput == Flatten(SpatialOutput(x))
      && (forall k {:trigger CachedInput(spatial[k])} | 0 <= k < |spatial| ::
            CachedInput(spatial[k]) == if k == 0 then x else CachedOutput(spatial[k - 1]))
      && (forall k | 0 <= k < |spatial| :: TrainedFrom(spatial[k], before[k], learningRate))
      && (|dense0| == 0 ==> denseLayers == [] && lastOutput == flattenedOutput)
      && (0 < |dense0| ==>
            && Chained(dense0) && dense0[0].inputSize <= |flattenedOutput|
            && var forward := ForwardChain(numerics, dense0, flattenedOutput);
            && Chained(forward) && lastOutput == Last(forward).output && |t| == Last(forward).outputSize
            && var backward := BackwardChain(numerics, forward, t);
            && Chained(backward) && WellSized(backward[0]) && denseLayers == UpdateChain(backward, learningRate)
            && |grads| == |spatial| + 1 && grads[|spatial|] == DenseGradient(backward[0])
            && forall k | 0 <= k < |spatial| :: BackPassedWith(spatial[k], before[k], grads[k + 1], grads[k]))
    }

    /** The second half of a sample, after the forward of x: backward and update. */
    method LearnSample(ghost x: Tensor, t: seq<real>, learningRate: real, ghost before: seq<Kept>, ghost dense0: seq<Layer>)
      returns (ghost grads: seq<Tensor>)
      requires Valid() && |t| == OutputLength() && SampleForwarded(x, before, dense0)
      modifies this`denseLayers, Repr
      ensures Valid() && SameShapes(dense0, denseLayers) && OutputLength() == old(OutputLength())
      ensures SampleLearned(x, t, learningRate, before, dense0, grads)
    {
      KeptBelowAt(|spatial|, ForwardPass);
      var back;
      ghost var forward := denseLayers;
      back, grads := Learn(t, learningRate);
      NeuralNetworks.SameShapesTrans(dense0, forward, denseLayers);
      SampleLearnedFrom(x, t, learningRate, before, dense0, grads);
    }

    /** A sample whose forward left SampleForwarded and which then learned ends in
        SampleLearned. */
    twostate lemma SampleLearnedFrom(new x: Tensor, new t: seq<real>, new learningRate: real, new before: seq<Kept>,
                                     new dense0: seq<Layer>, new grads: seq<Tensor>)
      requires old(SampleForwarded(x, before, dense0)) && Learned(t, learningRate, grads)
      requires flattenedOutput == old(flattenedOutput) && lastOutput == old(lastOutput)
      requires forall k | 0 <= k < |spatial| :: before[k] == old(KeptOf(spatial[k], ForwardPass))
      ensures SampleLearned(x, t, learningRate, before, dense0, grads)
    {
      TrainedLayers(x, before, learningRate);
      if 0 < |dense0| {
        BackPassedLayers(before, grads);
      }
    }

    /** Forwarded layers that then learned were trained from what the forward kept of
        them, and still hold the forward's caches. */
    twostate lemma TrainedLayers(new x: Tensor, new before: seq<Kept>, new learningRate: real)
      requires old(LayersValid()) && LayersValid() && spatial == old(spatial) && |before| == |spatial|
      requires old(ForwardedFrom(x))
      requires forall k | 0 <= k < |spatial| :: before[k] == old(KeptOf(spatial[k], ForwardPass))
      requires forall k {:trigger LayerLearned(spatial[k], learningRate)} | 0 <= k < |spatial| :: LayerLearned(spatial[k], learningRate)
      ensures SpatialOutput(x) == old(SpatialOutput(x))
      ensures forall k {:trigger CachedInput(spatial[k])} | 0 <= k < |spatial| ::
        CachedInput(spatial[k]) == if k == 0 then x else CachedOutput(spatial[k - 1])
      ensures forall k | 0 <= k < |spatial| :: TrainedFrom(spatial[k], before[k], learningRate)
    {
      forall k | 0 <= k < |spatial|
        ensures CachedInput(spatial[k]) == old(CachedInput(spatial[k]))
        ensures CachedOutput(spatial[k]) == old(CachedOutput(spatial[k]))
        ensures TrainedFrom(spatial[k], before[k], learningRate)
      {
        TrainedLayer(spatial[k], before[k], learningRate);
      }
      if 0 < |spatial| {
        assert CachedOutput(spatial[|spatial| - 1]) == old(CachedOutput(spatial[|spatial| - 1]));
      }
    }

    /** Each layer's backward, stated with the kernels the forward kept. */
    twostate lemma BackPassedLayers(new before: seq<Kept>, new grads: seq<Tensor>)
      requires old(LayersValid()) && LayersValid() && spatial == old(spatial)
      requires |before| == |spatial| && |grads| == |spatial| + 1
      requires forall k | 0 <= k < |spatial| :: before[k] == old(KeptOf(spatial[k], ForwardPass))
      requires forall k {:trigger BackPassedBefore(spatial[k], grads[k + 1], grads[k])} | 0 <= k < |spatial| ::
        BackPassedBefore(spatial[k], grads[k + 1], grads[k])
      ensures forall k | 0 <= k < |spatial| :: BackPassedWith(spatial[k], before[k], grads[k + 1], grads[k])
    {
      forall k | 0 <= k < |spatial|
        ensures BackPassedWith(spatial[k], before[k], grads[k + 1], grads[k])
      {
        BackPassedLayer(spatial[k], before[k], grads[k + 1], grads[k]);
      }
    }

    /** The forward pass of one training sample, its result stated as SampleForwarded. */
    method ForwardSample(x: Tensor) returns (output: Result<seq<real>>)
      requires Valid() && isBuilt
      modifies this`flattenedOutput, this`denseLayers, this`lastOutput, Repr
      ensures Valid() && SameShapes(old(denseLayers), denseLayers) && OutputLength() == old(OutputLength())
      ensures output.Ok? <==> ShapeOf(x) == InputShape() && ShapesChain(spatial, InputShape())
      ensures ShapeOf(x) != InputShape() ==> output == Err(InvalidArgument("Input shape mismatch"))
      ensures ShapeOf(x) == InputShape() && output.Err? ==>
        var b := ForwardBreak(spatial, InputShape(), 0); b < |spatial| && output.error == ShapeError(spatial[b])
      ensures output.Ok? ==> lastOutput == output.value && |output.value| == OutputLength()
      ensures output.Ok? ==> SpatialReady() && SampleForwarded(x, old(KeptBelow(|spatial|, ForwardPass)), old(denseLayers))
    {
      output := Forward(x);
    }

    /** The first half of a sample: forward, then the loss of its output. */
    method ForwardLoss(x: Tensor, t: seq<real>) returns (r: Result<real>)
      requires Valid() && isBuilt
      modifies this`flattenedOutput, this`denseLayers, this`lastOutput, Repr
      ensures Valid() && SameShapes(old(denseLayers), denseLayers) && OutputLength() == old(OutputLength())
      ensures r.Ok? <==>
        ShapeOf(x) == InputShape() && ShapesChain(spatial, InputShape()) && 0 < old(OutputLength()) && |t| == old(OutputLength())
      ensures r.Err? ==> SampleFault(spatial, InputShape(), old(OutputLength()), x, t) == Err(r.error)
      ensures ShapeOf(x) == InputShape() && ShapesChain(spatial, InputShape()) ==> r == MeanSquaredError(lastOutput, t)
      ensures r.Ok? ==> r.value >= 0.0
      ensures r.Ok? ==> SpatialReady() && SampleForwarded(x, old(KeptBelow(|spatial|, ForwardPass)), old(denseLayers))
    {
      var output := ForwardSample(x);
      if output.Err? {
        r := Err(output.error);
      } else {
        r := MeanSquaredLoss(output.value, t);
        SampleFaultLoss(spatial, InputShape(), x, t, output.value);
        if r.Ok? {
          MeanSquaredErrorMeaning(output.value, t);
        }
      }
    }

    /** What backward against t and then updateWeights(learningRate) leave: the dense
        layers take their deltas against t and are stepped, the gradient handed to the
        spatial part is that of the first of them, each spatial layer turned grads[k + 1]
        into grads[k] with the kernels it had, and every spatial layer learned. */
    twostate predicate Learned(t: seq<real>, learningRate: real, grads: seq<Tensor>)
      reads this, Repr
    {
      && old(LayersValid()) && LayersValid() && spatial == old(spatial)
      && (|old(denseLayers)| == 0 ==> denseLayers == old(denseLayers))
      && (0 < |old(denseLayers)| ==>
            && Chained(old(denseLayers)) && |t| == Last(old(denseLayers)).outputSize
            && var backward := BackwardChain(numerics, old(denseLayers), t);
            && Chained(backward) && WellSized(backward[0]) && denseLayers == UpdateChain(backward, learningRate)
            && |grads| == |spatial| + 1 && grads[|spatial|] == DenseGradient(backward[0])
            && forall k {:trigger BackPassedBefore(spatial[k], grads[k + 1], grads[k])} | 0 <= k < |spatial| ::
                 BackPassedBefore(spatial[k], grads[k + 1], grads[k]))
      && forall k {:trigger LayerLearned(spatial[k], learningRate)} | 0 <= k < |spatial| :: LayerLearned(spatial[k], learningRate)
    }

    /** The second half of a sample: backward against the target, then the update. On
        layers that chain, backward does not throw; the dense layers take their deltas
        and are then stepped, and every spatial layer learns from the gradient handed to
        it. */
    method Learn(t: seq<real>, learningRate: real) returns (back: Result<()>, ghost grads: seq<Tensor>)
      requires Valid() && SpatialReady() && |t| == OutputLength() && Linked(spatial)
      modifies this`denseLayers, Repr
      ensures Valid() && SameShapes(old(denseLayers), denseLayers) && SpatialReady()
      ensures back.Ok? && Learned(t, learningRate, grads)
    {
      back, grads := BackwardKept(t);
      label backward:
      UpdateWeights(learningRate);
      forall k | 0 <= k < |spatial|
        ensures LayerLearned(spatial[k], learningRate)
      {
        assert LayerUpdated@backward(spatial[k], learningRate);
        assert old@backward(KeptOf(spatial[k], BackwardPass)) == old(KeptOf(spatial[k], BackwardPass));
        match spatial[k]
        case Conv(l) =>
          assert old@backward(StateOf(l)) == old(StateOf(l)).(kernelGradients := l.kernelGradients, biasGradients := l.biasGradients);
        case Pool(l) =>
        case Flat(l) =>
      }
      if 0 < |old(denseLayers)| {
        forall k | 0 <= k < |spatial|
          ensures BackPassedBefore(spatial[k], grads[k + 1], grads[k])
        {
          assert LayerUpdated@backward(spatial[k], learningRate);
          assert old@backward(BackPassed(spatial[k], grads[k + 1], grads[k]));
        }
      }
    }

    /** Backward on layers that chain, and what it keeps of each spatial layer. */
    method BackwardKept(t: seq<real>) returns (back: Result<()>, ghost grads: seq<Tensor>)
      requires Valid() && SpatialReady() && |t| == OutputLength() && Linked(spatial)
      modifies this`denseLayers, Repr
      ensures Valid() && SameShapes(old(denseLayers), denseLayers) && SpatialReady()
      ensures back.Ok?
      ensures |old(denseLayers)| == 0 ==> denseLayers == old(denseLayers)
      ensures 0 < |old(denseLayers)| ==>
        && denseLayers == BackwardChain(numerics, old(denseLayers), t)
        && |grads| == |spatial| + 1 && grads[|spatial|] == DenseGradient(denseLayers[0])
        && forall k {:trigger BackPassed(spatial[k], grads[k + 1], grads[k])} | 0 <= k < |spatial| :: BackPassed(spatial[k], grads[k + 1], grads[k])
      ensures forall k | 0 <= k < |spatial| :: KeptOf(spatial[k], BackwardPass) == old(KeptOf(spatial[k], BackwardPass))
    {
      back, grads := Backward(t);
      KeptEach(BackwardPass);
    }

    /** The spatial layers' parameters, layer by layer. */
    function SpatialParameters(n: nat): nat
      requires LayersValid() && n <= |spatial|
      reads this`spatial, this`Repr, this`Slot, Repr
    {
      if n == 0 then 0 else SpatialParameters(n - 1) + LayerParameters(spatial[n - 1])
    }

    /** totalParameters(): every spatial layer's parameterCount, then in * out + out for
        every dense layer. */
    method TotalParameters() returns (total: int)
      requires Valid()
      ensures total == SpatialParameters(|spatial|) + DenseParameters(denseLayers, |denseLayers|)
      ensures total == SpatialParameters(|spatial|) + StoredParameters(denseLayers, |denseLayers|) && total >= 0
    {
      total := 0;
      var k := 0;
      while k < |spatial|
        invariant k <= |spatial| && total == SpatialParameters(k)
      {
        total := total + LayerParameters(spatial[k]);
        k := k + 1;
      }
      var d := 0;
      while d < |denseLayers|
        invariant d <= |denseLayers| && total == SpatialParameters(|spatial|) + DenseParameters(denseLayers, d)
      {
        var l := denseLayers[d];
        total := total + l.inputSize * l.outputSize + l.outputSize;
        d := d + 1;
      }
      DenseParametersAreStored(denseLayers, |denseLayers|);
    }
  }
}
