/**
 * The 2D convolution layer (include/cnn/conv_layer.h, src/cnn/conv_layer.cpp).
 * outputChannels kernels of shape (inputChannels, k, k) slide with a stride over
 * the input padded by `padding` zero rows and columns on each side. Every sum the
 * loops accumulate is specified by a recursive function that adds the same terms
 * in the same order; a tap that would fall outside a tensor reads as 0 there,
 * which the window lemmas show never happens for the reads of forward and of the
 * kernel gradient.
 */
module ConvLayers {
  import opened IndexArith
  import opened Errors
  import opened Tensors
  import opened Activations
  import opened LayerTypes

  // ------------------------------------------------------------------ output size

  /** The stride check of the constructor followed by computeOutputSize(): the padded
      input must hold at least one k x k window. */
  function ConvConfig(inH: nat, inW: nat, k: nat, s: nat, pad: nat): (r: Result<(nat, nat)>)
    ensures r.Err? <==> (s == 0 || k == 0 || inH + 2 * pad < k || inW + 2 * pad < k)
    ensures s == 0 ==> r == Err(InvalidArgument("ConvolutionalLayer: stride must be greater than 0"))
    ensures s > 0 && k == 0 ==> r == Err(InvalidArgument("ConvolutionalLayer: kernelSize and stride must be greater than 0"))
    ensures s > 0 && k > 0 && (inH + 2 * pad < k || inW + 2 * pad < k) ==>
      r == Err(InvalidArgument("ConvolutionalLayer: kernelSize too large for input size"))
    ensures r.Ok? ==> WindowCount(r.value.0, inH + 2 * pad, k, s) && WindowCount(r.value.1, inW + 2 * pad, k, s)
  {
    var paddedH := inH + 2 * pad;
    var paddedW := inW + 2 * pad;
    if s == 0 then
      Result<(nat, nat)>.Err(InvalidArgument("ConvolutionalLayer: stride must be greater than 0"))
    else if k == 0 then
      Result<(nat, nat)>.Err(InvalidArgument("ConvolutionalLayer: kernelSize and stride must be greater than 0"))
    else if paddedH < k || paddedW < k then
      Result<(nat, nat)>.Err(InvalidArgument("ConvolutionalLayer: kernelSize too large for input size"))
    else
      WindowCountFormula(paddedH, k, s);
      WindowCountFormula(paddedW, k, s);
      Ok((Steps(paddedH - k, s) + 1, Steps(paddedW - k, s) + 1))
  }

  /** The functional test's layers: a 3x3 kernel at stride 1 on 28x28 gives 26x26, with
      padding 1 it keeps 28x28; stride 0 is refused; a 5x5 kernel does not fit 2x2 unpadded. */
  lemma ConvConfigScenarios()
    ensures ConvConfig(28, 28, 3, 1, 0) == Ok((26, 26))
    ensures ConvConfig(28, 28, 3, 1, 1) == Ok((28, 28))
    ensures ConvConfig(28, 28, 3, 2, 1) == Ok((14, 14))
    ensures ConvConfig(28, 28, 3, 0, 0).Err?
    ensures ConvConfig(2, 2, 5, 1, 0).Err? && ConvConfig(2, 2, 5, 1, 2).Ok?
  {
    StepsIsQuotient(25, 1);
    StepsIsQuotient(27, 1);
    StepsIsQuotient(27, 2);
  }

  /** computeOutputSize(): each output side is (in + 2 * padding - kernelSize) / stride + 1. */
  lemma ConvOutputFormula(inH: nat, inW: nat, k: nat, s: nat, pad: nat)
    requires ConvConfig(inH, inW, k, s, pad).Ok?
    ensures ConvConfig(inH, inW, k, s, pad).value == ((inH + 2 * pad - k) / s + 1, (inW + 2 * pad - k) / s + 1)
  {
    StepsIsQuotient(inH + 2 * pad - k, s);
    StepsIsQuotient(inW + 2 * pad - k, s);
  }

  /** The kernel taps of output cell (oh, ow) read padded rows oh*s + kh and columns
      ow*s + kw, all inside the padded input. */
  lemma {:induction false} TapsInside(oh: nat, ow: nat, kh: nat, kw: nat, outH: nat, outW: nat,
                                      paddedH: nat, paddedW: nat, k: nat, s: nat)
    requires WindowCount(outH, paddedH, k, s) && WindowCount(outW, paddedW, k, s)
    requires oh < outH && ow < outW && kh < k && kw < k
    ensures oh * s + kh < paddedH && ow * s + kw < paddedW
  {
    WindowInside(oh, outH, paddedH, k, s, kh);
    WindowInside(ow, outW, paddedW, k, s, kw);
  }

  // ------------------------------------------------------------------ forward

  /** Cell (c, h, w) of t, or 0 where t has no such cell. */
  function CellOrZero(t: Tensor, c: nat, h: nat, w: nat): real
  {
    if InRange(t, c, h, w) then Get(t, c, h, w) else 0.0
  }

  /** sum over kw < n of x(ic, sh + kh, sw + kw) * kernel(ic, kh, kw). */
  function TapRow(x: Tensor, kernel: Tensor, ic: nat, sh: nat, sw: nat, kh: nat, n: nat): real
  {
    if n == 0 then 0.0
    else TapRow(x, kernel, ic, sh, sw, kh, n - 1) + CellOrZero(x, ic, sh + kh, sw + n - 1) * CellOrZero(kernel, ic, kh, n - 1)
  }

  lemma TapRowStep(x: Tensor, kernel: Tensor, ic: nat, sh: nat, sw: nat, kh: nat, kw: nat, a: real, b: real)
    requires InRange(x, ic, sh + kh, sw + kw) && InRange(kernel, ic, kh, kw)
    requires a == Get(x, ic, sh + kh, sw + kw) && b == Get(kernel, ic, kh, kw)
    ensures TapRow(x, kernel, ic, sh, sw, kh, kw + 1) == TapRow(x, kernel, ic, sh, sw, kh, kw) + a * b
  {
  }

  /** The rows kh < m of the window of channel ic at (sh, sw). */
  function TapWindow(x: Tensor, kernel: Tensor, ic: nat, sh: nat, sw: nat, m: nat): real
  {
    if m == 0 then 0.0
    else TapWindow(x, kernel, ic, sh, sw, m - 1) + TapRow(x, kernel, ic, sh, sw, m - 1, kernel.width)
  }

  /** The channels ic < n of the window at (sh, sw). */
  function TapSum(x: Tensor, kernel: Tensor, sh: nat, sw: nat, n: nat): real
  {
    if n == 0 then 0.0
    else TapSum(x, kernel, sh, sw, n - 1) + TapWindow(x, kernel, n - 1, sh, sw, kernel.height)
  }

  /** A kernel whose every weight is zero. */
  predicate ZeroKernel(kernel: Tensor)
  {
    forall i | 0 <= i < |kernel.data| :: kernel.data[i] == 0.0
  }

  /** An all-zero kernel contributes nothing to a window sum. */
  lemma {:induction false} ZeroKernelTaps(x: Tensor, kernel: Tensor, sh: nat, sw: nat, n: nat)
    requires ZeroKernel(kernel)
    ensures TapSum(x, kernel, sh, sw, n) == 0.0
  {
    if n > 0 {
      ZeroKernelTaps(x, kernel, sh, sw, n - 1);
      ZeroKernelWindow(x, kernel, n - 1, sh, sw, kernel.height);
    }
  }

  lemma {:induction false} ZeroKernelWindow(x: Tensor, kernel: Tensor, ic: nat, sh: nat, sw: nat, m: nat)
    requires ZeroKernel(kernel)
    ensures TapWindow(x, kernel, ic, sh, sw, m) == 0.0
  {
    if m > 0 {
      ZeroKernelWindow(x, kernel, ic, sh, sw, m - 1);
      ZeroKernelRow(x, kernel, ic, sh, sw, m - 1, kernel.width);
    }
  }

  lemma {:induction false} ZeroKernelRow(x: Tensor, kernel: Tensor, ic: nat, sh: nat, sw: nat, kh: nat, n: nat)
    requires ZeroKernel(kernel)
    ensures TapRow(x, kernel, ic, sh, sw, kh, n) == 0.0
  {
    if n > 0 {
      ZeroKernelRow(x, kernel, ic, sh, sw, kh, n - 1);
      if InRange(kernel, ic, kh, n - 1) {
        assert Get(kernel, ic, kh, n - 1) == 0.0;
      }
    }
  }

  /** The innermost loops of forward for one output cell: sum = bias, then
      sum += padded(ic, sh + kh, sw + kw) * kernel(ic, kh, kw) in (ic, kh, kw) order. */
  method WindowTaps(x: Tensor, kernel: Tensor, bias: real, sh: nat, sw: nat) returns (sum: real)
    requires kernel.channels <= x.channels
    requires sh + kernel.height <= x.height && sw + kernel.width <= x.width
    ensures sum == bias + TapSum(x, kernel, sh, sw, kernel.channels)
  {
    sum := bias;
    for ic := 0 to kernel.channels
      invariant sum == bias + TapSum(x, kernel, sh, sw, ic)
    {
      for kh := 0 to kernel.height
        invariant sum == bias + TapSum(x, kernel, sh, sw, ic) + TapWindow(x, kernel, ic, sh, sw, kh)
      {
        for kw := 0 to kernel.width
          invariant sum == bias + TapSum(x, kernel, sh, sw, ic) + TapWindow(x, kernel, ic, sh, sw, kh)
            + TapRow(x, kernel, ic, sh, sw, kh, kw)
        {
          var a, b := Get(x, ic, sh + kh, sw + kw), Get(kernel, ic, kh, kw);
          TapRowStep(x, kernel, ic, sh, sw, kh, kw, a, b);
          sum := sum + a * b;
        }
      }
    }
  }

  /** Every kernel has shape (channels, k, k). */
  predicate KernelsShaped(kernels: seq<Tensor>, channels: nat, k: nat)
  {
    forall oc | 0 <= oc < |kernels| :: HasShape(kernels[oc], channels, k, k)
  }

  /** The pre-activation the layer assigns to output cell (oc, oh, ow). */
  function PreActivation(x: Tensor, kernels: seq<Tensor>, biases: seq<real>, s: nat, oc: nat, oh: nat, ow: nat): real
  {
    if oc < |kernels| && oc < |biases| then biases[oc] + TapSum(x, kernels[oc], oh * s, ow * s, kernels[oc].channels)
    else 0.0
  }

  /** The pre-activation of every output cell, as a function of its position. */
  function PreFn(x: Tensor, kernels: seq<Tensor>, biases: seq<real>, s: nat): (nat, nat, nat) -> real
  {
    (oc: nat, oh: nat, ow: nat) => PreActivation(x, kernels, biases, s, oc, oh, ow)
  }

  /** The activated output of every output cell, as a function of its position. */
  function OutFn(x: Tensor, kernels: seq<Tensor>, biases: seq<real>, s: nat, m: Numerics,
                 act: CNNActivationType): (nat, nat, nat) -> real
  {
    (oc: nat, oh: nat, ow: nat) => ConvActivate(m, PreActivation(x, kernels, biases, s, oc, oh, ow), act)
  }

  /** Output channel oc has a kernel and a bias, and every window of its plane fits in x. */
  predicate ChannelFits(x: Tensor, kernels: seq<Tensor>, biases: seq<real>, s: nat, outH: nat, outW: nat, oc: nat)
  {
    && oc < |kernels| && oc < |biases| && kernels[oc].channels <= x.channels
    && WindowCount(outH, x.height, kernels[oc].height, s) && WindowCount(outW, x.width, kernels[oc].width, s)
  }

  /** One output cell of forward: the window's sum, then its activation. */
  method ForwardCell(x: Tensor, kernels: seq<Tensor>, biases: seq<real>, s: nat, m: Numerics, act: CNNActivationType,
                     zeros: Tensor, pre: Tensor, out: Tensor, oc: nat, oh: nat, ow: nat, sh: nat, sw: nat)
    returns (pre': Tensor, out': Tensor)
    requires oc < |kernels| && oc < |biases| && kernels[oc].channels <= x.channels
    requires sh == oh * s && sw == ow * s
    requires sh + kernels[oc].height <= x.height && sw + kernels[oc].width <= x.width
    requires InRange(pre, oc, oh, ow) && InRange(out, oc, oh, ow)
    requires FilledUpTo(pre, zeros, PreFn(x, kernels, biases, s), oc, oh, ow)
    requires FilledUpTo(out, zeros, OutFn(x, kernels, biases, s, m, act), oc, oh, ow)
    ensures FilledUpTo(pre', zeros, PreFn(x, kernels, biases, s), oc, oh, ow + 1)
    ensures FilledUpTo(out', zeros, OutFn(x, kernels, biases, s, m, act), oc, oh, ow + 1)
  {
    var sum := WindowTaps(x, kernels[oc], biases[oc], sh, sw);
    assert sum == PreFn(x, kernels, biases, s)(oc, oh, ow);
    FillCell(pre, zeros, PreFn(x, kernels, biases, s), oc, oh, ow);
    FillCell(out, zeros, OutFn(x, kernels, biases, s, m, act), oc, oh, ow);
    pre' := Set(pre, oc, oh, ow, sum);
    out' := Set(out, oc, oh, ow, ConvActivate(m, sum, act));
  }

  /** Output row oh of channel oc. */
  method ForwardRow(x: Tensor, kernels: seq<Tensor>, biases: seq<real>, s: nat, outH: nat, outW: nat, m: Numerics,
                    act: CNNActivationType, zeros: Tensor, pre: Tensor, out: Tensor, oc: nat, oh: nat)
    returns (pre': Tensor, out': Tensor)
    requires ChannelFits(x, kernels, biases, s, outH, outW, oc)
    requires oc < pre.channels && oh < pre.height == outH && pre.width == outW && SameShape(out, pre)
    requires FilledUpTo(pre, zeros, PreFn(x, kernels, biases, s), oc, oh, 0)
    requires FilledUpTo(out, zeros, OutFn(x, kernels, biases, s, m, act), oc, oh, 0)
    ensures FilledUpTo(pre', zeros, PreFn(x, kernels, biases, s), oc, oh + 1, 0)
    ensures FilledUpTo(out', zeros, OutFn(x, kernels, biases, s, m, act), oc, oh + 1, 0)
  {
    MulLeLeft(oh, outH - 1, s);
    var sh := oh * s;
    pre', out' := pre, out;
    for ow := 0 to outW
      invariant FilledUpTo(pre', zeros, PreFn(x, kernels, biases, s), oc, oh, ow)
      invariant FilledUpTo(out', zeros, OutFn(x, kernels, biases, s, m, act), oc, oh, ow)
    {
      MulLeLeft(ow, outW - 1, s);
      pre', out' := ForwardCell(x, kernels, biases, s, m, act, zeros, pre', out', oc, oh, ow, sh, ow * s);
    }
    FillRow(pre', zeros, PreFn(x, kernels, biases, s), oc, oh);
    FillRow(out', zeros, OutFn(x, kernels, biases, s, m, act), oc, oh);
  }

  /** Output channel oc: every row of the plane in turn. */
  method ForwardChannel(x: Tensor, kernels: seq<Tensor>, biases: seq<real>, s: nat, outH: nat, outW: nat, m: Numerics,
                        act: CNNActivationType, zeros: Tensor, pre: Tensor, out: Tensor, oc: nat)
    returns (pre': Tensor, out': Tensor)
    requires ChannelFits(x, kernels, biases, s, outH, outW, oc)
    requires oc < pre.channels && pre.height == outH && pre.width == outW && SameShape(out, pre)
    requires FilledUpTo(pre, zeros, PreFn(x, kernels, biases, s), oc, 0, 0)
    requires FilledUpTo(out, zeros, OutFn(x, kernels, biases, s, m, act), oc, 0, 0)
    ensures FilledUpTo(pre', zeros, PreFn(x, kernels, biases, s), oc + 1, 0, 0)
    ensures FilledUpTo(out', zeros, OutFn(x, kernels, biases, s, m, act), oc + 1, 0, 0)
  {
    pre', out' := pre, out;
    for oh := 0 to outH
      invariant FilledUpTo(pre', zeros, PreFn(x, kernels, biases, s), oc, oh, 0)
      invariant FilledUpTo(out', zeros, OutFn(x, kernels, biases, s, m, act), oc, oh, 0)
    {
      pre', out' := ForwardRow(x, kernels, biases, s, outH, outW, m, act, zeros, pre', out', oc, oh);
    }
    FillChannel(pre', zeros, PreFn(x, kernels, biases, s), oc);
    FillChannel(out', zeros, OutFn(x, kernels, biases, s, m, act), oc);
  }

  /** The output loops of forward over the padded input x: preActivation(oc, oh, ow) is the
      bias plus the window's taps and the output is its activation. */
  method ForwardCells(x: Tensor, kernels: seq<Tensor>, biases: seq<real>, k: nat, s: nat,
                      outH: nat, outW: nat, m: Numerics, act: CNNActivationType)
    returns (pre: Tensor, out: Tensor)
    requires |biases| == |kernels| && KernelsShaped(kernels, x.channels, k)
    requires WindowCount(outH, x.height, k, s) && WindowCount(outW, x.width, k, s)
    ensures HasShape(pre, |kernels|, outH, outW) && HasShape(out, |kernels|, outH, outW)
    ensures forall oc: nat, oh: nat, ow: nat | InRange(pre, oc, oh, ow) ::
      Get(pre, oc, oh, ow) == PreActivation(x, kernels, biases, s, oc, oh, ow)
    ensures forall oc: nat, oh: nat, ow: nat | InRange(out, oc, oh, ow) ::
      Get(out, oc, oh, ow) == ConvActivate(m, Get(pre, oc, oh, ow), act)
  {
    var zeros := Zeros(|kernels|, outH, outW);
    pre, out := zeros, zeros;
    for oc := 0 to |kernels|
      invariant FilledUpTo(pre, zeros, PreFn(x, kernels, biases, s), oc, 0, 0)
      invariant FilledUpTo(out, zeros, OutFn(x, kernels, biases, s, m, act), oc, 0, 0)
    {
      assert HasShape(kernels[oc], x.channels, k, k);
      pre, out := ForwardChannel(x, kernels, biases, s, outH, outW, m, act, zeros, pre, out, oc);
    }
    FillComplete(pre, zeros, PreFn(x, kernels, biases, s));
    FillComplete(out, zeros, OutFn(x, kernels, biases, s, m, act));
  }

  /** With every kernel all zeros, the output loops of forward produce each output channel's
      bias alone, activated, at every cell: the window taps contribute nothing. */
  lemma ZeroKernelsForward(x: Tensor, kernels: seq<Tensor>, biases: seq<real>, s: nat, m: Numerics,
                           act: CNNActivationType, pre: Tensor, out: Tensor)
    requires |biases| == |kernels| && pre.channels == |kernels| && SameShape(out, pre)
    requires forall oc | 0 <= oc < |kernels| :: ZeroKernel(kernels[oc])
    requires forall oc: nat, oh: nat, ow: nat | InRange(pre, oc, oh, ow) ::
      Get(pre, oc, oh, ow) == PreActivation(x, kernels, biases, s, oc, oh, ow)
    requires forall oc: nat, oh: nat, ow: nat | InRange(out, oc, oh, ow) ::
      Get(out, oc, oh, ow) == ConvActivate(m, Get(pre, oc, oh, ow), act)
    ensures forall oc: nat, oh: nat, ow: nat | InRange(out, oc, oh, ow) ::
      Get(pre, oc, oh, ow) == biases[oc] && Get(out, oc, oh, ow) == ConvActivate(m, biases[oc], act)
  {
    forall oc: nat, oh: nat, ow: nat | InRange(out, oc, oh, ow)
      ensures Get(pre, oc, oh, ow) == biases[oc] && Get(out, oc, oh, ow) == ConvActivate(m, biases[oc], act)
    {
      assert InRange(pre, oc, oh, ow);
      ZeroKernelTaps(x, kernels[oc], oh * s, ow * s, kernels[oc].channels);
    }
  }

  // ------------------------------------------------------------------ backward: delta and bias

  /** delta(oc, oh, ow) = gradOutput(oc, oh, ow) * activateDerivative(preActivation(oc, oh, ow)). */
  function DeltaOf(g: Tensor, pre: Tensor, m: Numerics, act: CNNActivationType): (d: Tensor)
    requires SameShape(g, pre)
    ensures SameShape(d, g)
    ensures forall c: nat, h: nat, w: nat | InRange(d, c, h, w) ::
      Get(d, c, h, w) == Get(g, c, h, w) * ConvActivateDerivative(m, Get(pre, c, h, w), act)
  {
    TensorData(g.channels, g.height, g.width,
      seq(|g.data|, i requires 0 <= i < |g.data| => g.data[i] * ConvActivateDerivative(m, pre.data[i], act)))
  }

  /** With the identity activation the delta is the incoming gradient itself. */
  lemma {:induction false} IdentityDelta(g: Tensor, pre: Tensor, m: Numerics)
    requires SameShape(g, pre)
    ensures DeltaOf(g, pre, m, CNNActivationType.None) == g
  {
    var d := DeltaOf(g, pre, m, CNNActivationType.None);
    assert d.data == g.data;
  }

  /** The delta loop of backward. */
  method DeltaCells(g: Tensor, pre: Tensor, m: Numerics, act: CNNActivationType) returns (d: Tensor)
    requires SameShape(g, pre)
    ensures d == DeltaOf(g, pre, m, act)
  {
    var f := (c: nat, h: nat, w: nat) =>
      if InRange(g, c, h, w) then Get(g, c, h, w) * ConvActivateDerivative(m, Get(pre, c, h, w), act) else 0.0;
    d := Tabulate(Zeros(g.channels, g.height, g.width), f);
    Extensionality(d, DeltaOf(g, pre, m, act));
  }

  /** sum over ow < n of delta(oc, oh, ow). */
  function BiasRow(d: Tensor, oc: nat, oh: nat, n: nat): real
  {
    if n == 0 then 0.0 else BiasRow(d, oc, oh, n - 1) + CellOrZero(d, oc, oh, n - 1)
  }

  /** sum over oh < m, ow < W of delta(oc, oh, ow): the bias gradient of channel oc. */
  function BiasGradient(d: Tensor, oc: nat, m: nat): real
  {
    if m == 0 then 0.0 else BiasGradient(d, oc, m - 1) + BiasRow(d, oc, m - 1, d.width)
  }

  /** biasGradients_[oc] += delta(oc, oh, ow) over the output plane. */
  method BiasGradientCell(d: Tensor, oc: nat, init: real) returns (b: real)
    requires oc < d.channels
    ensures b == init + BiasGradient(d, oc, d.height)
  {
    b := init;
    for oh := 0 to d.height
      invariant b == init + BiasGradient(d, oc, oh)
    {
      for ow := 0 to d.width
        invariant b == init + BiasGradient(d, oc, oh) + BiasRow(d, oc, oh, ow)
      {
        b := b + Get(d, oc, oh, ow);
      }
    }
  }

  // ------------------------------------------------------------------ backward: kernel gradient

  /** sum over ow < n of delta(oc, oh, ow) * padded(ic, oh*s + kh, ow*s + kw). */
  function KernelGradRow(d: Tensor, x: Tensor, oc: nat, ic: nat, kh: nat, kw: nat, s: nat, oh: nat, n: nat): real
  {
    if n == 0 then 0.0
    else KernelGradRow(d, x, oc, ic, kh, kw, s, oh, n - 1) + CellOrZero(d, oc, oh, n - 1) * CellOrZero(x, ic, oh * s + kh, (n - 1) * s + kw)
  }

  /** The gradient of kernel oc at (ic, kh, kw), over output rows oh < m. */
  function KernelGradient(d: Tensor, x: Tensor, oc: nat, ic: nat, kh: nat, kw: nat, s: nat, m: nat): real
  {
    if m == 0 then 0.0
    else KernelGradient(d, x, oc, ic, kh, kw, s, m - 1) + KernelGradRow(d, x, oc, ic, kh, kw, s, m - 1, d.width)
  }

  lemma KernelGradRowStep(d: Tensor, x: Tensor, oc: nat, ic: nat, kh: nat, kw: nat, s: nat, oh: nat, ow: nat, a: real, b: real)
    requires InRange(d, oc, oh, ow) && InRange(x, ic, oh * s + kh, ow * s + kw)
    requires a == Get(d, oc, oh, ow) && b == Get(x, ic, oh * s + kh, ow * s + kw)
    ensures KernelGradRow(d, x, oc, ic, kh, kw, s, oh, ow + 1) == KernelGradRow(d, x, oc, ic, kh, kw, s, oh, ow) + a * b
  {
  }

  /** grad = sum over the output plane of delta(oc, oh, ow) * padded(ic, oh*s + kh, ow*s + kw). */
  method KernelGradCell(d: Tensor, x: Tensor, k: nat, oc: nat, ic: nat, kh: nat, kw: nat, s: nat) returns (grad: real)
    requires oc < d.channels && ic < x.channels && kh < k && kw < k
    requires WindowCount(d.height, x.height, k, s) && WindowCount(d.width, x.width, k, s)
    ensures grad == KernelGradient(d, x, oc, ic, kh, kw, s, d.height)
  {
    grad := 0.0;
    for oh := 0 to d.height
      invariant grad == KernelGradient(d, x, oc, ic, kh, kw, s, oh)
    {
      for ow := 0 to d.width
        invariant grad == KernelGradient(d, x, oc, ic, kh, kw, s, oh) + KernelGradRow(d, x, oc, ic, kh, kw, s, oh, ow)
      {
        TapsInside(oh, ow, kh, kw, d.height, d.width, x.height, x.width, k, s);
        var a, b := Get(d, oc, oh, ow), Get(x, ic, oh * s + kh, ow * s + kw);
        KernelGradRowStep(d, x, oc, ic, kh, kw, s, oh, ow, a, b);
        grad := grad + a * b;
      }
    }
  }

  /** Row kh of channel ic of kernelGradients_[oc]: each cell += its gradient. */
  method KernelGradRowCells(d: Tensor, x: Tensor, oc: nat, s: nat, init: Tensor, f: (nat, nat, nat) -> real,
                            kg: Tensor, ic: nat, kh: nat)
    returns (kg': Tensor)
    requires oc < d.channels && HasShape(init, x.channels, kg.height, kg.height) && ic < x.channels && kh < kg.height
    requires WindowCount(d.height, x.height, kg.height, s) && WindowCount(d.width, x.width, kg.height, s)
    requires FilledUpTo(kg, init, f, ic, kh, 0)
    requires forall kw: nat :: f(ic, kh, kw) == CellOrZero(init, ic, kh, kw) + KernelGradient(d, x, oc, ic, kh, kw, s, d.height)
    ensures FilledUpTo(kg', init, f, ic, kh, kg.width)
  {
    kg' := kg;
    for kw := 0 to kg.width
      invariant FilledUpTo(kg', init, f, ic, kh, kw)
    {
      var grad := KernelGradCell(d, x, kg.height, oc, ic, kh, kw, s);
      FillCell(kg', init, f, ic, kh, kw);
      kg' := Set(kg', ic, kh, kw, Get(kg', ic, kh, kw) + grad);
    }
  }

  /** The kernel-gradient loops of backward for output channel oc. */
  method KernelGradCells(d: Tensor, x: Tensor, oc: nat, s: nat, kg: Tensor) returns (kg': Tensor)
    requires oc < d.channels && kg.channels == x.channels && kg.width == kg.height
    requires WindowCount(d.height, x.height, kg.height, s) && WindowCount(d.width, x.width, kg.height, s)
    ensures SameShape(kg', kg)
    ensures forall ic: nat, kh: nat, kw: nat | InRange(kg', ic, kh, kw) ::
      Get(kg', ic, kh, kw) == Get(kg, ic, kh, kw) + KernelGradient(d, x, oc, ic, kh, kw, s, d.height)
  {
    var f := (ic: nat, kh: nat, kw: nat) => CellOrZero(kg, ic, kh, kw) + KernelGradient(d, x, oc, ic, kh, kw, s, d.height);
    kg' := kg;
    for ic := 0 to kg.channels
      invariant FilledUpTo(kg', kg, f, ic, 0, 0)
    {
      for kh := 0 to kg.height
        invariant FilledUpTo(kg', kg, f, ic, kh, 0)
      {
        kg' := KernelGradRowCells(d, x, oc, s, kg, f, kg', ic, kh);
        FillRow(kg', kg, f, ic, kh);
      }
      FillChannel(kg', kg, f, ic);
    }
    FillComplete(kg', kg, f);
  }

  // ------------------------------------------------------------------ backward: input gradient

  /** gradInput(c, ih, iw) += v where the unpadded position (ih, iw) lies inside the input;
      a tap on the padding border is dropped. */
  function AddTap(t: Tensor, c: nat, ih: int, iw: int, v: real): (r: Tensor)
    ensures SameShape(r, t)
  {
    if 0 <= ih && 0 <= iw && InRange(t, c, ih, iw) then Set(t, c, ih, iw, Get(t, c, ih, iw) + v) else t
  }

  /** The value delta(oc, oh, ow) * kernel(ic, kh, kw) that tap (ic, kh, kw) of output cell
      (oc, oh, ow) sends back. */
  function TapGrad(d: Tensor, kernel: Tensor, oc: nat, oh: nat, ow: nat, ic: nat, kh: nat, kw: nat): real
  {
    CellOrZero(d, oc, oh, ow) * CellOrZero(kernel, ic, kh, kw)
  }

  /** The taps kw < n of kernel row kh, channel ic, of output cell (oc, oh, ow). */
  function ScatterKW(gi: Tensor, d: Tensor, kernel: Tensor, oc: nat, oh: nat, ow: nat, ic: nat, kh: nat,
                     s: nat, p: nat, n: nat): (r: Tensor)
    ensures SameShape(r, gi)
  {
    if n == 0 then gi
    else AddTap(ScatterKW(gi, d, kernel, oc, oh, ow, ic, kh, s, p, n - 1), ic, oh * s + kh - p, ow * s + (n - 1) - p,
                TapGrad(d, kernel, oc, oh, ow, ic, kh, n - 1))
  }

  function ScatterKH(gi: Tensor, d: Tensor, kernel: Tensor, oc: nat, oh: nat, ow: nat, ic: nat,
                     s: nat, p: nat, m: nat): (r: Tensor)
    ensures SameShape(r, gi)
  {
    if m == 0 then gi
    else ScatterKW(ScatterKH(gi, d, kernel, oc, oh, ow, ic, s, p, m - 1), d, kernel, oc, oh, ow, ic, m - 1, s, p, kernel.width)
  }

  function ScatterIC(gi: Tensor, d: Tensor, kernel: Tensor, oc: nat, oh: nat, ow: nat, s: nat, p: nat, n: nat): (r: Tensor)
    ensures SameShape(r, gi)
  {
    if n == 0 then gi
    else ScatterKH(ScatterIC(gi, d, kernel, oc, oh, ow, s, p, n - 1), d, kernel, oc, oh, ow, n - 1, s, p, kernel.height)
  }

  function ScatterOW(gi: Tensor, d: Tensor, kernel: Tensor, oc: nat, oh: nat, s: nat, p: nat, n: nat): (r: Tensor)
    ensures SameShape(r, gi)
  {
    if n == 0 then gi
    else ScatterIC(ScatterOW(gi, d, kernel, oc, oh, s, p, n - 1), d, kernel, oc, oh, n - 1, s, p, kernel.channels)
  }

  /** Everything output channel oc sends back, over output rows oh < m. */
  function ScatterOH(gi: Tensor, d: Tensor, kernel: Tensor, oc: nat, s: nat, p: nat, m: nat): (r: Tensor)
    ensures SameShape(r, gi)
  {
    if m == 0 then gi
    else ScatterOW(ScatterOH(gi, d, kernel, oc, s, p, m - 1), d, kernel, oc, m - 1, s, p, d.width)
  }

  /** Everything output channels oc < n send back. */
  function ScatterAll(gi: Tensor, d: Tensor, kernels: seq<Tensor>, s: nat, p: nat, n: nat): (r: Tensor)
    requires n <= |kernels|
    ensures SameShape(r, gi)
  {
    if n == 0 then gi
    else ScatterOH(ScatterAll(gi, d, kernels, s, p, n - 1), d, kernels[n - 1], n - 1, s, p, d.height)
  }

  lemma ScatterKWStep(gi: Tensor, d: Tensor, kernel: Tensor, oc: nat, oh: nat, ow: nat, ic: nat, kh: nat,
                      s: nat, p: nat, kw: nat, ih: int, iw: int, v: real)
    requires ih == oh * s + kh - p && iw == ow * s + kw - p && v == TapGrad(d, kernel, oc, oh, ow, ic, kh, kw)
    ensures ScatterKW(gi, d, kernel, oc, oh, ow, ic, kh, s, p, kw + 1)
      == AddTap(ScatterKW(gi, d, kernel, oc, oh, ow, ic, kh, s, p, kw), ic, ih, iw, v)
  {
  }

  /** The innermost loop over kw for tap row (ic, kh) of output cell (oc, oh, ow). */
  method ScatterTaps(gi: Tensor, d: Tensor, kernel: Tensor, oc: nat, oh: nat, ow: nat, ic: nat, kh: nat, s: nat, p: nat)
    returns (r: Tensor)
    requires InRange(d, oc, oh, ow) && ic < kernel.channels && kh < kernel.height
    ensures r == ScatterKW(gi, d, kernel, oc, oh, ow, ic, kh, s, p, kernel.width)
  {
    r := gi;
    for kw := 0 to kernel.width
      invariant r == ScatterKW(gi, d, kernel, oc, oh, ow, ic, kh, s, p, kw)
    {
      var ih: int := oh * s + kh - p;
      var iw: int := ow * s + kw - p;
      var v := Get(d, oc, oh, ow) * Get(kernel, ic, kh, kw);
      ScatterKWStep(gi, d, kernel, oc, oh, ow, ic, kh, s, p, kw, ih, iw, v);
      if ih >= 0 && ih < r.height && iw >= 0 && iw < r.width && ic < r.channels {
        r := Set(r, ic, ih, iw, Get(r, ic, ih, iw) + v);
      }
    }
  }

  /** The loops over (ic, kh, kw) of one output cell (oc, oh, ow). */
  method ScatterCell(gi: Tensor, d: Tensor, kernel: Tensor, oc: nat, oh: nat, ow: nat, s: nat, p: nat) returns (r: Tensor)
    requires InRange(d, oc, oh, ow)
    ensures r == ScatterIC(gi, d, kernel, oc, oh, ow, s, p, kernel.channels)
  {
    r := gi;
    for ic := 0 to kernel.channels
      invariant r == ScatterIC(gi, d, kernel, oc, oh, ow, s, p, ic)
    {
      ghost var r0 := r;
      for kh := 0 to kernel.height
        invariant r == ScatterKH(r0, d, kernel, oc, oh, ow, ic, s, p, kh)
      {
        r := ScatterTaps(r, d, kernel, oc, oh, ow, ic, kh, s, p);
      }
    }
  }

  /** The input-gradient loops of backward for output channel oc: for (oh, ow, ic, kh, kw),
      gradInput(ic, oh*s + kh - p, ow*s + kw - p) += delta(oc, oh, ow) * kernel(ic, kh, kw)
      when that position is inside the input. */
  method ScatterChannel(gi: Tensor, d: Tensor, kernel: Tensor, oc: nat, s: nat, p: nat) returns (r: Tensor)
    requires oc < d.channels
    ensures r == ScatterOH(gi, d, kernel, oc, s, p, d.height)
  {
    r := gi;
    for oh := 0 to d.height
      invariant r == ScatterOH(gi, d, kernel, oc, s, p, oh)
    {
      ghost var r0 := r;
      for ow := 0 to d.width
        invariant r == ScatterOW(r0, d, kernel, oc, oh, s, p, ow)
      {
        r := ScatterCell(r, d, kernel, oc, oh, ow, s, p);
      }
    }
  }

  // ------------------------------------------------------------------ the input gradient as a gather

  /** What output cell (oc, oh, ow) contributes to input cell (c, h, w): the one tap of its
      window that lands there, if any, i.e. kh = h + p - oh*s and kw = w + p - ow*s. */
  function TransposedTap(d: Tensor, kernel: Tensor, oc: nat, oh: nat, ow: nat, c: nat, h: nat, w: nat, s: nat, p: nat): real
  {
    if oh * s <= h + p < oh * s + kernel.height && ow * s <= w + p < ow * s + kernel.width
    then TapGrad(d, kernel, oc, oh, ow, c, h + p - oh * s, w + p - ow * s)
    else 0.0
  }

  function GatherRow(d: Tensor, kernel: Tensor, oc: nat, oh: nat, c: nat, h: nat, w: nat, s: nat, p: nat, n: nat): real
  {
    if n == 0 then 0.0 else GatherRow(d, kernel, oc, oh, c, h, w, s, p, n - 1) + TransposedTap(d, kernel, oc, oh, n - 1, c, h, w, s, p)
  }

  function GatherPlane(d: Tensor, kernel: Tensor, oc: nat, c: nat, h: nat, w: nat, s: nat, p: nat, m: nat): real
  {
    if m == 0 then 0.0 else GatherPlane(d, kernel, oc, c, h, w, s, p, m - 1) + GatherRow(d, kernel, oc, m - 1, c, h, w, s, p, d.width)
  }

  /** The transposed convolution: input-gradient cell (c, h, w) collects, from every output
      cell of channels oc < n, the delta times the kernel weight that read (c, h, w). */
  function InputGradient(d: Tensor, kernels: seq<Tensor>, c: nat, h: nat, w: nat, s: nat, p: nat, n: nat): real
    requires n <= |kernels|
  {
    if n == 0 then 0.0 else InputGradient(d, kernels, c, h, w, s, p, n - 1) + GatherPlane(d, kernels[n - 1], n - 1, c, h, w, s, p, d.height)
  }

  lemma AddTapCell(t: Tensor, c': nat, ih: int, iw: int, v: real, c: nat, h: nat, w: nat)
    requires InRange(t, c, h, w)
    ensures Get(AddTap(t, c', ih, iw, v), c, h, w) == Get(t, c, h, w) + if c' == c && ih == h && iw == w then v else 0.0
  {
  }

  lemma {:induction false} ScatterKWCell(gi: Tensor, d: Tensor, kernel: Tensor, oc: nat, oh: nat, ow: nat, ic: nat, kh: nat,
                                         s: nat, p: nat, n: nat, c: nat, h: nat, w: nat)
    requires InRange(gi, c, h, w)
    ensures Get(ScatterKW(gi, d, kernel, oc, oh, ow, ic, kh, s, p, n), c, h, w) == Get(gi, c, h, w)
      + if c == ic && oh * s + kh == h + p && ow * s <= w + p < ow * s + n
        then TapGrad(d, kernel, oc, oh, ow, ic, kh, w + p - ow * s) else 0.0
  {
    if n > 0 {
      ScatterKWCell(gi, d, kernel, oc, oh, ow, ic, kh, s, p, n - 1, c, h, w);
      AddTapCell(ScatterKW(gi, d, kernel, oc, oh, ow, ic, kh, s, p, n - 1), ic, oh * s + kh - p, ow * s + (n - 1) - p,
                 TapGrad(d, kernel, oc, oh, ow, ic, kh, n - 1), c, h, w);
    }
  }

  lemma {:induction false} ScatterKHCell(gi: Tensor, d: Tensor, kernel: Tensor, oc: nat, oh: nat, ow: nat, ic: nat,
                                         s: nat, p: nat, m: nat, c: nat, h: nat, w: nat)
    requires InRange(gi, c, h, w)
    ensures Get(ScatterKH(gi, d, kernel, oc, oh, ow, ic, s, p, m), c, h, w) == Get(gi, c, h, w)
      + if c == ic && oh * s <= h + p < oh * s + m && ow * s <= w + p < ow * s + kernel.width
        then TapGrad(d, kernel, oc, oh, ow, ic, h + p - oh * s, w + p - ow * s) else 0.0
  {
    if m > 0 {
      ScatterKHCell(gi, d, kernel, oc, oh, ow, ic, s, p, m - 1, c, h, w);
      ScatterKWCell(ScatterKH(gi, d, kernel, oc, oh, ow, ic, s, p, m - 1), d, kernel, oc, oh, ow, ic, m - 1, s, p, kernel.width, c, h, w);
    }
  }

  lemma {:induction false} ScatterICCell(gi: Tensor, d: Tensor, kernel: Tensor, oc: nat, oh: nat, ow: nat,
                                         s: nat, p: nat, n: nat, c: nat, h: nat, w: nat)
    requires InRange(gi, c, h, w)
    ensures Get(ScatterIC(gi, d, kernel, oc, oh, ow, s, p, n), c, h, w) == Get(gi, c, h, w)
      + if c < n then TransposedTap(d, kernel, oc, oh, ow, c, h, w, s, p) else 0.0
  {
    if n > 0 {
      ScatterICCell(gi, d, kernel, oc, oh, ow, s, p, n - 1, c, h, w);
      ScatterKHCell(ScatterIC(gi, d, kernel, oc, oh, ow, s, p, n - 1), d, kernel, oc, oh, ow, n - 1, s, p, kernel.height, c, h, w);
    }
  }

  lemma {:induction false} ScatterOWCell(gi: Tensor, d: Tensor, kernel: Tensor, oc: nat, oh: nat,
                                         s: nat, p: nat, n: nat, c: nat, h: nat, w: nat)
    requires InRange(gi, c, h, w)
    ensures Get(ScatterOW(gi, d, kernel, oc, oh, s, p, n), c, h, w) == Get(gi, c, h, w) + GatherRow(d, kernel, oc, oh, c, h, w, s, p, n)
  {
    if n > 0 {
      ScatterOWCell(gi, d, kernel, oc, oh, s, p, n - 1, c, h, w);
      ScatterICCell(ScatterOW(gi, d, kernel, oc, oh, s, p, n - 1), d, kernel, oc, oh, n - 1, s, p, kernel.channels, c, h, w);
      if c >= kernel.channels {
        assert TransposedTap(d, kernel, oc, oh, n - 1, c, h, w, s, p) == 0.0;
      }
    }
  }

  lemma {:induction false} ScatterOHCell(gi: Tensor, d: Tensor, kernel: Tensor, oc: nat,
                                         s: nat, p: nat, m: nat, c: nat, h: nat, w: nat)
    requires InRange(gi, c, h, w)
    ensures Get(ScatterOH(gi, d, kernel, oc, s, p, m), c, h, w) == Get(gi, c, h, w) + GatherPlane(d, kernel, oc, c, h, w, s, p, m)
  {
    if m > 0 {
      ScatterOHCell(gi, d, kernel, oc, s, p, m - 1, c, h, w);
      ScatterOWCell(ScatterOH(gi, d, kernel, oc, s, p, m - 1), d, kernel, oc, m - 1, s, p, d.width, c, h, w);
    }
  }

  /** The scatter loops of backward compute the transposed convolution: every input cell ends
      up with the sum over all output cells of delta times the weight that read it, and taps
      on the padding border reach no cell. */
  lemma {:induction false} ScatterIsGather(gi: Tensor, d: Tensor, kernels: seq<Tensor>, s: nat, p: nat, n: nat, c: nat, h: nat, w: nat)
    requires n <= |kernels| && InRange(gi, c, h, w)
    ensures Get(ScatterAll(gi, d, kernels, s, p, n), c, h, w) == Get(gi, c, h, w) + InputGradient(d, kernels, c, h, w, s, p, n)
  {
    if n > 0 {
      ScatterIsGather(gi, d, kernels, s, p, n - 1, c, h, w);
      ScatterOHCell(ScatterAll(gi, d, kernels, s, p, n - 1), d, kernels[n - 1], n - 1, s, p, d.height, c, h, w);
    }
  }

  // ------------------------------------------------------------------ backward: all output channels

  /** Every cell of every tensor is 0. */
  predicate AllZero(ts: seq<Tensor>)
  {
    forall o, i | 0 <= o < |ts| && 0 <= i < |ts[o].data| :: ts[o].data[i] == 0.0
  }

  /** The output-channel loop of backward, from zeroed accumulators: the bias and kernel
      gradients of each channel and its share of the input gradient. */
  method BackwardChannels(d: Tensor, x: Tensor, kernels: seq<Tensor>, k: nat, s: nat, p: nat,
                          kgs: seq<Tensor>, gi: Tensor)
    returns (kgs': seq<Tensor>, bgs': seq<real>, gi': Tensor)
    requires |kernels| == d.channels && |kgs| == d.channels
    requires KernelsShaped(kgs, x.channels, k) && AllZero(kgs)
    requires WindowCount(d.height, x.height, k, s) && WindowCount(d.width, x.width, k, s)
    ensures |kgs'| == |kgs| && KernelsShaped(kgs', x.channels, k) && |bgs'| == d.channels
    ensures forall oc | 0 <= oc < d.channels :: bgs'[oc] == BiasGradient(d, oc, d.height)
    ensures forall oc: nat, ic: nat, kh: nat, kw: nat | oc < |kgs'| && InRange(kgs'[oc], ic, kh, kw) ::
      Get(kgs'[oc], ic, kh, kw) == KernelGradient(d, x, oc, ic, kh, kw, s, d.height)
    ensures gi' == ScatterAll(gi, d, kernels, s, p, d.channels)
  {
    kgs', bgs', gi' := kgs, seq(d.channels, _ => 0.0), gi;
    for oc := 0 to d.channels
      invariant |kgs'| == |kgs| && KernelsShaped(kgs', x.channels, k) && |bgs'| == d.channels
      invariant forall o | 0 <= o < oc :: bgs'[o] == BiasGradient(d, o, d.height)
      invariant forall o | oc <= o < d.channels :: bgs'[o] == 0.0
      invariant forall o: nat, ic: nat, kh: nat, kw: nat | o < oc && InRange(kgs'[o], ic, kh, kw) ::
        Get(kgs'[o], ic, kh, kw) == KernelGradient(d, x, o, ic, kh, kw, s, d.height)
      invariant forall o | oc <= o < d.channels :: kgs'[o] == kgs[o]
      invariant gi' == ScatterAll(gi, d, kernels, s, p, oc)
    {
      var b := BiasGradientCell(d, oc, bgs'[oc]);
      bgs' := bgs'[oc := b];
      var kg := KernelGradCells(d, x, oc, s, kgs'[oc]);
      kgs' := kgs'[oc := kg];
      gi' := ScatterChannel(gi', d, kernels[oc], oc, s, p);
    }
  }

  // ------------------------------------------------------------------ update

  /** kernel - learningRate * grad, cell by cell. */
  function Stepped(kernel: Tensor, grad: Tensor, learningRate: real): (r: Tensor)
    requires SameShape(kernel, grad)
    ensures SameShape(r, kernel)
    ensures forall c: nat, h: nat, w: nat | InRange(r, c, h, w) ::
      Get(r, c, h, w) == Get(kernel, c, h, w) - learningRate * Get(grad, c, h, w)
  {
    TensorData(kernel.channels, kernel.height, kernel.width,
      seq(|kernel.data|, i requires 0 <= i < |kernel.data| => kernel.data[i] - learningRate * grad.data[i]))
  }

  /** A zero learning rate changes nothing. */
  lemma {:induction false} SteppedByZero(kernel: Tensor, grad: Tensor)
    requires SameShape(kernel, grad)
    ensures Stepped(kernel, grad, 0.0) == kernel
  {
    assert Stepped(kernel, grad, 0.0).data == kernel.data;
  }

  /** The loops over (ic, kh, kw) of updateWeights for one kernel:
      kernel(ic, kh, kw) -= learningRate * kernelGradient(ic, kh, kw). */
  method UpdateKernel(kernel: Tensor, grad: Tensor, learningRate: real) returns (r: Tensor)
    requires SameShape(kernel, grad)
    ensures r == Stepped(kernel, grad, learningRate)
  {
    var f := (c: nat, h: nat, w: nat) => CellOrZero(kernel, c, h, w) - learningRate * CellOrZero(grad, c, h, w);
    r := Tabulate(kernel, f);
    Extensionality(r, Stepped(kernel, grad, learningRate));
  }

  /** updateWeights: every kernel and bias takes a step against its gradient. */
  method UpdateParameters(kernels: seq<Tensor>, biases: seq<real>, kgs: seq<Tensor>, bgs: seq<real>, learningRate: real)
    returns (kernels': seq<Tensor>, biases': seq<real>)
    requires |kgs| == |kernels| && |biases| == |kernels| && |bgs| == |kernels|
    requires forall oc | 0 <= oc < |kernels| :: SameShape(kernels[oc], kgs[oc])
    ensures |kernels'| == |kernels| && |biases'| == |biases|
    ensures forall oc | 0 <= oc < |kernels| :: kernels'[oc] == Stepped(kernels[oc], kgs[oc], learningRate)
    ensures forall oc | 0 <= oc < |biases| :: biases'[oc] == biases[oc] - learningRate * bgs[oc]
  {
    kernels', biases' := kernels, biases;
    for oc := 0 to |kernels|
      invariant |kernels'| == |kernels| && |biases'| == |biases|
      invariant forall o | 0 <= o < oc :: kernels'[o] == Stepped(kernels[o], kgs[o], learningRate)
      invariant forall o | 0 <= o < oc :: biases'[o] == biases[o] - learningRate * bgs[o]
      invariant forall o | oc <= o < |kernels| :: kernels'[o] == kernels[o] && biases'[o] == biases[o]
    {
      var kernel := UpdateKernel(kernels'[oc], kgs[oc], learningRate);
      kernels' := kernels'[oc := kernel];
      biases' := biases'[oc := biases'[oc] - learningRate * bgs[oc]];
    }
  }

  /** With learning rate 0 the update leaves every kernel and bias as it was. */
  lemma {:induction false} ZeroRateUpdate(kernels: seq<Tensor>, biases: seq<real>, kgs: seq<Tensor>, bgs: seq<real>,
                                          kernels': seq<Tensor>, biases': seq<real>)
    requires |kgs| == |kernels| && |biases| == |kernels| && |bgs| == |kernels|
    requires forall oc | 0 <= oc < |kernels| :: SameShape(kernels[oc], kgs[oc])
    requires |kernels'| == |kernels| && |biases'| == |biases|
    requires forall oc | 0 <= oc < |kernels| :: kernels'[oc] == Stepped(kernels[oc], kgs[oc], 0.0)
    requires forall oc | 0 <= oc < |biases| :: biases'[oc] == biases[oc] - 0.0 * bgs[oc]
    ensures kernels' == kernels && biases' == biases
  {
    forall oc | 0 <= oc < |kernels| ensures kernels'[oc] == kernels[oc] {
      SteppedByZero(kernels[oc], kgs[oc]);
    }
  }

  // ------------------------------------------------------------------ parameters

  /** ReLU and LeakyReLU layers draw their kernels with He scaling, the others with Xavier's. */
  predicate UsesHeInit(act: CNNActivationType)
  {
    act == CNNActivationType.ReLU || act == CNNActivationType.LeakyReLU
  }

  /** initializeWeights: one (inC, k, k) kernel per output channel, filled by the generator
      (a parameter here: draw(oc)(i) is the i-th value drawn for kernel oc); the first
      initializer that refuses a zero fan ends construction. */
  method InitializeKernels(inC: nat, k: nat, outC: nat, act: CNNActivationType, draw: nat -> nat -> real)
    returns (r: Result<seq<Tensor>>)
    requires k > 0
    ensures r.Err? <==> outC > 0 && inC == 0
    ensures r.Err? && UsesHeInit(act) ==> r.error == InvalidArgument("He initialization: fanIn must be greater than 0")
    ensures r.Err? && !UsesHeInit(act) ==>
      r.error == InvalidArgument("Xavier initialization: fanIn and fanOut must be greater than 0")
    ensures r.Ok? ==> |r.value| == outC && KernelsShaped(r.value, inC, k)
    ensures r.Ok? ==> forall oc, i | 0 <= oc < outC && 0 <= i < |r.value[oc].data| :: r.value[oc].data[i] == draw(oc)(i)
  {
    var fanIn := inC * k * k;
    var fanOut := outC * k * k;
    ProductPositive(outC, k, k);
    ProductPositive(inC, k, k);
    var kernels: seq<Tensor> := [];
    for oc := 0 to outC
      invariant |kernels| == oc && KernelsShaped(kernels, inC, k)
      invariant oc > 0 ==> inC > 0
      invariant forall o, i | 0 <= o < oc && 0 <= i < |kernels[o].data| :: kernels[o].data[i] == draw(o)(i)
    {
      var kernel := Zeros(inC, k, k);
      var init := if UsesHeInit(act) then HeInit(kernel, fanIn, draw(oc)) else XavierInit(kernel, fanIn, fanOut, draw(oc));
      if init.Err? {
        return Err(init.error);
      }
      kernels := kernels + [init.value];
    }
    r := Ok(kernels);
  }

  /** The number of stored cells over a list of tensors. */
  function CellCount(ts: seq<Tensor>): nat
  {
    if ts == [] then 0 else CellCount(ts[..|ts| - 1]) + |ts[|ts| - 1].data|
  }

  /** parameterCount's closed form counts exactly the stored kernel cells and biases. */
  lemma {:induction false} KernelCellCount(kernels: seq<Tensor>, inC: nat, k: nat)
    requires KernelsShaped(kernels, inC, k)
    ensures CellCount(kernels) == |kernels| * (inC * k * k)
  {
    if kernels != [] {
      var init := kernels[..|kernels| - 1];
      assert KernelsShaped(init, inC, k);
      KernelCellCount(init, inC, k);
      assert |kernels| * (inC * k * k) == |init| * (inC * k * k) + inC * k * k;
    }
  }

  /** for (auto& kg : kernelGradients_) kg.zero(): shapes kept, every cell 0. */
  method ZeroAll(ts: seq<Tensor>) returns (r: seq<Tensor>)
    ensures |r| == |ts| && AllZero(r)
    ensures forall o | 0 <= o < |ts| :: SameShape(r[o], ts[o])
  {
    r := ts;
    for o := 0 to |ts|
      invariant |r| == |ts| && forall o' | 0 <= o' < |ts| :: SameShape(r[o'], ts[o'])
      invariant forall o', i | 0 <= o' < o && 0 <= i < |r[o'].data| :: r[o'].data[i] == 0.0
    {
      var z := Zero(r[o]);
      r := r[o := z];
    }
  }

  /** The body of ConvolutionalLayer::backward once the shape is checked: zero the kernel
      gradients and the input gradient, form delta, pad the cached input, run every output
      channel, and read the scattered input gradient as a transposed convolution. */
  method BackwardPass(g: Tensor, pre: Tensor, m: Numerics, act: CNNActivationType, input: Tensor,
                      kernels: seq<Tensor>, kgs: seq<Tensor>, k: nat, s: nat, p: nat)
    returns (kgs': seq<Tensor>, bgs': seq<real>, gi: Tensor)
    requires SameShape(g, pre) && |kernels| == g.channels && |kgs| == g.channels
    requires KernelsShaped(kgs, input.channels, k)
    requires WindowCount(g.height, input.height + 2 * p, k, s) && WindowCount(g.width, input.width + 2 * p, k, s)
    ensures |kgs'| == |kgs| && KernelsShaped(kgs', input.channels, k) && |bgs'| == g.channels
    ensures SameShape(gi, input)
    ensures var d := DeltaOf(g, pre, m, act);
      forall oc | 0 <= oc < g.channels :: bgs'[oc] == BiasGradient(d, oc, g.height)
    ensures var d := DeltaOf(g, pre, m, act);
      forall oc: nat, ic: nat, kh: nat, kw: nat | oc < |kgs'| && InRange(kgs'[oc], ic, kh, kw) ::
        Get(kgs'[oc], ic, kh, kw) == KernelGradient(d, Padded(input, p), oc, ic, kh, kw, s, g.height)
    ensures var d := DeltaOf(g, pre, m, act);
      forall c: nat, h: nat, w: nat | InRange(gi, c, h, w) ::
        Get(gi, c, h, w) == InputGradient(d, kernels, c, h, w, s, p, g.channels)
  {
    var zeroed := ZeroAll(kgs);
    var gradInput := Zeros(input.channels, input.height, input.width);
    var delta := DeltaCells(g, pre, m, act);
    var padded := input;
    if p > 0 {
      padded := Pad(input, p, p, 0.0);
      PadIsPadded(input, p, padded);
    } else {
      PadIsPadded(input, 0, Padded(input, 0));
    }
    kgs', bgs', gi := BackwardChannels(delta, padded, kernels, k, s, p, zeroed, gradInput);
    forall c: nat, h: nat, w: nat | InRange(gi, c, h, w)
      ensures Get(gi, c, h, w) == InputGradient(delta, kernels, c, h, w, s, p, g.channels)
    {
      ScatterIsGather(gradInput, delta, kernels, s, p, g.channels, c, h, w);
    }
  }

  // ------------------------------------------------------------------ the layer

  class ConvLayer {
    const inputChannels: nat
    const inputHeight: nat
    const inputWidth: nat
    const outputChannels: nat
    const kernelSize: nat
    const stride: nat
    const padding: nat
    const activation: CNNActivationType
    /** The library's exp and tanh, used by the sigmoid and tanh activations. */
    const numerics: Numerics
    const outputHeight: nat
    const outputWidth: nat
    var kernels: seq<Tensor>
    var biases: seq<real>
    var kernelGradients: seq<Tensor>
    var biasGradients: seq<real>
    var preActivation: Tensor
    var lastOutput: Tensor
    var lastInput: Tensor

    /** The sizes passed the constructor's checks and produced the output size. */
    predicate Config()
    {
      ConvConfig(inputHeight, inputWidth, kernelSize, stride, padding) == Ok((outputHeight, outputWidth))
    }

    /** The shapes initializeWeights establishes and every member keeps. */
    predicate Valid()
      reads this
    {
      Config()
      && |kernels| == outputChannels && |biases| == outputChannels
      && |kernelGradients| == outputChannels && |biasGradients| == outputChannels
      && KernelsShaped(kernels, inputChannels, kernelSize) && KernelsShaped(kernelGradients, inputChannels, kernelSize)
      && HasShape(preActivation, outputChannels, outputHeight, outputWidth)
    }

    constructor(inC: nat, inH: nat, inW: nat, outC: nat, k: nat, s: nat, p: nat, act: CNNActivationType,
                m: Numerics, initial: seq<Tensor>)
      requires ConvConfig(inH, inW, k, s, p).Ok?
      requires |initial| == outC && KernelsShaped(initial, inC, k)
      ensures inputChannels == inC && inputHeight == inH && inputWidth == inW && outputChannels == outC
      ensures kernelSize == k && stride == s && padding == p && activation == act && numerics == m
      ensures Valid()
      ensures kernels == initial && biases == seq(outC, _ => 0.0) && biasGradients == seq(outC, _ => 0.0)
      ensures kernelGradients == seq(outC, _ => Zeros(inC, k, k))
      ensures preActivation == Zeros(outC, outputHeight, outputWidth) && lastOutput == preActivation
      ensures lastInput == DefaultTensor()
    {
      var size := ConvConfig(inH, inW, k, s, p).value;
      inputChannels, inputHeight, inputWidth, outputChannels := inC, inH, inW, outC;
      kernelSize, stride, padding, activation, numerics := k, s, p, act, m;
      outputHeight, outputWidth := size.0, size.1;
      kernels := initial;
      biases := seq(outC, _ => 0.0);
      kernelGradients := seq(outC, _ => Zeros(inC, k, k));
      biasGradients := seq(outC, _ => 0.0);
      preActivation := Zeros(outC, size.0, size.1);
      lastOutput := preActivation;
      lastInput := DefaultTensor();
    }

    /** ConvolutionalLayer(...): the size checks, then initializeWeights with the generator's
        draws; the first failure is the error. */
    static method Create(inC: nat, inH: nat, inW: nat, outC: nat, k: nat, s: nat, p: nat, act: CNNActivationType,
                         m: Numerics, draw: nat -> nat -> real)
      returns (r: Result<ConvLayer>)
      ensures r.Err? <==> ConvConfig(inH, inW, k, s, p).Err? || (outC > 0 && inC == 0)
      ensures ConvConfig(inH, inW, k, s, p).Err? ==> r == Err(ConvConfig(inH, inW, k, s, p).error)
      ensures ConvConfig(inH, inW, k, s, p).Ok? && outC > 0 && inC == 0 ==>
        r.Err? && r.error == if UsesHeInit(act) then InvalidArgument("He initialization: fanIn must be greater than 0")
          else InvalidArgument("Xavier initialization: fanIn and fanOut must be greater than 0")
      ensures r.Ok? ==> fresh(r.value) && r.value.Valid()
      ensures r.Ok? ==> r.value.inputChannels == inC && r.value.inputHeight == inH && r.value.inputWidth == inW
      ensures r.Ok? ==> r.value.outputChannels == outC && r.value.kernelSize == k && r.value.stride == s
      ensures r.Ok? ==> r.value.padding == p && r.value.activation == act && r.value.numerics == m
      ensures r.Ok? ==> forall oc, i | 0 <= oc < outC && 0 <= i < |r.value.kernels[oc].data| ::
        r.value.kernels[oc].data[i] == draw(oc)(i)
    {
      var size := ConvConfig(inH, inW, k, s, p);
      if size.Err? {
        return Err(size.error);
      }
      var initial := InitializeKernels(inC, k, outC, act, draw);
      if initial.Err? {
        return Err(initial.error);
      }
      var layer := new ConvLayer(inC, inH, inW, outC, k, s, p, act, m, initial.value);
      r := Ok(layer);
    }

    function Type(): (t: CNNLayerType)
      ensures t == CNNLayerType.Convolutional
    {
      CNNLayerType.Convolutional
    }

    function HasTrainableParams(): (b: bool)
      ensures b
    {
      true
    }

    /** parameterCount() = outC * (inC * k * k + 1): one weight per stored kernel cell and one
        bias per output channel. */
    function ParameterCount(): (n: nat)
      requires Valid()
      reads this
      ensures n == CellCount(kernels) + |biases|
    {
      KernelCellCount(kernels, inputChannels, kernelSize);
      outputChannels * (inputChannels * kernelSize * kernelSize + 1)
    }

    /** getKernel(i): out_of_range for a channel the layer does not have. */
    function GetKernel(outputChannel: nat): (r: Result<Tensor>)
      requires Valid()
      reads this
      ensures r.Err? <==> outputChannel >= outputChannels
      ensures r.Err? ==> r.error == OutOfRange("Kernel index out of range")
      ensures r.Ok? ==> r.value == kernels[outputChannel] && HasShape(r.value, inputChannels, kernelSize, kernelSize)
    {
      if outputChannel >= outputChannels then Err(OutOfRange("Kernel index out of range"))
      else Ok(kernels[outputChannel])
    }

    /** forward(input): invalid_argument on a shape mismatch; otherwise every pre-activation is
        the bias plus the window's taps over the zero-padded input, and the output is its
        activation. */
    method Forward(input: Tensor) returns (r: Result<Tensor>)
      requires Valid()
      modifies this
      ensures Valid()
      ensures kernels == old(kernels) && biases == old(biases)
      ensures kernelGradients == old(kernelGradients) && biasGradients == old(biasGradients)
      ensures r.Err? <==> !HasShape(input, inputChannels, inputHeight, inputWidth)
      ensures r.Err? ==> r.error == InvalidArgument("ConvolutionalLayer: input shape mismatch")
      ensures r.Err? ==> unchanged(this)
      ensures r.Ok? ==> lastInput == input && lastOutput == r.value
      ensures r.Ok? ==> HasShape(r.value, outputChannels, outputHeight, outputWidth)
      ensures r.Ok? ==> forall oc: nat, oh: nat, ow: nat | InRange(preActivation, oc, oh, ow) ::
        Get(preActivation, oc, oh, ow)
          == PreActivation(Padded(input, padding), kernels, biases, stride, oc, oh, ow)
      ensures r.Ok? ==> forall oc: nat, oh: nat, ow: nat | InRange(r.value, oc, oh, ow) ::
        Get(r.value, oc, oh, ow) == ConvActivate(numerics, Get(preActivation, oc, oh, ow), activation)
    {
      if !HasShape(input, inputChannels, inputHeight, inputWidth) {
        return Err(InvalidArgument("ConvolutionalLayer: input shape mismatch"));
      }
      lastInput := input;
      var padded := input;
      if padding > 0 {
        padded := Pad(input, padding, padding, 0.0);
        PadIsPadded(input, padding, padded);
      } else {
        PadIsPadded(input, 0, Padded(input, 0));
      }
      var pre, out := ForwardCells(padded, kernels, biases, kernelSize, stride, outputHeight, outputWidth, numerics, activation);
      preActivation := pre;
      lastOutput := out;
      r := Ok(out);
    }

    /** backward(gradOutput): invalid_argument on a shape mismatch; otherwise the gradients are
        recomputed from zero: delta = gradOutput * activation'(preActivation), the bias
        gradient sums delta over the plane, the kernel gradient correlates delta with the
        padded input, and the returned input gradient is the transposed convolution of delta
        with the kernels, restricted to the unpadded input. It reads the input cached by the
        last forward. */
    method Backward(gradOutput: Tensor) returns (r: Result<Tensor>)
      requires Valid() && HasShape(lastInput, inputChannels, inputHeight, inputWidth)
      modifies this
      ensures Valid()
      ensures kernels == old(kernels) && biases == old(biases) && preActivation == old(preActivation)
      ensures lastInput == old(lastInput) && lastOutput == old(lastOutput)
      ensures r.Err? <==> !HasShape(gradOutput, outputChannels, outputHeight, outputWidth)
      ensures r.Err? ==> r.error == InvalidArgument("ConvolutionalLayer: gradOutput shape mismatch")
      ensures r.Err? ==> unchanged(this)
      ensures r.Ok? ==> HasShape(r.value, inputChannels, inputHeight, inputWidth)
      ensures r.Ok? ==> var d := DeltaOf(gradOutput, preActivation, numerics, activation);
        forall oc | 0 <= oc < outputChannels :: biasGradients[oc] == BiasGradient(d, oc, outputHeight)
      ensures r.Ok? ==> var d := DeltaOf(gradOutput, preActivation, numerics, activation);
        forall oc: nat, ic: nat, kh: nat, kw: nat | oc < outputChannels && InRange(kernelGradients[oc], ic, kh, kw) ::
          Get(kernelGradients[oc], ic, kh, kw) == KernelGradient(d, Padded(lastInput, padding), oc, ic, kh, kw, stride, outputHeight)
      ensures r.Ok? ==> var d := DeltaOf(gradOutput, preActivation, numerics, activation);
        forall c: nat, h: nat, w: nat | InRange(r.value, c, h, w) ::
          Get(r.value, c, h, w) == InputGradient(d, kernels, c, h, w, stride, padding, outputChannels)
    {
      if !HasShape(gradOutput, outputChannels, outputHeight, outputWidth) {
        return Err(InvalidArgument("ConvolutionalLayer: gradOutput shape mismatch"));
      }
      var kgs, bgs, gi := BackwardPass(gradOutput, preActivation, numerics, activation, lastInput, kernels,
                                       kernelGradients, kernelSize, stride, padding);
      kernelGradients, biasGradients := kgs, bgs;
      r := Ok(gi);
    }

    /** updateWeights(lr): kernel -= lr * kernelGradient and bias -= lr * biasGradient for every
        output channel; a zero rate changes nothing. */
    method UpdateWeights(learningRate: real)
      requires Valid()
      modifies this
      ensures Valid()
      ensures kernelGradients == old(kernelGradients) && biasGradients == old(biasGradients)
      ensures preActivation == old(preActivation) && lastInput == old(lastInput) && lastOutput == old(lastOutput)
      ensures forall oc | 0 <= oc < outputChannels ::
        kernels[oc] == Stepped(old(kernels[oc]), kernelGradients[oc], learningRate)
      ensures forall oc | 0 <= oc < outputChannels :: biases[oc] == old(biases[oc]) - learningRate * biasGradients[oc]
      ensures learningRate == 0.0 ==> kernels == old(kernels) && biases == old(biases)
    {
      var ks, bs := UpdateParameters(kernels, biases, kernelGradients, biasGradients, learningRate);
      if learningRate == 0.0 {
        ZeroRateUpdate(kernels, biases, kernelGradients, biasGradients, ks, bs);
      }
      kernels, biases := ks, bs;
    }
  }
}
