/**
 * The flatten layer (include/cnn/flatten_layer.h, src/cnn/flatten_layer.cpp):
 * a reshape of a (C, H, W) tensor into a (1, 1, C*H*W) row and back. Both
 * directions walk the cells in (c, h, w) order with a running position, which
 * is the channel-major flat index, so the buffer itself never moves.
 */
module FlattenLayers {
  import opened IndexArith
  import opened Errors
  import opened Tensors
  import LayerTypes

  /** t's buffer viewed under another shape with the same number of cells. */
  function Reshape(t: Tensor, channels: nat, height: nat, width: nat): (r: Tensor)
    requires |t.data| == channels * height * width
    ensures HasShape(r, channels, height, width) && Flatten(r) == Flatten(t)
  {
    TensorData(channels, height, width, t.data)
  }

  /** Row position c*H*W + h*W + w of the flattened tensor holds input(c, h, w). */
  lemma {:induction false} ReshapeCell(t: Tensor, c: nat, h: nat, w: nat)
    requires InRange(t, c, h, w)
    ensures var row := Reshape(t, 1, 1, |t.data|);
      InRange(row, 0, 0, FlatIndex(t, c, h, w)) && Get(row, 0, 0, FlatIndex(t, c, h, w)) == Get(t, c, h, w)
  {
    var k := FlatIndex(t, c, h, w);
    assert FlatIndex(Reshape(t, 1, 1, |t.data|), 0, 0, k) == k;
  }

  /** Reshaping out and back is the identity in both directions. */
  lemma {:induction false} ReshapeRoundTrip(t: Tensor, row: Tensor)
    requires |row.data| == |t.data| && HasShape(row, 1, 1, |t.data|)
    ensures Reshape(Reshape(t, 1, 1, |t.data|), t.channels, t.height, t.width) == t
    ensures Reshape(Reshape(row, t.channels, t.height, t.width), 1, 1, |t.data|) == row
  {
  }

  /** The position invariant of the (c, h, w) scan: the counter is the flat index of the
      next cell, and everything before it has been copied. */
  predicate CopiedUpTo(src: seq<real>, dst: seq<real>, idx: nat)
  {
    |dst| == |src| && idx <= |src| && forall k | 0 <= k < |dst| :: dst[k] == if k < idx then src[k] else 0.0
  }

  /** The loops of FlattenLayer::forward: output(0, 0, idx++) = input(c, h, w). */
  method FlattenCells(input: Tensor) returns (output: Tensor)
    ensures output == Reshape(input, 1, 1, |input.data|)
  {
    var n := input.channels * input.height * input.width;
    output := Zeros(1, 1, n);
    var idx := 0;
    var c := 0;
    while c < input.channels
      invariant c <= input.channels
      invariant idx == c * input.height * input.width
      invariant HasShape(output, 1, 1, n) && CopiedUpTo(input.data, output.data, idx)
    {
      var h := 0;
      while h < input.height
        invariant h <= input.height
        invariant idx == c * input.height * input.width + h * input.width
        invariant HasShape(output, 1, 1, n) && CopiedUpTo(input.data, output.data, idx)
      {
        var w := 0;
        while w < input.width
          invariant w <= input.width
          invariant idx == Index(c, h, w, input.height, input.width)
          invariant HasShape(output, 1, 1, n) && CopiedUpTo(input.data, output.data, idx)
        {
          assert FlatIndex(input, c, h, w) == idx;
          assert FlatIndex(output, 0, 0, idx) == idx;
          output := Set(output, 0, 0, idx, Get(input, c, h, w));
          idx := idx + 1;
          w := w + 1;
        }
        NextRow(h, input.width);
        h := h + 1;
      }
      NextChannel(c, input.height, input.width);
      c := c + 1;
    }
    assert output.data == input.data;
  }

  /** The loops of FlattenLayer::backward: gradInput(c, h, w) = gradOutput(0, 0, idx++). */
  method UnflattenCells(gradOutput: Tensor, channels: nat, height: nat, width: nat) returns (gradInput: Tensor)
    requires |gradOutput.data| == channels * height * width && HasShape(gradOutput, 1, 1, |gradOutput.data|)
    ensures gradInput == Reshape(gradOutput, channels, height, width)
  {
    gradInput := Zeros(channels, height, width);
    var idx := 0;
    var c := 0;
    while c < channels
      invariant c <= channels
      invariant idx == c * height * width
      invariant HasShape(gradInput, channels, height, width) && CopiedUpTo(gradOutput.data, gradInput.data, idx)
    {
      var h := 0;
      while h < height
        invariant h <= height
        invariant idx == c * height * width + h * width
        invariant HasShape(gradInput, channels, height, width) && CopiedUpTo(gradOutput.data, gradInput.data, idx)
      {
        var w := 0;
        while w < width
          invariant w <= width
          invariant idx == Index(c, h, w, height, width)
          invariant HasShape(gradInput, channels, height, width) && CopiedUpTo(gradOutput.data, gradInput.data, idx)
        {
          assert FlatIndex(gradInput, c, h, w) == idx;
          assert FlatIndex(gradOutput, 0, 0, idx) == idx;
          gradInput := Set(gradInput, c, h, w, Get(gradOutput, 0, 0, idx));
          idx := idx + 1;
          w := w + 1;
        }
        NextRow(h, width);
        h := h + 1;
      }
      NextChannel(c, height, width);
      c := c + 1;
    }
    assert gradInput.data == gradOutput.data;
  }

  class FlattenLayer {
    const inputChannels: nat
    const inputHeight: nat
    const inputWidth: nat
    const flattenedSize: nat := inputChannels * inputHeight * inputWidth
    var lastInput: Tensor
    var lastOutput: Tensor

    /** FlattenLayer(C, H, W): flattenedSize = C*H*W; the cached tensors start empty. */
    constructor(channels: nat, height: nat, width: nat)
      ensures inputChannels == channels && inputHeight == height && inputWidth == width
      ensures flattenedSize == channels * height * width
      ensures lastInput == DefaultTensor() && lastOutput == DefaultTensor()
    {
      inputChannels := channels;
      inputHeight := height;
      inputWidth := width;
      lastInput := DefaultTensor();
      lastOutput := DefaultTensor();
    }

    /** The output is one row of all C*H*W cells. */
    function OutputShape(): (s: (nat, nat, nat))
      ensures s.0 == 1 && s.1 == 1 && s.2 == inputChannels * inputHeight * inputWidth
    {
      (1, 1, flattenedSize)
    }

    /** parameterCount() is 0 and hasTrainableParams() false. */
    function ParameterCount(): (n: nat)
      ensures n == 0
    {
      0
    }

    function HasTrainableParams(): (b: bool)
      ensures !b
    {
      false
    }

    function Type(): (t: LayerTypes.CNNLayerType)
      ensures t == LayerTypes.CNNLayerType.Flatten
    {
      LayerTypes.CNNLayerType.Flatten
    }

    /** getFlattenedOutput(): the cached output's buffer. */
    function GetFlattenedOutput(): seq<real>
      reads this
    {
      Flatten(lastOutput)
    }

    /** forward(input): invalid_argument unless input has the declared shape; otherwise
        the (1, 1, C*H*W) row with the same buffer, cached with its input. */
    method Forward(input: Tensor) returns (r: Result<Tensor>)
      modifies this
      ensures r.Err? <==> !HasShape(input, inputChannels, inputHeight, inputWidth)
      ensures r.Err? ==> r.error == InvalidArgument("FlattenLayer: input shape mismatch")
      ensures r.Err? ==> unchanged(this)
      ensures r.Ok? ==> HasShape(r.value, 1, 1, flattenedSize) && Flatten(r.value) == Flatten(input)
      ensures r.Ok? ==> lastInput == input && lastOutput == r.value
    {
      if !HasShape(input, inputChannels, inputHeight, inputWidth) {
        return Err(InvalidArgument("FlattenLayer: input shape mismatch"));
      }
      lastInput := input;
      var output := FlattenCells(input);
      lastOutput := output;
      r := Ok(output);
    }

    /** backward(gradOutput): invalid_argument unless gradOutput is a (1, 1, C*H*W) row;
        otherwise the same buffer under the input shape. */
    method Backward(gradOutput: Tensor) returns (r: Result<Tensor>)
      ensures r.Err? <==> !HasShape(gradOutput, 1, 1, flattenedSize)
      ensures r.Err? ==> r.error == InvalidArgument("FlattenLayer: gradOutput shape mismatch")
      ensures r.Ok? ==> HasShape(r.value, inputChannels, inputHeight, inputWidth)
      ensures r.Ok? ==> Flatten(r.value) == Flatten(gradOutput)
    {
      if !HasShape(gradOutput, 1, 1, flattenedSize) {
        return Err(InvalidArgument("FlattenLayer: gradOutput shape mismatch"));
      }
      var g := UnflattenCells(gradOutput, inputChannels, inputHeight, inputWidth);
      r := Ok(g);
    }

    /** updateWeights(lr) does nothing: the layer has no parameters. */
    method UpdateWeights(learningRate: real)
      ensures unchanged(this)
    {
    }
  }

  /** backward(forward(x)) == x for an input of the declared shape, and the forward
      pass leaves a row whose position c*H*W + h*W + w holds x(c, h, w). */
  method ForwardBackward(layer: FlattenLayer, x: Tensor) returns (y: Tensor)
    requires HasShape(x, layer.inputChannels, layer.inputHeight, layer.inputWidth)
    modifies layer
    ensures y == x
    ensures |layer.lastOutput.data| == |x.data|
    ensures forall c: nat, h: nat, w: nat | InRange(x, c, h, w) ::
      layer.lastOutput.data[FlatIndex(x, c, h, w)] == Get(x, c, h, w)
  {
    var out := layer.Forward(x);
    var back := layer.Backward(out.value);
    y := back.value;
    Extensionality(y, x);
  }
}
