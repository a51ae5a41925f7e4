# NeuralNetworkVisualizer core, modelled in Dafny

NeuralNetworkVisualizer is a Qt desktop application that trains and visualises
two small neural-network engines written in C++:

- an MLP engine (`NeuralNetwork`), a stack of fully connected layers trained by
  per-sample gradient descent on the mean squared error;
- a CNN engine (`CNNNetwork`), a chain of convolution, pooling and flatten
  layers working on `Tensor`s (channels x height x width, stored row-major in
  one vector), followed by fully connected layers of the MLP kind.

This project models the numerical core of both engines: the tensor type, the
three spatial layers, the dense layer and its forward/backward/update passes,
the two activation tables, the MLP network and the CNN network builder,
forward, backward, update, train, loss and parameter count.

Modelling choices:

- `double` is modelled as `real`. The exponential and the hyperbolic tangent
  are not computable here, so they are a parameter `Numerics(exp, tanh)` (with
  `exp` positive) passed to every member that activates. The +-500 clamp in
  front of the sigmoid is written out.
- `Tensor` is a value type (`Tensors.Tensor`, a datatype whose data length is
  channels x height x width). Mutating tensor operations (`fill`, `resize`,
  `+=`, `pad`, ...) are methods with loops that return the new tensor.
- The three spatial layers are classes whose fields their `forward`,
  `backward` and `updateWeights` methods update. Throwing constructors become a
  static `Create` that returns `Result`. Exceptions are `Err` values
  (`Errors.Error`: `InvalidArgument`, `OutOfRange` and `RuntimeError` carry the
  source's message; `AllocationFailure` stands for a failed `resize`).
- The dense `Layer` struct lives in a `std::vector` and is copied and assigned
  whole, so it is a datatype (`DenseLayers.Layer`); each loop of the passes is a
  method proved against a function (`Forwarded`, `Backpropagated`, `Updated`,
  ...).
- `NeuralNetwork` and `CNNNetwork` are classes. The CNN's list of shared
  pointers to layers is a `seq<SpatialLayer>` of class references, all
  distinct.
- Random initial values come from `draw` functions given as parameters. Only
  the zero-fan guards of the initialisers are modelled.
- Sign conventions are kept as written: the dense update adds
  `learningRate * delta * input` (the dense delta is `target - output` times the
  derivative), and the convolution update subtracts `learningRate * gradient`.

## Model

| member | source | states |
|---|---|---|
| Activations.Clamp | src/neural_network.cpp:70 | the result lies in [lo, hi] and is x itself when x is already inside |
| Activations.Sigmoid | src/neural_network.cpp:70 | the logistic of the clamped input lies strictly between 0 and 1 |
| Activations.SigmoidSaturates | src/cnn/conv_layer.cpp:78 | inputs beyond +-500 give the same value as +-500 |
| Activations.LogisticSlopeBound | src/neural_network.cpp:82-85 | s(1 - s) lies in (0, 1/4] for s in (0, 1) |
| Activations.TanhSlopeBound | src/neural_network.cpp:88-91 | 1 - t^2 lies in (0, 1] for t in (-1, 1) |
| Activations.Activate | src/neural_network.cpp:67-78 | ReLU gives max(x, 0); sigmoid lies in (0, 1); tanh lies in (-1, 1) |
| Activations.DerivativeFromOutput | src/neural_network.cpp:80-95 | each MLP derivative is a function of the activation's own output: 1 or 0 for ReLU, y(1 - y) for sigmoid, 1 - y^2 for tanh |
| Activations.DerivativeBounds | src/neural_network.cpp:80-95 | every MLP derivative lies in [0, 1], and only ReLU's can be 0 |
| Activations.ConvActivate | src/cnn/conv_layer.cpp:71-85 | ReLU, LeakyReLU (slope 0.01), identity for None and Softmax, sigmoid in (0, 1), tanh in (-1, 1) |
| Activations.ConvDerivativeIsSlope | src/cnn/conv_layer.cpp:87-105 | for ReLU, LeakyReLU, None and Softmax f(x) = f'(x) x, f' lies in [0, 1], and f' is 0 exactly for ReLU at x <= 0 |
| Activations.ConvDerivativeBounds | src/cnn/conv_layer.cpp:93-100 | the convolution sigmoid and tanh derivatives lie in (0, 1] |
| Activations.EnginesAgree | src/cnn/conv_layer.cpp:71-105 | the two engines compute the same ReLU, sigmoid and tanh and the same derivatives |
| IndexArith.IndexInjective | include/cnn/tensor.h:103-105 | two in-range coordinates with the same flat index are equal |
| IndexArith.IndexSurjective | include/cnn/tensor.h:103-105 | every flat index below C*H*W is the index of an in-range coordinate |
| IndexArith.WeightIndexSplit | include/neural_network.h:32-39 | every flat weight index splits into an in-range row and column that map back to it |
| IndexArith.WeightIndexParts | include/neural_network.h:32-39 | the row and column are recovered from a weight index by division and remainder |
| IndexArith.StepsIsQuotient | src/cnn/pooling_layer.cpp:19-40 | the window count step equals integer division |
| IndexArith.WindowCountFormula | src/cnn/conv_layer.cpp:20-41 | (length - p) / s + 1 windows of size p fit, and one more does not |
| IndexArith.WindowInside | src/cnn/pooling_layer.cpp:73-86 | every tap of every counted window lies inside the input |
| Tensors.NewTensor | src/cnn/tensor.cpp:11-13 | the tensor has the requested shape and every cell holds the initial value |
| Tensors.Zeros | src/cnn/tensor.cpp:7-9 | the tensor has the requested shape and every cell is 0 |
| Tensors.DefaultTensor | src/cnn/tensor.cpp:5 | the default tensor has shape 0x0x0 and no data |
| Tensors.Size | include/cnn/tensor.h:33 | the size is channels x height x width |
| Tensors.IsEmpty | include/cnn/tensor.h:34 | a tensor is empty iff its size is 0 iff one of its dimensions is 0 |
| Tensors.FlatIndex | include/cnn/tensor.h:103-105 | an in-range coordinate maps to a valid position of the data |
| Tensors.Set | src/cnn/tensor.cpp:15-20 | writing a cell keeps the shape, stores the value there and leaves every other cell unchanged |
| Tensors.IndexBijection | include/cnn/tensor.h:103-105 | two in-range coordinates share a flat index iff they are equal |
| Tensors.IndexOnto | include/cnn/tensor.h:103-105 | every data position is the flat index of some in-range coordinate |
| Tensors.Extensionality | include/cnn/tensor.h:103-105 | two tensors of the same shape that agree on every cell are equal |
| Tensors.At | src/cnn/tensor.cpp:15-27 | out-of-range coordinates give OutOfRange("Tensor index out of range"), in-range ones the cell's value |
| Tensors.AtScenario | src/cnn/tensor.cpp:15-27 | on a 2x3x3 tensor holding 0..17, cell (0,1,1) is 4 and (10,10,10) is out of range |
| Tensors.GetChannel | src/cnn/tensor.cpp:37-53 | fails with OutOfRange iff the channel is out of range; otherwise returns the channel's H*W plane, cell (h,w) at h*W+w |
| Tensors.SetChannel | src/cnn/tensor.cpp:55-65 | fails with InvalidArgument iff the channel is out of range or the data has the wrong length; otherwise that channel reads back as the data and all other channels are unchanged |
| Tensors.Fill | src/cnn/tensor.cpp:75-77 | same shape, every cell holds the value |
| Tensors.Zero | include/cnn/tensor.h:57 | same shape, every cell is 0 |
| Tensors.Resize | src/cnn/tensor.cpp:67-73 | the new shape is the requested one and every cell is 0 |
| Tensors.XavierInit | src/cnn/tensor.cpp:88-99 | fails with the Xavier message iff a fan is 0; otherwise same shape with every cell drawn |
| Tensors.HeInit | src/cnn/tensor.cpp:101-112 | fails with the He message iff fanIn is 0; otherwise same shape with every cell drawn |
| Tensors.XavierZeroFanScenario | src/cnn/tensor.cpp:88-92 | a 10x10x10 tensor with fanIn 0 is refused |
| Tensors.Add | src/cnn/tensor.cpp:132-137 | same shape as the left operand, each cell the sum of the two cells |
| Tensors.Subtract | src/cnn/tensor.cpp:139-144 | same shape as the left operand, each cell the difference of the two cells |
| Tensors.Scale | src/cnn/tensor.cpp:146-151 | same shape, each cell multiplied by the scalar |
| Tensors.AddThenSubtract | src/cnn/tensor.cpp:132-144 | adding and then subtracting a same-shaped tensor gives back the original |
| Tensors.Apply | src/cnn/tensor.cpp:153-163 | same shape, each cell mapped through the function |
| Tensors.SetSum | src/cnn/tensor.cpp:165-167 | writing one cell changes the sum by the new value minus the old one |
| Tensors.Mean | src/cnn/tensor.cpp:169-172 | 0 for an empty tensor, otherwise mean x size equals the sum |
| Tensors.MeanOfFilled | src/cnn/tensor.cpp:169-172 | the mean of a non-empty constant tensor is that constant |
| Tensors.Max | src/cnn/tensor.cpp:174-177 | 0 for an empty tensor, otherwise a cell's value that no cell exceeds |
| Tensors.Min | src/cnn/tensor.cpp:179-182 | 0 for an empty tensor, otherwise a cell's value below no other cell |
| Tensors.Flatten | src/cnn/tensor.cpp:184-186 | the vector has the tensor's size and holds cell (c,h,w) at its flat index |
| Tensors.FromVector | src/cnn/tensor.cpp:188-196 | fails with "Vector size mismatch" iff the length is not C*H*W; otherwise a tensor of that shape that flattens back to the vector |
| Tensors.FlattenRoundTrip | src/cnn/tensor.cpp:184-196 | rebuilding a flattened tensor with its own shape gives the tensor back |
| Tensors.Pad | src/cnn/tensor.cpp:198-208 | the result is the padding of the input: shape grown by 2ph and 2pw, the input copied at offset (ph, pw), the border filled with the value |
| Tensors.PadNothingIsIdentity | src/cnn/tensor.cpp:198-208 | padding by 0 returns the input |
| Tensors.PaddingUnique | src/cnn/tensor.cpp:198-208 | the padding of a tensor is unique |
| Tensors.PadScenario | src/cnn/tensor.cpp:198-208 | padding a 1x2x2 tensor of ones by 1 gives a 1x4x4 tensor with ones in the middle 2x2 and zeros around |
| Tensors.Padded | src/cnn/conv_layer.cpp:116-120 | the zero padding used by the convolution satisfies the padding property |
| Tensors.PadIsPadded | src/cnn/conv_layer.cpp:116-120 | every zero padding equals `Padded`, and padding by 0 is the identity |
| FlattenLayers.Reshape | src/cnn/flatten_layer.cpp:9-52 | the reshaped tensor has the requested shape and the same row-major data |
| FlattenLayers.ReshapeRoundTrip | src/cnn/flatten_layer.cpp:9-52 | flattening then unflattening gives the input back, and the other way round |
| FlattenLayers.FlattenCells | src/cnn/flatten_layer.cpp:20-27 | the copy loop produces the 1x1xN reshape of the input |
| FlattenLayers.UnflattenCells | src/cnn/flatten_layer.cpp:42-49 | the copy loop produces the CxHxW reshape of the gradient |
| FlattenLayers.FlattenLayer.constructor | src/cnn/flatten_layer.cpp:4-7 | stores the input shape and flattened size C*H*W; caches start empty |
| FlattenLayers.FlattenLayer.OutputShape | include/cnn/flatten_layer.h:27-29 | the output shape is 1x1x(C*H*W) |
| FlattenLayers.FlattenLayer.ParameterCount | include/cnn/flatten_layer.h:31 | no parameters |
| FlattenLayers.FlattenLayer.HasTrainableParams | include/cnn/flatten_layer.h:32 | not trainable |
| FlattenLayers.FlattenLayer.Type | include/cnn/flatten_layer.h:20 | the layer type is Flatten |
| FlattenLayers.FlattenLayer.Forward | src/cnn/flatten_layer.cpp:9-31 | fails with "FlattenLayer: input shape mismatch" iff the shape differs, changing nothing; otherwise returns a 1x1xN tensor with the input's data and caches input and output |
| FlattenLayers.FlattenLayer.Backward | src/cnn/flatten_layer.cpp:33-52 | fails with "FlattenLayer: gradOutput shape mismatch" iff the gradient is not 1x1xN; otherwise returns it in the input shape with the same data |
| FlattenLayers.FlattenLayer.UpdateWeights | include/cnn/flatten_layer.h:18 | changes nothing |
| FlattenLayers.ForwardBackward | src/cnn/flatten_layer.cpp:9-52 | backward after forward returns the input, and the cached output holds each input cell at its flat index |
| PoolingLayers.ComputeOutputSize | src/cnn/pooling_layer.cpp:19-40 | fails iff pool size or stride is 0 or the pool exceeds the input; otherwise at least one window per axis and exactly as many as fit |
| PoolingLayers.PoolingConfig | src/cnn/pooling_layer.cpp:6-40 | the constructor's checks in source order, each with its message, and the window counts on success |
| PoolingLayers.OutputSizeScenarios | src/cnn/pooling_layer.cpp:19-40 | 28x28 pooled 2/2 gives 14x14, 13x13 gives 6x6, and a 3x3 pool on 2x2 is refused |
| PoolingLayers.PoolOutputFormula | src/cnn/pooling_layer.cpp:36-39 | the output size is (in - pool) / stride + 1 per axis |
| PoolingLayers.WindowMaxUnique | src/cnn/pooling_layer.cpp:73-86 | the window maximum and its recorded cell are determined by the window |
| PoolingLayers.WindowMaxAttained | src/cnn/pooling_layer.cpp:73-86 | the maximum bounds every window cell above the lowest double and is the value of its recorded cell, which lies in the window |
| PoolingLayers.WindowMaxOfIsMax | src/cnn/pooling_layer.cpp:73-86 | the row-major scan with strict `>` yields the window maximum and its first cell |
| PoolingLayers.WindowMax | src/cnn/pooling_layer.cpp:73-86 | the window loop computes the scan's value and cell |
| PoolingLayers.WindowAverageConstant | src/cnn/pooling_layer.cpp:95-106 | the average of a window that lies inside and holds one value is that value |
| PoolingLayers.WindowSumCount | src/cnn/pooling_layer.cpp:95-104 | the loop computes the sum and count of the window's in-range cells |
| PoolingLayers.WindowValidCount | src/cnn/pooling_layer.cpp:137-146 | the loop counts the window's in-range cells |
| PoolingLayers.MaxPoolCells | src/cnn/pooling_layer.cpp:63-89 | max pooling fills the output shape and records, for every output cell, the scanned maximum and its cell |
| PoolingLayers.MaxPoolMeaning | src/cnn/pooling_layer.cpp:63-89 | each output cell is the maximum of its window and each recorded cell lies inside the input |
| PoolingLayers.AvgPoolCells | src/cnn/pooling_layer.cpp:91-107 | average pooling fills the output shape with each window's average |
| PoolingLayers.UnrecordedGetsNothing | src/cnn/pooling_layer.cpp:129-131 | an input cell no window recorded receives no gradient |
| PoolingLayers.MaxPoolBackwardCells | src/cnn/pooling_layer.cpp:116-131 | each input cell receives the sum of the gradients routed to it, and the total gradient is preserved |
| PoolingLayers.SpreadRowOutside | src/cnn/pooling_layer.cpp:149-157 | an input cell outside every window of a row receives nothing from that row |
| PoolingLayers.ShareBack | src/cnn/pooling_layer.cpp:148-157 | spreading g / (p*p) over a full p x p window hands back exactly g |
| PoolingLayers.ScatterWindow | src/cnn/pooling_layer.cpp:149-157 | the scatter loop adds the share to every window cell |
| PoolingLayers.AvgPoolBackwardCells | src/cnn/pooling_layer.cpp:133-158 | each input cell receives the shares of the windows covering it, and the total gradient is preserved |
| PoolingLayers.PoolingLayer.constructor | src/cnn/pooling_layer.cpp:6-17 | stores the configuration; caches and recorded indices start empty |
| PoolingLayers.PoolingLayer.Create | src/cnn/pooling_layer.cpp:6-17 | fails with the configuration error iff the configuration is refused; otherwise a fresh layer with that configuration |
| PoolingLayers.PoolingLayer.OutputChannels | include/cnn/pooling_layer.h:42 | pooling keeps the channel count |
| PoolingLayers.PoolingLayer.ParameterCount | include/cnn/pooling_layer.h:46 | no parameters |
| PoolingLayers.PoolingLayer.HasTrainableParams | include/cnn/pooling_layer.h:47 | not trainable |
| PoolingLayers.PoolingLayer.Type | include/cnn/pooling_layer.h:30-33 | MaxPooling iff max, AvgPooling iff average |
| PoolingLayers.PoolingLayer.Name | include/cnn/pooling_layer.h:34-36 | "MaxPool2D" or "AvgPool2D" |
| PoolingLayers.PoolingLayer.Forward | src/cnn/pooling_layer.cpp:42-114 | fails iff the shape differs, changing nothing; otherwise caches input and output, and every output cell is its window's maximum (with the recorded cell) or average |
| PoolingLayers.PoolingLayer.Backward | src/cnn/pooling_layer.cpp:116-164 | fails iff the gradient's shape differs; otherwise an input-shaped gradient routed to the recorded cells (max) or spread over the windows (average), with the total preserved |
| PoolingLayers.PoolingLayer.UpdateWeights | include/cnn/pooling_layer.h:28 | changes nothing |
| PoolingLayers.MaxPoolRoundTrip | src/cnn/pooling_layer.cpp:42-164 | backward after a max forward returns an input-shaped gradient with the same total |
| ConvLayers.ConvConfig | src/cnn/conv_layer.cpp:6-41 | the constructor's checks in source order, each with its message, and the window counts of the padded input on success |
| ConvLayers.ConvConfigScenarios | src/cnn/conv_layer.cpp:20-41 | 28x28 with kernel 3 gives 26x26, 28x28 with padding 1, 14x14 with stride 2; stride 0 and an oversized kernel are refused unless padding makes room |
| ConvLayers.ConvOutputFormula | src/cnn/conv_layer.cpp:36-40 | the output size is (in + 2 pad - k) / stride + 1 per axis |
| ConvLayers.TapsInside | src/cnn/conv_layer.cpp:128-143 | every kernel tap of every output cell lies inside the padded input |
| ConvLayers.WindowTaps | src/cnn/conv_layer.cpp:126-143 | the tap loops compute bias plus the sum of kernel x input over the window |
| ConvLayers.ForwardCells | src/cnn/conv_layer.cpp:122-149 | both outputs have shape outC x outH x outW, each pre-activation is its window sum, each output is its activation |
| ConvLayers.ZeroKernelsForward | src/cnn/conv_layer.cpp:122-149 | with all-zero kernels every pre-activation of the output loops is its channel's bias and every output cell is that bias activated |
| ConvLayers.DeltaOf | src/cnn/conv_layer.cpp:168-176 | delta is the gradient times the activation derivative at the pre-activation, cell by cell |
| ConvLayers.IdentityDelta | src/cnn/conv_layer.cpp:168-176 | with no activation the delta is the gradient itself |
| ConvLayers.DeltaCells | src/cnn/conv_layer.cpp:168-176 | the delta loop computes `DeltaOf` |
| ConvLayers.BiasGradientCell | src/cnn/conv_layer.cpp:183-188 | the loop adds the sum of a channel's deltas to the bias gradient |
| ConvLayers.KernelGradCell | src/cnn/conv_layer.cpp:190-204 | the loop computes the correlation of the delta with the padded input for one tap |
| ConvLayers.KernelGradCells | src/cnn/conv_layer.cpp:190-204 | every kernel-gradient cell gains its correlation |
| ConvLayers.ScatterTaps | src/cnn/conv_layer.cpp:210-219 | the innermost scatter loop adds each tap's contribution |
| ConvLayers.ScatterCell | src/cnn/conv_layer.cpp:208-221 | the scatter of one output cell over all input channels |
| ConvLayers.ScatterChannel | src/cnn/conv_layer.cpp:206-223 | the scatter of one output channel over all its cells |
| ConvLayers.ScatterIsGather | src/cnn/conv_layer.cpp:206-223 | the scatter equals, cell by cell, the gathered transposed convolution of the delta with the kernels, taps in the padding dropped |
| ConvLayers.BackwardChannels | src/cnn/conv_layer.cpp:183-223 | bias gradients are the delta sums, kernel gradients the correlations, and the input gradient is the scatter |
| ConvLayers.Stepped | src/cnn/conv_layer.cpp:231-237 | each kernel cell moves by minus the rate times its gradient |
| ConvLayers.SteppedByZero | src/cnn/conv_layer.cpp:229-240 | a zero rate leaves the kernel unchanged |
| ConvLayers.UpdateKernel | src/cnn/conv_layer.cpp:231-237 | the loop computes `Stepped` |
| ConvLayers.UpdateParameters | src/cnn/conv_layer.cpp:229-240 | every kernel is stepped and every bias moves by minus the rate times its gradient |
| ConvLayers.ZeroRateUpdate | src/cnn/conv_layer.cpp:229-240 | a zero rate leaves kernels and biases unchanged |
| ConvLayers.InitializeKernels | src/cnn/conv_layer.cpp:43-69 | fails iff there are output channels and no input channels, with the He message for ReLU/LeakyReLU and the Xavier message otherwise; else outC drawn kernels of shape inC x k x k |
| ConvLayers.KernelCellCount | src/cnn/conv_layer.cpp:242-244 | the kernels hold outC x inC x k x k cells |
| ConvLayers.ZeroAll | src/cnn/conv_layer.cpp:162-166 | every gradient tensor is zeroed, shapes kept |
| ConvLayers.BackwardPass | src/cnn/conv_layer.cpp:155-227 | the whole backward computation: bias and kernel gradients of the delta against the padded input, and the input gradient as the transposed convolution |
| ConvLayers.ConvLayer.constructor | src/cnn/conv_layer.cpp:6-18 | stores the configuration and kernels; biases, gradients and caches start at zero |
| ConvLayers.ConvLayer.Create | src/cnn/conv_layer.cpp:6-69 | fails with the configuration error first, then with the initialiser's error; otherwise a fresh valid layer holding the drawn kernels |
| ConvLayers.ConvLayer.Type | include/cnn/conv_layer.h:22 | the layer type is Convolutional |
| ConvLayers.ConvLayer.HasTrainableParams | include/cnn/conv_layer.h:34 | trainable |
| ConvLayers.ConvLayer.ParameterCount | src/cnn/conv_layer.cpp:242-244 | the kernel cell count plus the bias count |
| ConvLayers.ConvLayer.GetKernel | src/cnn/conv_layer.cpp:246-251 | fails with OutOfRange iff the channel is out of range; otherwise that kernel, of shape inC x k x k |
| ConvLayers.ConvLayer.Forward | src/cnn/conv_layer.cpp:107-153 | fails iff the shape differs, changing nothing; otherwise caches the input, the pre-activation (window sums over the padded input) and the activated output; parameters untouched |
| ConvLayers.ConvLayer.Backward | src/cnn/conv_layer.cpp:155-227 | fails iff the gradient's shape differs, changing nothing; otherwise stores bias and kernel gradients and returns the transposed-convolution input gradient |
| ConvLayers.ConvLayer.UpdateWeights | src/cnn/conv_layer.cpp:229-240 | kernels and biases move by minus the rate times their gradients; a zero rate changes nothing |
| DenseLayers.NewLayer | src/neural_network.cpp:8-33 | a negative size fails to allocate, a zero size fails with the initialisation message, otherwise a layer of that size with drawn weights and biases and zeroed caches |
| DenseLayers.RowSumPrefix | src/neural_network.cpp:195-198 | a neuron's sum reads only the first inputSize inputs |
| DenseLayers.RowSumZeroWeights | src/neural_network.cpp:193-198 | with zero weights a neuron's sum is its bias |
| DenseLayers.ComputeRowSum | src/neural_network.cpp:193-198 | the inner loop computes bias plus the weighted input sum |
| DenseLayers.Forwarded | src/neural_network.cpp:188-200 | a forwarded layer caches the input and an output per neuron and changes nothing else |
| DenseLayers.ForwardedRange | src/neural_network.cpp:188-200 | ReLU outputs are non-negative, sigmoid outputs in (0, 1), tanh outputs in (-1, 1) |
| DenseLayers.ForwardLayer | src/neural_network.cpp:188-200 | the row loop computes `Forwarded` |
| DenseLayers.ForwardAll | src/neural_network.cpp:177-206 | the forward pass changes only the caches and keeps the chain |
| DenseLayers.ForwardAllWiring | src/neural_network.cpp:177-206 | layer k reads the network input (k = 0) or layer k-1's output, and is that input forwarded |
| DenseLayers.ForwardLayers | src/neural_network.cpp:177-206 | the layer loop computes the forward pass and returns the last output |
| DenseLayers.ForwardChain | src/cnn/cnn_network.cpp:253-278 | the CNN's dense loop changes only caches |
| DenseLayers.ForwardChainIsForwardAll | src/cnn/cnn_network.cpp:253-278 | the CNN's dense forward equals the MLP's |
| DenseLayers.OutputDelta | src/neural_network.cpp:217-228 | one delta per output neuron |
| DenseLayers.HiddenDelta | src/neural_network.cpp:230-251 | one delta per hidden neuron |
| DenseLayers.ComputeBackSum | src/neural_network.cpp:237-241 | the loop sums next-layer weight x delta |
| DenseLayers.ComputeOutputDelta | src/neural_network.cpp:217-228 | the loop computes `OutputDelta` |
| DenseLayers.ComputeHiddenDelta | src/neural_network.cpp:230-251 | the loop computes `HiddenDelta` |
| DenseLayers.DeltaAt | src/neural_network.cpp:208-252 | layer k's delta has one entry per neuron |
| DenseLayers.Backpropagated | src/neural_network.cpp:208-252 | backpropagation changes only the deltas and keeps the chain |
| DenseLayers.BackwardChain | src/cnn/cnn_network.cpp:292-356 | the CNN's dense backward changes only deltas |
| DenseLayers.BackwardChainAt | src/cnn/cnn_network.cpp:292-356 | layer k of the CNN's dense backward holds `DeltaAt` k |
| DenseLayers.BackwardChainIsBackpropagated | src/cnn/cnn_network.cpp:292-356 | the CNN's dense backward equals the MLP's |
| DenseLayers.BackwardLayers | src/neural_network.cpp:208-252 | the reverse layer loop computes `Backpropagated` |
| DenseLayers.Updated | src/neural_network.cpp:254-268 | only weights and biases change, and each bias gains rate x delta |
| DenseLayers.UpdatedWeight | src/neural_network.cpp:258-263 | weight (o, i) gains rate x delta[o] x input[i] |
| DenseLayers.UpdatedIdle | src/neural_network.cpp:254-268 | a zero rate or zero deltas leave the layer unchanged |
| DenseLayers.UpdateRow | src/neural_network.cpp:256-266 | one row pass updates exactly that row's weights |
| DenseLayers.UpdateLayer | src/neural_network.cpp:256-266 | the row loop computes `Updated` |
| DenseLayers.UpdatedAll | src/neural_network.cpp:254-268 | the update keeps the chain and every shape |
| DenseLayers.UpdateChain | src/cnn/cnn_network.cpp:376-386 | the CNN's dense update keeps the chain and every shape |
| DenseLayers.UpdateChainIsUpdatedAll | src/cnn/cnn_network.cpp:376-386 | the CNN's dense update equals the MLP's |
| DenseLayers.UpdateLayers | src/neural_network.cpp:254-268 | the layer loop computes `UpdatedAll` |
| DenseLayers.ExactTargetZeroDeltas | src/neural_network.cpp:208-252 | when the target equals the output, every delta is zero |
| DenseLayers.ExactTargetIsFixedPoint | src/neural_network.cpp:128-133 | training on a sample the network already fits leaves every weight and bias unchanged |
| DenseLayers.SquareSign | src/neural_network.cpp:280-281 | a squared difference is non-negative and zero only for a zero difference |
| DenseLayers.MeanSquaredError | src/neural_network.cpp:270-284 | empty output and mismatched target fail with their messages, in that order |
| DenseLayers.MeanSquaredErrorMeaning | src/neural_network.cpp:270-284 | the loss is non-negative and zero iff output equals target |
| DenseLayers.MeanSquaredLoss | src/cnn/cnn_network.cpp:393-407 | the loop computes `MeanSquaredError` |
| NeuralNetworks.FirstBad | src/neural_network.cpp:56-62 | the first non-positive layer size, all sizes before it positive |
| NeuralNetworks.ChainLayer | src/neural_network.cpp:56-62 | layer i reads the previous size and produces its own |
| NeuralNetworks.ChainLayers | src/neural_network.cpp:56-62 | the first n built layers are chained, layer i being `ChainLayer` i |
| NeuralNetworks.ChainLayersExtend | src/neural_network.cpp:56-62 | building one more layer appends it |
| NeuralNetworks.LayerSizes | src/neural_network.cpp:144-152 | the input size followed by each layer's output size |
| NeuralNetworks.BuiltLayerSizes | src/neural_network.cpp:51-65 | after a build the layer sizes are the input size followed by the configured sizes |
| NeuralNetworks.BuiltChainEnds | src/neural_network.cpp:51-65 | the built chain reads the input size and ends with the last configured size |
| NeuralNetworks.ForwardReady | src/neural_network.cpp:177-206 | a forward pass keeps the network ready and every shape |
| NeuralNetworks.Trained | src/neural_network.cpp:128-133 | one training step keeps the network ready and every shape |
| NeuralNetworks.SampleLoss | src/neural_network.cpp:130 | the sample loss is the mean squared error of the forward output |
| NeuralNetworks.SampleLossNonNegative | src/neural_network.cpp:130 | the sample loss is never negative |
| NeuralNetworks.Step | src/neural_network.cpp:128-133 | a step keeps the network ready |
| NeuralNetworks.StepRunning | src/neural_network.cpp:128-133 | a well-sized sample runs forward, backward and update, adding its loss to the total |
| NeuralNetworks.TrainSample | src/neural_network.cpp:128-133 | the loop body computes `Step` |
| NeuralNetworks.StepLoss | src/neural_network.cpp:130 | a step never lowers the running total |
| NeuralNetworks.Run | src/neural_network.cpp:128-133 | the sample loop keeps the network ready |
| NeuralNetworks.EpochStart | src/neural_network.cpp:126-133 | an epoch is the sample loop from a zero total |
| NeuralNetworks.RunLossNonNegative | src/neural_network.cpp:126-133 | the total loss of a completed loop is non-negative |
| NeuralNetworks.StepZeroRate | src/neural_network.cpp:128-133 | with rate 0 a step leaves weights and biases unchanged |
| NeuralNetworks.RunZeroRate | src/neural_network.cpp:128-133 | with rate 0 an epoch leaves weights and biases unchanged |
| NeuralNetworks.EpochResult | src/neural_network.cpp:135 | a stopped epoch yields its error; a completed one a non-negative average |
| NeuralNetworks.TrainEpoch | src/neural_network.cpp:126-135 | the training loop computes the epoch's layers and average loss |
| NeuralNetworks.EpochStep | src/neural_network.cpp:128-133 | one loop iteration advances the epoch by one sample or stops it with the error |
| NeuralNetworks.RunStep | src/neural_network.cpp:128-133 | the loop stops at the first failing sample and otherwise continues from the updated state |
| NeuralNetworks.WeightGrid | src/neural_network.cpp:163-171 | an outputSize x inputSize grid whose cell (j, i) is weight(j, i) |
| NeuralNetworks.WeightGridRowMajor | include/neural_network.h:32-39 | concatenating the grid's rows gives the weight vector back |
| NeuralNetworks.AllWeights | src/neural_network.cpp:159-175 | one grid per layer |
| NeuralNetworks.WeightRow | src/neural_network.cpp:168-170 | the inner loop builds grid row j |
| NeuralNetworks.LayerWeights | src/neural_network.cpp:163-171 | the row loop builds the grid |
| NeuralNetworks.NeuralNetwork.constructor | src/neural_network.cpp:36-40 | an empty, unbuilt network with input size 0 |
| NeuralNetworks.NeuralNetwork.SetInputSize | src/neural_network.cpp:42-44 | sets the input size and nothing else |
| NeuralNetworks.NeuralNetwork.AddLayer | src/neural_network.cpp:46-49 | appends a size and an activation, nothing else |
| NeuralNetworks.NeuralNetwork.Build | src/neural_network.cpp:51-65 | refuses an unset configuration; succeeds iff every size is positive, building the chain; otherwise keeps the layers built before the first bad size and fails with that layer's error |
| NeuralNetworks.NeuralNetwork.Forward | src/neural_network.cpp:177-206 | refuses an unbuilt network or a wrong input size; otherwise runs the forward pass and returns the last output |
| NeuralNetworks.NeuralNetwork.Backward | src/neural_network.cpp:208-252 | refuses an empty network or a wrong target size; otherwise backpropagates |
| NeuralNetworks.NeuralNetwork.UpdateWeights | src/neural_network.cpp:254-268 | applies the update to every layer |
| NeuralNetworks.NeuralNetwork.CalculateLoss | src/neural_network.cpp:138-142 | is the mean squared error |
| NeuralNetworks.NeuralNetwork.Train | src/neural_network.cpp:112-136 | refuses empty, mismatched or unbuilt input with the source's messages, changing nothing; otherwise runs the epoch and returns its result |
| NeuralNetworks.NeuralNetwork.GetLayerSizes | src/neural_network.cpp:144-152 | returns `LayerSizes` |
| NeuralNetworks.NeuralNetwork.GetAllWeights | src/neural_network.cpp:159-175 | returns `AllWeights` |
| CNNNetworks.ForwardSpatial | src/cnn/cnn_network.cpp:244-247 | a spatial layer fails iff the input has the wrong shape, changing nothing; otherwise returns its output shape and caches input and output |
| CNNNetworks.BackwardSpatial | src/cnn/cnn_network.cpp:369-372 | a spatial layer fails iff the gradient has the wrong shape; otherwise returns an input-shaped gradient computed by that layer's backward |
| CNNNetworks.UpdateSpatial | src/cnn/cnn_network.cpp:388-390 | a spatial layer's parameters move by its update rule |
| CNNNetworks.ChainAppend | src/cnn/cnn_network.cpp:23-68 | appending a layer whose input shape is the current shape keeps the shapes chained and moves the current shape to its output |
| CNNNetworks.SizeToInt | src/cnn/cnn_network.cpp:70-77 | the 32-bit two's-complement wrap of the neuron count, exact below 2^31 |
| CNNNetworks.BuildBreak | src/cnn/cnn_network.cpp:94-99 | the first dense layer that fails to build, all sizes before it positive |
| CNNNetworks.DenseChain | src/cnn/cnn_network.cpp:94-99 | the first n dense layers are chained, reading the flattened size and then each previous size |
| CNNNetworks.BuildDense | src/cnn/cnn_network.cpp:94-99 | the loop builds the chain up to the first failure and reports that layer's error |
| CNNNetworks.ParametersOfSizes | src/cnn/cnn_network.cpp:179-182 | the dense parameter count depends only on the configured sizes |
| CNNNetworks.BuiltParameters | src/cnn/cnn_network.cpp:179-182 | the built dense layers have in x out + out parameters each, as configured |
| CNNNetworks.DenseParametersAreStored | src/cnn/cnn_network.cpp:179-182 | each dense layer's count is the number of weights and biases it stores |
| CNNNetworks.DenseGradient | src/cnn/cnn_network.cpp:358-367 | the gradient handed to the spatial layers is a 1x1xN tensor of back sums |
| CNNNetworks.ComputeDenseGradient | src/cnn/cnn_network.cpp:358-367 | the loop computes `DenseGradient` |
| CNNNetworks.ForwardDense | src/cnn/cnn_network.cpp:253-278 | the dense loop computes `ForwardChain` and returns the last output |
| CNNNetworks.BackwardDense | src/cnn/cnn_network.cpp:292-356 | the dense loops compute `BackwardChain` |
| CNNNetworks.UpdateDense | src/cnn/cnn_network.cpp:376-386 | the dense loop computes `UpdateChain` |
| CNNNetworks.CNNNetwork.constructor | src/cnn/cnn_network.cpp:10-12 | an empty, unbuilt network with zero shapes |
| CNNNetworks.CNNNetwork.SetInputSize | src/cnn/cnn_network.cpp:14-21 | sets both the input and the current shape |
| CNNNetworks.CNNNetwork.AddConvLayer | src/cnn/cnn_network.cpp:23-39 | refuses after Flatten; fails as the layer's constructor does, changing nothing; otherwise appends a fresh convolution reading the current shape and moves the current shape to its output |
| CNNNetworks.CNNNetwork.AddPoolingLayer | src/cnn/cnn_network.cpp:41-55 | refuses after Flatten; fails as the layer's constructor does, changing nothing; otherwise appends a fresh pooling layer and moves the current shape to its output |
| CNNNetworks.CNNNetwork.AddFlattenLayer | src/cnn/cnn_network.cpp:57-68 | refuses a second Flatten; otherwise appends one reading the current shape and records its size |
| CNNNetworks.CNNNetwork.AddDenseLayer | src/cnn/cnn_network.cpp:70-77 | adds Flatten first when missing, then appends the wrapped size and the activation |
| CNNNetworks.CNNNetwork.Build | src/cnn/cnn_network.cpp:79-102 | refuses an unset input; clears the dense layers and refuses a flattened size above INT_MAX; otherwise builds the dense chain up to the first failing layer and is built iff none fails |
| CNNNetworks.CNNNetwork.Forward | src/cnn/cnn_network.cpp:238-282 | refuses an unbuilt network or a wrong input shape, changing nothing; fails iff a spatial layer's shape does not chain, with the `ShapeError` of the first layer that rejects what reaches it, and then (`ForwardStopped`) the layers below it have forwarded the input in order while it and the layers above are unchanged and the dense state is as before; otherwise caches the flattened spatial output, runs the dense chain and returns and stores its last output |
| CNNNetworks.CNNNetwork.Backward | src/cnn/cnn_network.cpp:284-373 | does nothing with no dense layers; refuses a wrong target size, changing nothing; otherwise backpropagates the dense chain and passes the resulting gradient back through every spatial layer; fails iff the layers are not linked, with the `GradError` of the highest layer that rejects the gradient reaching it, and then (`BackwardStopped`) the layers above it passed the gradient back in order while it and those below are unchanged |
| CNNNetworks.CNNNetwork.UpdateWeights | src/cnn/cnn_network.cpp:375-391 | updates the dense chain first and then every spatial layer, each by its own rule |
| CNNNetworks.CNNNetwork.CalculateLoss | src/cnn/cnn_network.cpp:167-171 | is the mean squared error |
| CNNNetworks.CNNNetwork.Train | src/cnn/cnn_network.cpp:141-165 | refuses empty, mismatched or unbuilt input with the source's messages, changing nothing; succeeds iff every sample and target fit, returning the mean of the per-sample losses, each the non-negative mean squared error of an output of the network's output length against that sample's target; otherwise fails with the error (`SampleFault`) that the first failing sample (`FirstFault`) throws |
| CNNNetworks.CNNNetwork.TrainSample | src/cnn/cnn_network.cpp:158-162 | one sample's forward, loss, backward and update; succeeds iff the sample has the input shape, the shapes chain, the output is non-empty and the target has its length, and otherwise fails with the first of those errors (`SampleFault`); once the forward succeeds the result is the mean squared error of the stored output against the target; on success the state is `SampleLearned` from the layers it started with: every spatial layer cached the forward of the sample and stepped its parameters, and, when there are dense layers, the dense layers are the forwarded, backpropagated and stepped chain and each spatial layer passed the gradient back with the kernels it had |
| CNNNetworks.CNNNetwork.ForwardSample | src/cnn/cnn_network.cpp:238-282 | forward succeeds iff the sample has the input shape and the shapes chain; a wrong shape gives "Input shape mismatch" and a break the `ShapeError` of the first layer that rejects what reaches it; on success the state is `SampleForwarded`: the spatial caches, the flattened output, the dense chain forwarded on it and the stored output, with every convolution's kernels, biases and gradients as before |
| CNNNetworks.CNNNetwork.ForwardLoss | src/cnn/cnn_network.cpp:158-159 | forward then the loss: succeeds iff the sample fits and the target has the output's length, and otherwise fails with the first error of `SampleFault`; once the forward succeeds the result is the mean squared error of the stored output against the target, non-negative on success |
| CNNNetworks.CNNNetwork.Learn | src/cnn/cnn_network.cpp:160-161 | backward then update after a forward: backward succeeds, the dense layers are `UpdateChain(BackwardChain(...))` of those the forward left, each spatial layer passed grads[k + 1] back to grads[k] with its kernels from before the update, and each then stepped its parameters (`Learned`) |
| CNNNetworks.CNNNetwork.LearnSample | src/cnn/cnn_network.cpp:160-161 | `Learn` from a `SampleForwarded` state reaches `SampleLearned`, keeping the output length and the dense shapes |
| CNNNetworks.CNNNetwork.SampleLearnedFrom | src/cnn/cnn_network.cpp:158-162 | a forwarded state followed by `Learned` is `SampleLearned`: the forward caches survive backward and update, and the kernels each layer used backward are those the forward used |
| CNNNetworks.CNNNetwork.TrainedLayers | src/cnn/cnn_network.cpp:158-162 | every spatial layer that forwarded and then learned is `TrainedFrom` the parameters it forwarded with, and the spatial output is unchanged |
| CNNNetworks.TrainedLayer | src/cnn/cnn_network.cpp:158-162 | one layer: forward from its earlier parameters, then one update step from them with the gradients backward stored; caches unchanged |
| CNNNetworks.CNNNetwork.BackwardKept | src/cnn/cnn_network.cpp:284-373 | backward after a forward succeeds, computes `BackwardChain` and the spatial gradients, and leaves every spatial layer's parameters and forward caches as they were |
| CNNNetworks.CNNNetwork.KeptEach | src/cnn/cnn_network.cpp:369-372 | the list of what each spatial layer keeps is unchanged only if every layer kept its own part |
| CNNNetworks.CNNNetwork.KeptBelowAt | src/cnn/cnn_network.cpp:369-372 | entry k of that list is layer k's part |
| CNNNetworks.CNNNetwork.BackwardDenseLayers | src/cnn/cnn_network.cpp:292-367 | the dense layers become `BackwardChain` of themselves and the gradient returned is the first layer's `DenseGradient`, of shape 1x1x(flattened size) |
| CNNNetworks.CNNNetwork.BackwardFromDense | src/cnn/cnn_network.cpp:369-372 | the spatial loop from that gradient succeeds iff the layers are linked, each layer then passing grads[k + 1] back to grads[k]; otherwise it fails with the `GradError` of the highest layer that rejects the gradient reaching it, the layers above it having passed back and the rest unchanged |
| CNNNetworks.CNNNetwork.UpdateDenseLayers | src/cnn/cnn_network.cpp:376-386 | the dense layers become `UpdateChain` of themselves |
| CNNNetworks.CNNNetwork.UpdateSpatialLayers | src/cnn/cnn_network.cpp:388-390 | every spatial layer steps by its own rule |
| CNNNetworks.ForwardBreakMeaning | src/cnn/cnn_network.cpp:244-247 | every layer before the break accepts the shape that reaches it and the layer at the break does not |
| CNNNetworks.ForwardBreakChains | src/cnn/cnn_network.cpp:244-247 | the spatial loop runs to the end iff the layer shapes chain from the input shape |
| CNNNetworks.BackwardStopMeaning | src/cnn/cnn_network.cpp:369-372 | every layer above the stop accepts the gradient that reaches it and the layer just below does not |
| CNNNetworks.BackwardStopLinked | src/cnn/cnn_network.cpp:369-372 | the backward loop runs to the first layer iff the layers are linked and the gradient has the last layer's output shape |
| CNNNetworks.SampleFault | src/cnn/cnn_network.cpp:158-159 | one sample throws nothing iff it has the input shape, the layer shapes chain, the output is non-empty and the target has the output's length; otherwise it names the first check that fails: "Input shape mismatch" (line 413), the first rejecting layer's `ShapeError` (line 246), "Output cannot be empty for loss calculation" (line 396), "Target size mismatch" (line 399) |
| CNNNetworks.SampleFaultLoss | src/cnn/cnn_network.cpp:392-400 | a sample that passes the spatial layers throws exactly what the loss throws on its output |
| CNNNetworks.FirstFault | src/cnn/cnn_network.cpp:157-163 | the first sample from i on that throws: every sample before it throws nothing, and it throws unless it is past the end |
| CNNNetworks.CNNNetwork.TrainRun | src/cnn/cnn_network.cpp:155-163 | the sample loop: stops at the first sample that throws and reports its `SampleFault`, otherwise runs to the end; every sample before the stop went through, with its loss the mean squared error of its output against its target and the running total their sum |
| CNNNetworks.CNNNetwork.TotalParameters | src/cnn/cnn_network.cpp:173-184 | the sum of every spatial layer's count and every dense layer's in x out + out, equal to the number of stored parameters |

## Left out

- The Qt user interface, the training thread, charts and visualisation widgets are not part of this model.
- Mutexes: the locking public wrappers (src/neural_network.cpp:97-110, src/cnn/cnn_network.cpp:126-139) are modelled as the unlocked internal operations they call.
- Random numbers: `randomInit`, the uniform and normal draws of `xavierInit`, `heInit` and `Layer::initializeWeights` become `draw` parameters; the limits `sqrt(6/(in+out))` and `sqrt(2/in)` are not modelled.
- The exponential and the hyperbolic tangent are parameters (`Numerics`), and floating-point rounding is not modelled (doubles are reals).
- The attention stack, and the tensor members used only by it (`matmul`, `transpose`, `softmax`, `randn`, the two-argument `pad`), are not part of this model.
- `getLayerDescriptions`, `getAllFeatureMaps`, `getAllKernels`, `buildSimpleCNN`, `getLayersSnapshot` and the benchmarks and test programs are not modelled: they only format, copy or assemble what the modelled members compute.
- Tensors.GetChannel: the `ptrdiff_t` overflow guard of tensor.cpp:43-47 is not modelled; it cannot fire for a tensor whose data fits in memory.
- Tensors.SetChannel: the same `ptrdiff_t` overflow guard (tensor.cpp:59-62) is not modelled, for the same reason.
- Tensors.Add: requires the right operand to have at least as much data as the left, because the source reads it unchecked (undefined behaviour otherwise); the same holds for Tensors.Subtract.
- Tensors.Subtract: same requirement as Tensors.Add.
- PoolingLayers.PoolingLayer.Backward: requires, for max pooling, that a forward pass recorded the maximum cells; before one the source reads an empty index table (undefined behaviour).
- PoolingLayers.AvgPoolBackwardCells: the division by a zero in-range count (pooling_layer.cpp:148) is not modelled, because every window of a configured layer lies inside the input.
- ConvLayers.ConvLayer.Backward: requires the cached input to have the input shape; backward before any forward reads an empty tensor in the source (undefined behaviour).
- NeuralNetworks.NeuralNetwork.Forward: requires a built network to keep a non-empty layer list whose first layer reads at most `inputSize` values (`Ready`). Two states of the source break this, and both are undefined behaviour there. A rebuild that fails at its first layer leaves `isBuilt` set with no layers, and forward then calls `back()` on the empty list (neural_network.cpp:205). `setInputSize` called after build with a smaller non-negative size (zero included) lets an input of that size through the check of neural_network.cpp:181-182, and the first layer then reads past its end (neural_network.cpp:195-198). A partial non-empty chain left by a later failing layer is allowed, and so is a negative size, which the size check refuses. The same holds for NeuralNetworks.NeuralNetwork.Train.
- NeuralNetworks.NeuralNetwork.Train: same requirement as NeuralNetworks.NeuralNetwork.Forward.
- CNNNetworks.CNNNetwork.Train: each loss is stated as the mean squared error of an output of the network's output length against its target, but that output is not stated as a function of the weights the earlier samples left; the per-sample relation is the contract of CNNNetworks.CNNNetwork.TrainSample.
- CNNNetworks.CNNNetwork.TrainSample: with no dense layers the source's backward returns at once (cnn_network.cpp:285); the contract then states the update step of every convolution from the gradients it holds, but not that those are the gradients it held before the sample.
- CNNNetworks.CNNNetwork.TotalParameters: `size_t` wrap-around of the sum is not modelled (the count is an unbounded integer).
- ConvLayers.ConvLayer.ParameterCount: `size_t` wrap-around is not modelled.
- CNNNetworks.CNNNetwork.Build: the branch that adds a Flatten layer when dense sizes exist without one (cnn_network.cpp:84-86) is unreachable here, since `AddDenseLayer` always adds Flatten first.
- Neuron counts `int` in the dense engine are kept as unbounded integers; only the `size_t` to `int` conversion of `addDenseLayer` is wrapped explicitly (`SizeToInt`).
- ConvLayers.ConvLayer.Backward: the `static_cast<int>` of `oh * stride + kh` and of the padding (conv_layer.cpp:211-215) is modelled as exact integer arithmetic; the casts wrap only for extents of 2^31 or more.
- PoolingLayers.PoolingLayer.Forward: the `int count` of an average window (pooling_layer.cpp:93) is an unbounded integer here; it wraps only for windows of 2^31 or more cells. The same holds for the count in PoolingLayers.PoolingLayer.Backward (pooling_layer.cpp:137).
