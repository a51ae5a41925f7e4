/**
 * The activation functions of the dense engine (src/neural_network.cpp) and of
 * the convolution layer (src/cnn/conv_layer.cpp). The piecewise-linear cases
 * are exact. Sigmoid and tanh rest on the library's exp and tanh, which are
 * not defined here: they enter as a `Numerics` value that every caller passes
 * through, typed by what the model relies on: exp is positive and tanh lies
 * strictly between -1 and 1.
 */
module Activations {

  type Positive = r: real | r > 0.0 witness 1.0

  type OpenUnit = r: real | -1.0 < r < 1.0 witness 0.0

  datatype Numerics = Numerics(exp: real -> Positive, tanh: real -> OpenUnit)

  /** std::clamp(x, lo, hi). */
  function Clamp(x: real, lo: real, hi: real): (r: real)
    requires lo <= hi
    ensures lo <= r <= hi
    ensures lo <= x <= hi ==> r == x
  {
    if x < lo then lo else if hi < x then hi else x
  }

  /** 1 / (1 + exp(-clamp(x, -500, 500))), shared by both engines. */
  function Sigmoid(m: Numerics, x: real): (s: real)
    ensures 0.0 < s < 1.0
  {
    var e := m.exp(-Clamp(x, -500.0, 500.0));
    LogisticRange(e);
    1.0 / (1.0 + e)
  }

  lemma LogisticRange(e: real)
    requires e > 0.0
    ensures 0.0 < 1.0 / (1.0 + e) < 1.0
  {
  }

  /** The sigmoid saturates: inputs beyond the clamp give the value at the clamp. */
  lemma SigmoidSaturates(m: Numerics, x: real)
    ensures x >= 500.0 ==> Sigmoid(m, x) == Sigmoid(m, 500.0)
    ensures x <= -500.0 ==> Sigmoid(m, x) == Sigmoid(m, -500.0)
  {
  }

  /** s * (1 - s) for s in (0, 1) lies in (0, 1/4]. */
  lemma {:induction false} LogisticSlopeBound(s: real)
    requires 0.0 < s < 1.0
    ensures 0.0 < s * (1.0 - s) <= 0.25
  {
    assert 0.25 - s * (1.0 - s) == (s - 0.5) * (s - 0.5);
  }

  /** 1 - t * t for t in (-1, 1) lies in (0, 1]. */
  lemma {:induction false} TanhSlopeBound(t: real)
    requires -1.0 < t < 1.0
    ensures 0.0 < 1.0 - t * t <= 1.0
  {
    if t >= 0.0 {
      assert t * t <= t;
    } else {
      assert t * t <= -t;
    }
  }

  // ------------------------------------------------------------------ dense engine

  /** ActivationType of the dense engine; Sigmoid is the default of Layer and addLayer. */
  datatype ActivationType = Sigmoid | ReLU | Tanh

  const DefaultActivation: ActivationType := ActivationType.Sigmoid

  /** NeuralNetwork::activate. */
  function Activate(m: Numerics, x: real, a: ActivationType): (y: real)
    ensures a == ActivationType.ReLU ==> y >= 0.0 && (x >= 0.0 ==> y == x) && (x <= 0.0 ==> y == 0.0)
    ensures a == ActivationType.Sigmoid ==> 0.0 < y < 1.0
    ensures a == ActivationType.Tanh ==> -1.0 < y < 1.0
  {
    match a
    case Sigmoid => Sigmoid(m, x)
    case ReLU => if 0.0 < x then x else 0.0
    case Tanh => m.tanh(x)
  }

  /** NeuralNetwork::activateDerivative, evaluated at the pre-activation sum. */
  function ActivateDerivative(m: Numerics, x: real, a: ActivationType): (d: real)
  {
    match a
    case Sigmoid =>
      var s := Activate(m, x, ActivationType.Sigmoid);
      s * (1.0 - s)
    case ReLU => if x > 0.0 then 1.0 else 0.0
    case Tanh =>
      var t := m.tanh(x);
      1.0 - t * t
  }

  /** Every derivative is a function of the activation's own output: ReLU's is
      the indicator of a positive output, sigmoid's is y(1 - y), tanh's is 1 - y^2. */
  lemma DerivativeFromOutput(m: Numerics, x: real, a: ActivationType)
    ensures var y := Activate(m, x, a);
      ActivateDerivative(m, x, a) == match a
        case Sigmoid => y * (1.0 - y)
        case ReLU => if y > 0.0 then 1.0 else 0.0
        case Tanh => 1.0 - y * y
  {
  }

  /** Every derivative lies in [0, 1], and only ReLU's can be 0. */
  lemma {:induction false} DerivativeBounds(m: Numerics, x: real, a: ActivationType)
    ensures 0.0 <= ActivateDerivative(m, x, a) <= 1.0
    ensures a != ActivationType.ReLU ==> 0.0 < ActivateDerivative(m, x, a)
  {
    match a
    case Sigmoid => LogisticSlopeBound(Sigmoid(m, x));
    case ReLU =>
    case Tanh => TanhSlopeBound(m.tanh(x));
  }

  // ------------------------------------------------------------------ convolution layer

  /** CNNActivationType. Softmax has no case in the convolution layer and falls to the default. */
  datatype CNNActivationType = None | ReLU | LeakyReLU | Sigmoid | Tanh | Softmax

  /** ConvolutionalLayer::activate. */
  function ConvActivate(m: Numerics, x: real, a: CNNActivationType): (y: real)
    ensures a == CNNActivationType.ReLU ==> y >= 0.0 && (x >= 0.0 ==> y == x) && (x <= 0.0 ==> y == 0.0)
    ensures a == CNNActivationType.LeakyReLU ==> (x > 0.0 ==> y == x) && (x <= 0.0 ==> y == 0.01 * x)
    ensures a == CNNActivationType.None || a == CNNActivationType.Softmax ==> y == x
    ensures a == CNNActivationType.Sigmoid ==> 0.0 < y < 1.0
    ensures a == CNNActivationType.Tanh ==> -1.0 < y < 1.0
  {
    match a
    case ReLU => if 0.0 < x then x else 0.0
    case LeakyReLU => if x > 0.0 then x else 0.01 * x
    case Sigmoid => Sigmoid(m, x)
    case Tanh => m.tanh(x)
    case _ => x
  }

  /** ConvolutionalLayer::activateDerivative. */
  function ConvActivateDerivative(m: Numerics, x: real, a: CNNActivationType): (d: real)
  {
    match a
    case ReLU => if x > 0.0 then 1.0 else 0.0
    case LeakyReLU => if x > 0.0 then 1.0 else 0.01
    case Sigmoid =>
      var s := Sigmoid(m, x);
      s * (1.0 - s)
    case Tanh =>
      var t := m.tanh(x);
      1.0 - t * t
    case _ => 1.0
  }

  predicate PiecewiseLinear(a: CNNActivationType)
  {
    a == CNNActivationType.None || a == CNNActivationType.ReLU
    || a == CNNActivationType.LeakyReLU || a == CNNActivationType.Softmax
  }

  /** For the piecewise-linear activations the derivative is the slope of the piece
      containing x, so f(x) == f'(x) * x, and it lies in [0, 1], being 0 exactly
      for ReLU on x <= 0. */
  lemma ConvDerivativeIsSlope(m: Numerics, x: real, a: CNNActivationType)
    requires PiecewiseLinear(a)
    ensures ConvActivate(m, x, a) == ConvActivateDerivative(m, x, a) * x
    ensures 0.0 <= ConvActivateDerivative(m, x, a) <= 1.0
    ensures ConvActivateDerivative(m, x, a) == 0.0 <==> (a == CNNActivationType.ReLU && x <= 0.0)
  {
  }

  /** The sigmoid and tanh derivatives of the convolution layer lie in (0, 1]. */
  lemma {:induction false} ConvDerivativeBounds(m: Numerics, x: real, a: CNNActivationType)
    requires a == CNNActivationType.Sigmoid || a == CNNActivationType.Tanh
    ensures 0.0 < ConvActivateDerivative(m, x, a) <= 1.0
  {
    if a == CNNActivationType.Sigmoid {
      LogisticSlopeBound(Sigmoid(m, x));
    } else {
      TanhSlopeBound(m.tanh(x));
    }
  }

  /** The two engines agree where their activation types overlap. */
  lemma EnginesAgree(m: Numerics, x: real)
    ensures ConvActivate(m, x, CNNActivationType.ReLU) == Activate(m, x, ActivationType.ReLU)
    ensures ConvActivate(m, x, CNNActivationType.Sigmoid) == Activate(m, x, ActivationType.Sigmoid)
    ensures ConvActivate(m, x, CNNActivationType.Tanh) == Activate(m, x, ActivationType.Tanh)
    ensures ConvActivateDerivative(m, x, CNNActivationType.ReLU) == ActivateDerivative(m, x, ActivationType.ReLU)
    ensures ConvActivateDerivative(m, x, CNNActivationType.Sigmoid) == ActivateDerivative(m, x, ActivationType.Sigmoid)
    ensures ConvActivateDerivative(m, x, CNNActivationType.Tanh) == ActivateDerivative(m, x, ActivationType.Tanh)
  {
  }
}
