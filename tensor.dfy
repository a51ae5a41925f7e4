/**
 * The channel x row x column tensor (include/cnn/tensor.h, src/cnn/tensor.cpp).
 * A tensor is a value: copying it copies its buffer, so it is a datatype here.
 * The buffer is stored flat, channel-major, then row-major within a channel.
 * The in-place mutators of the original (fill, resize, setChannel, the
 * compound operators, apply and the padding loops) are methods that take the
 * receiver's value and return its new value.
 */
module Tensors {
  import opened IndexArith
  import opened Errors

  datatype TensorData = TensorData(channels: nat, height: nat, width: nat, data: seq<real>)

  /** The class invariant: the buffer holds exactly channels * height * width values. */
  type Tensor = t: TensorData | |t.data| == t.channels * t.height * t.width
    witness TensorData(0, 0, 0, [])

  predicate SameShape(a: TensorData, b: TensorData)
  {
    a.channels == b.channels && a.height == b.height && a.width == b.width
  }

  predicate HasShape(t: TensorData, channels: nat, height: nat, width: nat)
  {
    t.channels == channels && t.height == height && t.width == width
  }

  predicate InRange(t: TensorData, c: nat, h: nat, w: nat)
  {
    c < t.channels && h < t.height && w < t.width
  }

  // ---------------------------------------------------------------- construction

  /** Tensor(channels, height, width, initValue); the two-argument-less form uses 0.0. */
  function NewTensor(channels: nat, height: nat, width: nat, initValue: real): (t: Tensor)
    ensures HasShape(t, channels, height, width)
    ensures |t.data| == channels * height * width
    ensures forall i | 0 <= i < |t.data| :: t.data[i] == initValue
  {
    TensorData(channels, height, width, seq(channels * height * width, _ => initValue))
  }

  /** Tensor(channels, height, width): a zero-filled buffer. */
  function Zeros(channels: nat, height: nat, width: nat): (t: Tensor)
    ensures HasShape(t, channels, height, width)
    ensures forall i | 0 <= i < |t.data| :: t.data[i] == 0.0
  {
    NewTensor(channels, height, width, 0.0)
  }

  /** Tensor(): the default-constructed tensor has no dimensions and no data. */
  function DefaultTensor(): (t: Tensor)
    ensures HasShape(t, 0, 0, 0) && t.data == []
  {
    TensorData(0, 0, 0, [])
  }

  // ---------------------------------------------------------------- size and index

  /** size() is the buffer length, which is the product of the dimensions. */
  function Size(t: Tensor): (n: nat)
    ensures n == t.channels * t.height * t.width
  {
    |t.data|
  }

  /** empty() holds exactly when one of the dimensions is zero. */
  function IsEmpty(t: Tensor): (b: bool)
    ensures b <==> Size(t) == 0
    ensures b <==> (t.channels == 0 || t.height == 0 || t.width == 0)
  {
    ProductPositive(t.channels, t.height, t.width);
    |t.data| == 0
  }

  lemma ProductPositive(a: nat, b: nat, c: nat)
    ensures a * b * c == 0 <==> (a == 0 || b == 0 || c == 0)
  {
    if a > 0 && b > 0 && c > 0 {
      MulLeLeft(1, a, b);
      MulLeLeft(1, a * b, c);
    }
  }

  /** The private index(c, h, w): the flat position of an in-range element. */
  function FlatIndex(t: Tensor, c: nat, h: nat, w: nat): (k: nat)
    requires InRange(t, c, h, w)
    ensures k < |t.data|
    ensures k == Index(c, h, w, t.height, t.width)
  {
    IndexBound(c, h, w, t.channels, t.height, t.width);
    Index(c, h, w, t.height, t.width)
  }

  /** operator()(c, h, w) for reading: unchecked, so callers keep the triple in range. */
  function Get(t: Tensor, c: nat, h: nat, w: nat): real
    requires InRange(t, c, h, w)
  {
    t.data[FlatIndex(t, c, h, w)]
  }

  /** operator()(c, h, w) for writing: exactly one element changes. */
  function Set(t: Tensor, c: nat, h: nat, w: nat, v: real): (r: Tensor)
    requires InRange(t, c, h, w)
    ensures SameShape(r, t)
    ensures Get(r, c, h, w) == v
    ensures forall c': nat, h': nat, w': nat | InRange(t, c', h', w') && !(c' == c && h' == h && w' == w) ::
      Get(r, c', h', w') == Get(t, c', h', w')
  {
    var r := TensorData(t.channels, t.height, t.width, t.data[FlatIndex(t, c, h, w) := v]);
    SetFrame(t, c, h, w, v, r);
    r
  }

  lemma SetFrame(t: Tensor, c: nat, h: nat, w: nat, v: real, r: Tensor)
    requires InRange(t, c, h, w)
    requires r == TensorData(t.channels, t.height, t.width, t.data[FlatIndex(t, c, h, w) := v])
    ensures forall c': nat, h': nat, w': nat | InRange(t, c', h', w') && !(c' == c && h' == h && w' == w) ::
      Get(r, c', h', w') == Get(t, c', h', w')
  {
    forall c': nat, h': nat, w': nat | InRange(t, c', h', w') && !(c' == c && h' == h && w' == w)
      ensures Get(r, c', h', w') == Get(t, c', h', w')
    {
      if FlatIndex(t, c', h', w') == FlatIndex(t, c, h, w) {
        IndexInjective(c', h', w', c, h, w, t.height, t.width);
      }
    }
  }

  /** Distinct in-range triples address distinct cells, and every cell is addressed. */
  lemma {:induction false} IndexBijection(t: Tensor, c: nat, h: nat, w: nat, c': nat, h': nat, w': nat)
    requires InRange(t, c, h, w) && InRange(t, c', h', w')
    ensures FlatIndex(t, c, h, w) == FlatIndex(t, c', h', w') <==> (c == c' && h == h' && w == w')
  {
    if FlatIndex(t, c, h, w) == FlatIndex(t, c', h', w') {
      IndexInjective(c, h, w, c', h', w', t.height, t.width);
    }
  }

  lemma {:induction false} IndexOnto(t: Tensor, k: nat)
    requires k < |t.data|
    ensures exists c, h, w | InRange(t, c, h, w) :: FlatIndex(t, c, h, w) == k
  {
    IndexSurjective(k, t.channels, t.height, t.width);
    var d := Decompose(k, t.height, t.width);
    assert InRange(t, d.0, d.1, d.2) && FlatIndex(t, d.0, d.1, d.2) == k;
  }

  /** Two tensors of one shape that agree on every element are the same tensor. */
  lemma {:induction false} Extensionality(a: Tensor, b: Tensor)
    requires SameShape(a, b)
    requires forall c: nat, h: nat, w: nat | InRange(a, c, h, w) :: Get(a, c, h, w) == Get(b, c, h, w)
    ensures a == b
  {
    forall k | 0 <= k < |a.data| ensures a.data[k] == b.data[k] {
      IndexSurjective(k, a.channels, a.height, a.width);
      var d := Decompose(k, a.height, a.width);
      assert Get(a, d.0, d.1, d.2) == Get(b, d.0, d.1, d.2);
    }
  }

  // ---------------------------------------------------------------- checked access

  /** at(c, h, w): fails with out_of_range when any coordinate is too large, otherwise agrees with operator(). */
  function At(t: Tensor, c: nat, h: nat, w: nat): (r: Result<real>)
    ensures r.Err? <==> (c >= t.channels || h >= t.height || w >= t.width)
    ensures r.Err? ==> r.error == OutOfRange("Tensor index out of range")
    ensures r.Ok? ==> InRange(t, c, h, w) && r.value == Get(t, c, h, w)
  {
    if c >= t.channels || h >= t.height || w >= t.width then
      Err(OutOfRange("Tensor index out of range"))
    else
      Ok(Get(t, c, h, w))
  }

  /** The scenario of the functional test: a 2 x 3 x 3 tensor holding 0, 1, ..., 17. */
  lemma AtScenario()
    ensures var t := TensorData(2, 3, 3, seq(18, i => i as real));
      At(t, 0, 1, 1) == Ok(4.0)
      && At(t, 10, 10, 10) == Err(OutOfRange("Tensor index out of range"))
  {
  }

  /** getChannel(c): the H * W values of channel c in row-major order; out_of_range when c >= C. */
  function GetChannel(t: Tensor, c: nat): (r: Result<seq<real>>)
    ensures r.Err? <==> c >= t.channels
    ensures r.Err? ==> r.error == OutOfRange("Channel index out of range")
    ensures r.Ok? ==> |r.value| == t.height * t.width
    ensures r.Ok? ==> forall h: nat, w: nat | h < t.height && w < t.width ::
      PlaneIndex(h, w, t.width) < |r.value| && r.value[PlaneIndex(h, w, t.width)] == Get(t, c, h, w)
  {
    if c >= t.channels then
      Err(OutOfRange("Channel index out of range"))
    else
      ChannelSliceBound(c, t.channels, t.height, t.width);
      var r := ChannelData(t, c);
      ChannelSliceAt(t, c, r);
      Ok(r)
  }

  /** The slice of the buffer holding channel c. */
  function ChannelData(t: Tensor, c: nat): (r: seq<real>)
    requires c < t.channels
    ensures |r| == t.height * t.width
  {
    ChannelSliceBound(c, t.channels, t.height, t.width);
    t.data[c * t.height * t.width .. c * t.height * t.width + t.height * t.width]
  }

  lemma ChannelSliceAt(t: Tensor, c: nat, r: seq<real>)
    requires c < t.channels
    requires r == ChannelData(t, c)
    ensures forall h: nat, w: nat | h < t.height && w < t.width ::
      PlaneIndex(h, w, t.width) < |r| && r[PlaneIndex(h, w, t.width)] == Get(t, c, h, w)
  {
    forall h: nat, w: nat | h < t.height && w < t.width
      ensures PlaneIndex(h, w, t.width) < |r| && r[PlaneIndex(h, w, t.width)] == Get(t, c, h, w)
    {
      ChannelCell(t, c, h, w, r);
    }
  }

  lemma ChannelCell(t: Tensor, c: nat, h: nat, w: nat, r: seq<real>)
    requires InRange(t, c, h, w)
    requires r == ChannelData(t, c)
    ensures PlaneIndex(h, w, t.width) < |r| && r[PlaneIndex(h, w, t.width)] == Get(t, c, h, w)
  {
    ChannelSlice(c, h, w, c, t.height, t.width);
    var lo := c * t.height * t.width;
    var k := Index(c, h, w, t.height, t.width);
    assert k - lo == PlaneIndex(h, w, t.width);
    ChannelSliceBound(c, t.channels, t.height, t.width);
    assert r[k - lo] == t.data[k];
  }

  /** setChannel(c, values): invalid_argument on a bad channel or a wrong length; otherwise
      channel c reads back as values and every other channel is unchanged. */
  function SetChannel(t: Tensor, c: nat, values: seq<real>): (r: Result<Tensor>)
    ensures r.Err? <==> (c >= t.channels || |values| != t.height * t.width)
    ensures r.Err? ==> r.error == InvalidArgument("Invalid channel data")
    ensures r.Ok? ==> SameShape(r.value, t) && GetChannel(r.value, c) == Ok(values)
    ensures r.Ok? ==> forall c': nat | c' < t.channels && c' != c :: GetChannel(r.value, c') == GetChannel(t, c')
  {
    if c >= t.channels || |values| != t.height * t.width then
      Err(InvalidArgument("Invalid channel data"))
    else
      var lo := c * t.height * t.width;
      ChannelSliceBound(c, t.channels, t.height, t.width);
      var nt: Tensor := TensorData(t.channels, t.height, t.width,
        t.data[..lo] + values + t.data[lo + t.height * t.width..]);
      SetChannelFrame(t, c, values, nt);
      Ok(nt)
  }

  lemma SetChannelFrame(t: Tensor, c: nat, values: seq<real>, nt: Tensor)
    requires c < t.channels && |values| == t.height * t.width
    requires c * t.height * t.width + t.height * t.width <= |t.data|
    requires nt == TensorData(t.channels, t.height, t.width,
      t.data[..c * t.height * t.width] + values + t.data[c * t.height * t.width + t.height * t.width..])
    ensures ChannelData(nt, c) == values
    ensures forall c': nat | c' < t.channels && c' != c :: ChannelData(nt, c') == ChannelData(t, c')
  {
    var p := t.height * t.width;
    var lo := c * t.height * t.width;
    SpliceSlices(t.data, values, lo, lo + p, lo, lo + p);
    forall c': nat | c' < t.channels && c' != c
      ensures ChannelData(nt, c') == ChannelData(t, c')
    {
      OtherChannel(t, values, nt, c, c', p, lo, c' * t.height * t.width);
    }
  }

  lemma OtherChannel(t: Tensor, values: seq<real>, nt: Tensor, c: nat, c': nat, p: nat, lo: nat, lo': nat)
    requires c < t.channels && c' < t.channels && c' != c
    requires p == t.height * t.width && lo == c * t.height * t.width && lo' == c' * t.height * t.width
    requires |values| == p && lo + p <= |t.data|
    requires nt == TensorData(t.channels, t.height, t.width, t.data[..lo] + values + t.data[lo + p..])
    ensures ChannelData(nt, c') == ChannelData(t, c')
  {
    ChannelSliceBound(c', t.channels, t.height, t.width);
    if c' < c {
      ChannelOrder(c', c, t.height, t.width);
    } else {
      ChannelOrder(c, c', t.height, t.width);
    }
    SpliceSlices(t.data, values, lo, lo + p, lo', lo' + p);
  }

  /** Splicing v over a[lo..hi] leaves every window outside [lo, hi) as it was and puts v in [lo, hi). */
  lemma SpliceSlices(a: seq<real>, v: seq<real>, lo: nat, hi: nat, x: nat, y: nat)
    requires lo <= hi <= |a| && |v| == hi - lo && x <= y <= |a|
    requires y <= lo || hi <= x || (x == lo && y == hi)
    ensures (a[..lo] + v + a[hi..])[x..y] == if x == lo && y == hi then v else a[x..y]
  {
    var s := a[..lo] + v + a[hi..];
    assert |s| == |a|;
    if x == lo && y == hi {
      assert s[x..y] == v;
    } else {
      assert forall k | x <= k < y :: s[k] == a[k];
    }
  }

  // ---------------------------------------------------------------- in-place fills

  /** fill(v): every element becomes v; the shape is unchanged. */
  method Fill(t: Tensor, v: real) returns (r: Tensor)
    ensures SameShape(r, t)
    ensures forall i | 0 <= i < |r.data| :: r.data[i] == v
  {
    var data := t.data;
    var i := 0;
    while i < |data|
      invariant 0 <= i <= |data| == |t.data|
      invariant forall k | 0 <= k < i :: data[k] == v
    {
      data := data[i := v];
      i := i + 1;
    }
    r := TensorData(t.channels, t.height, t.width, data);
  }

  /** zero() is fill(0.0). */
  method Zero(t: Tensor) returns (r: Tensor)
    ensures SameShape(r, t)
    ensures forall i | 0 <= i < |r.data| :: r.data[i] == 0.0
    ensures forall c: nat, h: nat, w: nat | InRange(r, c, h, w) :: Get(r, c, h, w) == 0.0
  {
    r := Fill(t, 0.0);
  }

  /** resize(C, H, W): new dimensions and a zero buffer of the new length. */
  method Resize(t: Tensor, channels: nat, height: nat, width: nat) returns (r: Tensor)
    ensures HasShape(r, channels, height, width)
    ensures forall i | 0 <= i < |r.data| :: r.data[i] == 0.0
  {
    var n := channels * height * width;
    var data := if n <= |t.data| then t.data[..n] else t.data + seq(n - |t.data|, _ => 0.0);
    r := TensorData(channels, height, width, data);
    r := Fill(r, 0.0);
  }

  /** xavierInit(fanIn, fanOut): invalid_argument when a fan is zero; otherwise the buffer
      is overwritten with the generator's draws, which are a parameter here. */
  function XavierInit(t: Tensor, fanIn: nat, fanOut: nat, draw: nat -> real): (r: Result<Tensor>)
    ensures r.Err? <==> (fanIn == 0 || fanOut == 0)
    ensures r.Err? ==> r.error == InvalidArgument("Xavier initialization: fanIn and fanOut must be greater than 0")
    ensures r.Ok? ==> SameShape(r.value, t) && forall i | 0 <= i < |r.value.data| :: r.value.data[i] == draw(i)
  {
    if fanIn == 0 || fanOut == 0 then
      Err(InvalidArgument("Xavier initialization: fanIn and fanOut must be greater than 0"))
    else
      var d: Tensor := TensorData(t.channels, t.height, t.width, seq(|t.data|, i requires 0 <= i => draw(i)));
      Ok(d)
  }

  /** heInit(fanIn): invalid_argument when fanIn is zero; otherwise drawn values. */
  function HeInit(t: Tensor, fanIn: nat, draw: nat -> real): (r: Result<Tensor>)
    ensures r.Err? <==> fanIn == 0
    ensures r.Err? ==> r.error == InvalidArgument("He initialization: fanIn must be greater than 0")
    ensures r.Ok? ==> SameShape(r.value, t) && forall i | 0 <= i < |r.value.data| :: r.value.data[i] == draw(i)
  {
    if fanIn == 0 then
      Err(InvalidArgument("He initialization: fanIn must be greater than 0"))
    else
      var d: Tensor := TensorData(t.channels, t.height, t.width, seq(|t.data|, i requires 0 <= i => draw(i)));
      Ok(d)
  }

  /** The functional test's guard case: xavierInit(0, 10) on a 10 x 10 x 10 tensor throws. */
  lemma XavierZeroFanScenario(draw: nat -> real)
    ensures XavierInit(Zeros(10, 10, 10), 0, 10, draw).Err?
  {
  }

  // ---------------------------------------------------------------- arithmetic

  /** operator+= (and operator+, which copies then adds): element-wise sum, shape of the receiver.
      The loop reads other's buffer up to the receiver's length, so that is all it needs. */
  method Add(t: Tensor, other: Tensor) returns (r: Tensor)
    requires |t.data| <= |other.data|
    ensures SameShape(r, t)
    ensures forall i | 0 <= i < |r.data| :: r.data[i] == t.data[i] + other.data[i]
  {
    var data := t.data;
    var i := 0;
    while i < |data|
      invariant 0 <= i <= |data| == |t.data|
      invariant forall k | 0 <= k < |data| :: data[k] == if k < i then t.data[k] + other.data[k] else t.data[k]
    {
      data := data[i := data[i] + other.data[i]];
      i := i + 1;
    }
    r := TensorData(t.channels, t.height, t.width, data);
  }

  /** operator-= (and operator-): element-wise difference. */
  method Subtract(t: Tensor, other: Tensor) returns (r: Tensor)
    requires |t.data| <= |other.data|
    ensures SameShape(r, t)
    ensures forall i | 0 <= i < |r.data| :: r.data[i] == t.data[i] - other.data[i]
  {
    var data := t.data;
    var i := 0;
    while i < |data|
      invariant 0 <= i <= |data| == |t.data|
      invariant forall k | 0 <= k < |data| :: data[k] == if k < i then t.data[k] - other.data[k] else t.data[k]
    {
      data := data[i := data[i] - other.data[i]];
      i := i + 1;
    }
    r := TensorData(t.channels, t.height, t.width, data);
  }

  /** operator*= (and operator*): every element scaled. */
  method Scale(t: Tensor, scalar: real) returns (r: Tensor)
    ensures SameShape(r, t)
    ensures forall i | 0 <= i < |r.data| :: r.data[i] == t.data[i] * scalar
  {
    var data := t.data;
    var i := 0;
    while i < |data|
      invariant 0 <= i <= |data| == |t.data|
      invariant forall k | 0 <= k < |data| :: data[k] == if k < i then t.data[k] * scalar else t.data[k]
    {
      data := data[i := data[i] * scalar];
      i := i + 1;
    }
    r := TensorData(t.channels, t.height, t.width, data);
  }

  /** Adding then subtracting the same tensor gives back the receiver. */
  method AddThenSubtract(t: Tensor, other: Tensor) returns (r: Tensor)
    requires SameShape(t, other)
    ensures r == t
  {
    var s := Add(t, other);
    r := Subtract(s, other);
    assert r.data == t.data;
  }

  /** apply(f) (and map(f), which copies then applies): f on every element. */
  method Apply(t: Tensor, f: real -> real) returns (r: Tensor)
    ensures SameShape(r, t)
    ensures forall i | 0 <= i < |r.data| :: r.data[i] == f(t.data[i])
  {
    var data := t.data;
    var i := 0;
    while i < |data|
      invariant 0 <= i <= |data| == |t.data|
      invariant forall k | 0 <= k < |data| :: data[k] == if k < i then f(t.data[k]) else t.data[k]
    {
      data := data[i := f(data[i])];
      i := i + 1;
    }
    r := TensorData(t.channels, t.height, t.width, data);
  }

  // ---------------------------------------------------------------- statistics

  /** std::accumulate from 0.0: a left fold of +. */
  function SumSeq(s: seq<real>): real
  {
    if s == [] then 0.0 else SumSeq(s[..|s| - 1]) + s[|s| - 1]
  }

  lemma {:induction false} SumSeqAppend(a: seq<real>, b: seq<real>)
    ensures SumSeq(a + b) == SumSeq(a) + SumSeq(b)
  {
    if b != [] {
      assert (a + b)[..|a + b| - 1] == a + b[..|b| - 1];
      SumSeqAppend(a, b[..|b| - 1]);
    } else {
      assert a + b == a;
    }
  }

  /** Overwriting one element changes the total by the difference. */
  lemma {:induction false} SumSeqUpdate(s: seq<real>, k: nat, v: real)
    requires k < |s|
    ensures SumSeq(s[k := v]) == SumSeq(s) - s[k] + v
  {
    var n := |s| - 1;
    if k == n {
      assert s[k := v][..n] == s[..n];
    } else {
      assert s[k := v][..n] == s[..n][k := v];
      SumSeqUpdate(s[..n], k, v);
    }
  }

  /** Extending a prefix by one element adds that element. */
  lemma SumSeqPrefix(s: seq<real>, i: nat)
    requires i < |s|
    ensures SumSeq(s[..i + 1]) == SumSeq(s[..i]) + s[i]
  {
    assert s[..i + 1][..i] == s[..i];
  }

  /** Sum of the first n elements (all of them when n is past the end). */
  function SumPrefix(s: seq<real>, n: nat): real
  {
    SumSeq(s[..if n <= |s| then n else |s|])
  }

  lemma SumPrefixStep(s: seq<real>, i: nat)
    requires i < |s|
    ensures SumPrefix(s, i + 1) == SumPrefix(s, i) + s[i]
  {
    SumSeqPrefix(s, i);
  }

  lemma SumPrefixAll(s: seq<real>)
    ensures SumPrefix(s, |s|) == SumSeq(s)
  {
    assert s[..|s|] == s;
  }

  /** operator()(c, h, w) = v changes the tensor's sum by v - old value. */
  lemma SetSum(t: Tensor, c: nat, h: nat, w: nat, v: real)
    requires InRange(t, c, h, w)
    ensures Sum(Set(t, c, h, w, v)) == Sum(t) - Get(t, c, h, w) + v
  {
    SumSeqUpdate(t.data, FlatIndex(t, c, h, w), v);
  }

  /** A buffer of n copies of v sums to n * v. */
  lemma {:induction false} SumSeqConstant(s: seq<real>, v: real)
    requires forall i | 0 <= i < |s| :: s[i] == v
    ensures SumSeq(s) == |s| as real * v
  {
    if s != [] {
      SumSeqConstant(s[..|s| - 1], v);
    }
  }

  function Sum(t: Tensor): real
  {
    SumSeq(t.data)
  }

  /** mean(): 0 on an empty buffer, otherwise the sum shared over the elements. */
  function Mean(t: Tensor): (m: real)
    ensures |t.data| == 0 ==> m == 0.0
    ensures |t.data| > 0 ==> m * |t.data| as real == Sum(t)
  {
    if |t.data| == 0 then 0.0 else Sum(t) / |t.data| as real
  }

  /** The mean of a tensor filled with v is v. */
  lemma MeanOfFilled(t: Tensor, v: real)
    requires |t.data| > 0
    requires forall i | 0 <= i < |t.data| :: t.data[i] == v
    ensures Mean(t) == v
  {
    SumSeqConstant(t.data, v);
  }

  function MaxSeq(s: seq<real>): (m: real)
    requires s != []
    ensures m in s
    ensures forall i | 0 <= i < |s| :: s[i] <= m
  {
    if |s| == 1 then s[0]
    else
      var m' := MaxSeq(s[..|s| - 1]);
      assert forall i | 0 <= i < |s| - 1 :: s[i] == s[..|s| - 1][i];
      if m' < s[|s| - 1] then s[|s| - 1] else m'
  }

  function MinSeq(s: seq<real>): (m: real)
    requires s != []
    ensures m in s
    ensures forall i | 0 <= i < |s| :: m <= s[i]
  {
    if |s| == 1 then s[0]
    else
      var m' := MinSeq(s[..|s| - 1]);
      assert forall i | 0 <= i < |s| - 1 :: s[i] == s[..|s| - 1][i];
      if s[|s| - 1] < m' then s[|s| - 1] else m'
  }

  /** max(): 0 on an empty buffer, otherwise an element that no element exceeds. */
  function Max(t: Tensor): (m: real)
    ensures |t.data| == 0 ==> m == 0.0
    ensures |t.data| > 0 ==> m in t.data && forall i | 0 <= i < |t.data| :: t.data[i] <= m
  {
    if |t.data| == 0 then 0.0 else MaxSeq(t.data)
  }

  /** min(): 0 on an empty buffer, otherwise an element that exceeds no element. */
  function Min(t: Tensor): (m: real)
    ensures |t.data| == 0 ==> m == 0.0
    ensures |t.data| > 0 ==> m in t.data && forall i | 0 <= i < |t.data| :: m <= t.data[i]
  {
    if |t.data| == 0 then 0.0 else MinSeq(t.data)
  }

  // ---------------------------------------------------------------- flatten and padding

  /** flatten(): the buffer itself, so element (c, h, w) sits at c*H*W + h*W + w. */
  function Flatten(t: Tensor): (v: seq<real>)
    ensures |v| == Size(t)
    ensures forall c: nat, h: nat, w: nat | InRange(t, c, h, w) :: v[FlatIndex(t, c, h, w)] == Get(t, c, h, w)
  {
    t.data
  }

  /** fromVector(vec, C, H, W): invalid_argument unless vec has C*H*W values; then vec is the buffer. */
  function FromVector(vec: seq<real>, channels: nat, height: nat, width: nat): (r: Result<Tensor>)
    ensures r.Err? <==> |vec| != channels * height * width
    ensures r.Err? ==> r.error == InvalidArgument("Vector size mismatch")
    ensures r.Ok? ==> HasShape(r.value, channels, height, width) && Flatten(r.value) == vec
  {
    if |vec| != channels * height * width then Err(InvalidArgument("Vector size mismatch"))
    else
      var t: Tensor := TensorData(channels, height, width, vec);
      Ok(t)
  }

  /** fromVector(t.flatten(), C, H, W) rebuilds t. */
  lemma FlattenRoundTrip(t: Tensor)
    ensures FromVector(Flatten(t), t.channels, t.height, t.width) == Ok(t)
  {
  }

  /** The value pad(ph, pw, v) puts at (c, y, x): the source element inside, v on the border. */
  function PadCell(t: Tensor, ph: nat, pw: nat, v: real, c: nat, y: nat, x: nat): real
    requires c < t.channels
  {
    if ph <= y < ph + t.height && pw <= x < pw + t.width then Get(t, c, y - ph, x - pw) else v
  }

  /** r is t padded by ph rows and pw columns of v on each side. */
  ghost predicate IsPadding(t: Tensor, ph: nat, pw: nat, v: real, r: Tensor)
  {
    HasShape(r, t.channels, t.height + 2 * ph, t.width + 2 * pw)
    && forall c: nat, y: nat, x: nat | InRange(r, c, y, x) :: Get(r, c, y, x) == PadCell(t, ph, pw, v, c, y, x)
  }

  /** Cells of the source written so far by pad's loops, in (c, h, w) scan order. */
  predicate Scanned(c': nat, h': int, w': int, c: nat, h: nat, w: nat)
  {
    c' < c || (c' == c && (h' < h || (h' == h && w' < w)))
  }

  ghost predicate PadInvariant(t: Tensor, ph: nat, pw: nat, v: real, r: Tensor, c: nat, h: nat, w: nat)
  {
    HasShape(r, t.channels, t.height + 2 * ph, t.width + 2 * pw)
    && forall c': nat, y: nat, x: nat | InRange(r, c', y, x) ::
      Get(r, c', y, x) == if Scanned(c', y - ph, x - pw, c, h, w) then PadCell(t, ph, pw, v, c', y, x) else v
  }

  /** pad(ph, pw, v): a (C, H + 2ph, W + 2pw) tensor with t in the interior and v on the border. */
  method Pad(t: Tensor, ph: nat, pw: nat, v: real) returns (r: Tensor)
    ensures IsPadding(t, ph, pw, v, r)
  {
    r := NewTensor(t.channels, t.height + 2 * ph, t.width + 2 * pw, v);
    var c := 0;
    while c < t.channels
      invariant c <= t.channels
      invariant PadInvariant(t, ph, pw, v, r, c, 0, 0)
    {
      var h := 0;
      while h < t.height
        invariant h <= t.height
        invariant PadInvariant(t, ph, pw, v, r, c, h, 0)
      {
        var w := 0;
        while w < t.width
          invariant w <= t.width
          invariant PadInvariant(t, ph, pw, v, r, c, h, w)
        {
          r := Set(r, c, h + ph, w + pw, Get(t, c, h, w));
          w := w + 1;
        }
        h := h + 1;
      }
      c := c + 1;
    }
  }

  /** Padding by nothing changes nothing (hence pad(h, w).pad(0, 0) == pad(h, w)). */
  lemma {:induction false} PadNothingIsIdentity(t: Tensor, v: real, r: Tensor)
    requires IsPadding(t, 0, 0, v, r)
    ensures r == t
  {
    Extensionality(r, t);
  }

  /** The padding of a tensor is unique, so pad is a function of its arguments. */
  lemma {:induction false} PaddingUnique(t: Tensor, ph: nat, pw: nat, v: real, r1: Tensor, r2: Tensor)
    requires IsPadding(t, ph, pw, v, r1) && IsPadding(t, ph, pw, v, r2)
    ensures r1 == r2
  {
    Extensionality(r1, r2);
  }

  /** The padding scenario: Tensor(1, 2, 2, 1.0).pad(1, 1, 0.0) is 1 x 4 x 4, 1.0 in the
      central 2 x 2 block and 0.0 elsewhere. */
  lemma PadScenario(r: Tensor)
    requires IsPadding(NewTensor(1, 2, 2, 1.0), 1, 1, 0.0, r)
    ensures HasShape(r, 1, 4, 4)
    ensures forall y: nat, x: nat | y < 4 && x < 4 :: Get(r, 0, y, x) == if 1 <= y <= 2 && 1 <= x <= 2 then 1.0 else 0.0
  {
    var t := NewTensor(1, 2, 2, 1.0);
    forall y: nat, x: nat | y < 4 && x < 4
      ensures Get(r, 0, y, x) == if 1 <= y <= 2 && 1 <= x <= 2 then 1.0 else 0.0
    {
      assert Get(r, 0, y, x) == PadCell(t, 1, 1, 0.0, 0, y, x);
    }
  }

  /** The value pad(p, p, 0.0) returns, written as a function of t: what the layers that
      pad their input read. */
  function Padded(t: Tensor, p: nat): (r: Tensor)
    ensures IsPadding(t, p, p, 0.0, r)
  {
    var height := t.height + 2 * p;
    var width := t.width + 2 * p;
    var n := t.channels * height * width;
    var r: Tensor := TensorData(t.channels, height, width, seq(n, k requires 0 <= k < n => PaddedAt(t, p, k)));
    PaddedCells(t, p, r);
    r
  }

  function PaddedAt(t: Tensor, p: nat, k: nat): real
    requires k < t.channels * (t.height + 2 * p) * (t.width + 2 * p)
  {
    IndexSurjective(k, t.channels, t.height + 2 * p, t.width + 2 * p);
    var d := Decompose(k, t.height + 2 * p, t.width + 2 * p);
    PadCell(t, p, p, 0.0, d.0, d.1, d.2)
  }

  lemma PaddedCells(t: Tensor, p: nat, r: Tensor)
    requires HasShape(r, t.channels, t.height + 2 * p, t.width + 2 * p)
    requires forall k | 0 <= k < |r.data| :: r.data[k] == PaddedAt(t, p, k)
    ensures IsPadding(t, p, p, 0.0, r)
  {
    forall c: nat, y: nat, x: nat | InRange(r, c, y, x)
      ensures Get(r, c, y, x) == PadCell(t, p, p, 0.0, c, y, x)
    {
      var k := FlatIndex(r, c, y, x);
      IndexSurjective(k, r.channels, r.height, r.width);
      var d := Decompose(k, r.height, r.width);
      IndexInjective(d.0, d.1, d.2, c, y, x, r.height, r.width);
    }
  }

  /** What Pad returns is Padded, and padding by nothing returns the tensor itself. */
  lemma {:induction false} PadIsPadded(t: Tensor, p: nat, r: Tensor)
    requires IsPadding(t, p, p, 0.0, r)
    ensures r == Padded(t, p)
    ensures Padded(t, 0) == t
  {
    PaddingUnique(t, p, p, 0.0, r, Padded(t, p));
    PadNothingIsIdentity(t, 0.0, Padded(t, 0));
  }

  // ---------------------------------------------------------------- cell-by-cell writes

  /** The invariant of a (c, h, w) loop that writes f's value into every cell: the cells
      scanned before (c, h, w) hold it, the others still hold init's. */
  ghost predicate FilledUpTo(r: Tensor, init: Tensor, f: (nat, nat, nat) -> real, c: nat, h: nat, w: nat)
  {
    SameShape(r, init)
    && forall c': nat, h': nat, w': nat | InRange(r, c', h', w') ::
      Get(r, c', h', w') == if Scanned(c', h', w', c, h, w) then f(c', h', w') else Get(init, c', h', w')
  }

  lemma FillCell(r: Tensor, init: Tensor, f: (nat, nat, nat) -> real, c: nat, h: nat, w: nat)
    requires FilledUpTo(r, init, f, c, h, w) && InRange(r, c, h, w)
    ensures FilledUpTo(Set(r, c, h, w, f(c, h, w)), init, f, c, h, w + 1)
  {
  }

  lemma FillRow(r: Tensor, init: Tensor, f: (nat, nat, nat) -> real, c: nat, h: nat)
    requires FilledUpTo(r, init, f, c, h, r.width)
    ensures FilledUpTo(r, init, f, c, h + 1, 0)
  {
  }

  lemma FillChannel(r: Tensor, init: Tensor, f: (nat, nat, nat) -> real, c: nat)
    requires FilledUpTo(r, init, f, c, r.height, 0)
    ensures FilledUpTo(r, init, f, c + 1, 0, 0)
  {
  }

  lemma FillComplete(r: Tensor, init: Tensor, f: (nat, nat, nat) -> real)
    requires FilledUpTo(r, init, f, r.channels, 0, 0)
    ensures forall c: nat, h: nat, w: nat | InRange(r, c, h, w) :: Get(r, c, h, w) == f(c, h, w)
  {
  }

  /** A (c, h, w) loop that writes f(c, h, w) into every cell of t, as the layers' element-wise
      loops do. */
  method Tabulate(t: Tensor, f: (nat, nat, nat) -> real) returns (r: Tensor)
    ensures SameShape(r, t)
    ensures forall c: nat, h: nat, w: nat | InRange(r, c, h, w) :: Get(r, c, h, w) == f(c, h, w)
  {
    r := t;
    for c := 0 to t.channels
      invariant FilledUpTo(r, t, f, c, 0, 0)
    {
      for h := 0 to t.height
        invariant FilledUpTo(r, t, f, c, h, 0)
      {
        for w := 0 to t.width
          invariant FilledUpTo(r, t, f, c, h, w)
        {
          FillCell(r, t, f, c, h, w);
          r := Set(r, c, h, w, f(c, h, w));
        }
        FillRow(r, t, f, c, h);
      }
      FillChannel(r, t, f, c);
    }
  }
}
