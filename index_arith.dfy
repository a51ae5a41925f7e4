/**
 * Closed-form index arithmetic shared by the tensor and the dense layers:
 * the channel-major flat position of an element (c, h, w) of a C x H x W
 * buffer, and the row-major position of a weight (out, in).
 */
module IndexArith {

  /** Flat position of (c, h, w) in a buffer with H rows and W columns per channel. */
  function Index(c: nat, h: nat, w: nat, height: nat, width: nat): nat
  {
    c * height * width + h * width + w
  }

  lemma MulLeLeft(a: nat, b: nat, k: nat)
    requires a <= b
    ensures a * k <= b * k
  {
    assert b * k - a * k == (b - a) * k;
  }

  /** q * p + r is a unique quotient/remainder decomposition when 0 <= r < p. */
  lemma QuotRemUnique(q: nat, r: nat, q': nat, r': nat, p: nat)
    requires r < p && r' < p
    requires q * p + r == q' * p + r'
    ensures q == q' && r == r'
  {
    if q < q' {
      MulLeLeft(q + 1, q', p);
      assert false;
    } else if q' < q {
      MulLeLeft(q' + 1, q, p);
      assert false;
    }
  }

  /** Offset of (h, w) inside one channel is below H * W. */
  lemma RowColBound(h: nat, w: nat, height: nat, width: nat)
    requires h < height && w < width
    ensures h * width + w < height * width
  {
    MulLeLeft(h + 1, height, width);
  }

  lemma IndexSplit(c: nat, h: nat, w: nat, height: nat, width: nat)
    ensures Index(c, h, w, height, width) == c * (height * width) + (h * width + w)
  {
    assert c * height * width == c * (height * width);
  }

  /** In-range elements land strictly inside the buffer. */
  lemma IndexBound(c: nat, h: nat, w: nat, channels: nat, height: nat, width: nat)
    requires c < channels && h < height && w < width
    ensures Index(c, h, w, height, width) < channels * height * width
  {
    RowColBound(h, w, height, width);
    IndexSplit(c, h, w, height, width);
    MulLeLeft(c + 1, channels, height * width);
    assert channels * height * width == channels * (height * width);
  }

  /** Distinct in-range triples have distinct flat positions. */
  lemma IndexInjective(c: nat, h: nat, w: nat, c': nat, h': nat, w': nat, height: nat, width: nat)
    requires h < height && w < width && h' < height && w' < width
    requires Index(c, h, w, height, width) == Index(c', h', w', height, width)
    ensures c == c' && h == h' && w == w'
  {
    var p, o, o' := height * width, h * width + w, h' * width + w';
    RowColBound(h, w, height, width);
    RowColBound(h', w', height, width);
    IndexSplit(c, h, w, height, width);
    IndexSplit(c', h', w', height, width);
    assert c * p + o == c' * p + o';
    QuotRemUnique(c, o, c', o', p);
    QuotRemUnique(h, w, h', w', width);
  }

  lemma DivBelow(r: nat, q: nat, d: nat)
    requires d > 0 && r < q * d
    ensures r / d < q
  {
    if r / d >= q {
      MulLeLeft(q, r / d, d);
      assert false;
    }
  }

  /** The channel, row and column of flat position k. */
  function Decompose(k: nat, height: nat, width: nat): (t: (nat, nat, nat))
    requires height > 0 && width > 0
  {
    var p := height * width;
    (k / p, (k % p) / width, (k % p) % width)
  }

  /** Every position below C * H * W is the index of exactly one in-range triple. */
  lemma IndexSurjective(k: nat, channels: nat, height: nat, width: nat)
    requires k < channels * height * width
    ensures height > 0 && width > 0
    ensures var t := Decompose(k, height, width);
      t.0 < channels && t.1 < height && t.2 < width && Index(t.0, t.1, t.2, height, width) == k
  {
    if height == 0 || width == 0 {
      assert false;
    } else {
      var p := height * width;
      assert channels * height * width == channels * p;
      var t := Decompose(k, height, width);
      DivBelow(k, channels, p);
      DivBelow(k % p, height, width);
      IndexSplit(t.0, t.1, t.2, height, width);
    }
  }

  /** Stepping the column past the last one is stepping to the next row. */
  lemma NextRow(h: nat, width: nat)
    ensures h * width + width == (h + 1) * width
  {
  }

  lemma NextChannel(c: nat, height: nat, width: nat)
    ensures c * height * width + height * width == (c + 1) * height * width
  {
  }

  /** Weight (out, in) of a dense layer lives at out * inputSize + in. */
  function WeightIndex(o: nat, i: nat, inputSize: nat): nat
  {
    o * inputSize + i
  }

  lemma WeightIndexBound(o: nat, i: nat, outputSize: nat, inputSize: nat)
    requires o < outputSize && i < inputSize
    ensures WeightIndex(o, i, inputSize) < outputSize * inputSize
  {
    MulLeLeft(o + 1, outputSize, inputSize);
  }

  lemma WeightIndexInjective(o: nat, i: nat, o': nat, i': nat, inputSize: nat)
    requires i < inputSize && i' < inputSize
    requires WeightIndex(o, i, inputSize) == WeightIndex(o', i', inputSize)
    ensures o == o' && i == i'
  {
    QuotRemUnique(o, i, o', i', inputSize);
  }

  /** Flat weight position k of an out x in matrix is row k / in, column k % in. */
  lemma WeightIndexSplit(k: nat, outputSize: nat, inputSize: nat)
    requires k < outputSize * inputSize
    ensures inputSize > 0 && k / inputSize < outputSize && k % inputSize < inputSize
    ensures WeightIndex(k / inputSize, k % inputSize, inputSize) == k
  {
    if inputSize == 0 {
      assert false;
    } else {
      DivBelow(k, outputSize, inputSize);
    }
  }

  /** Row and column are recovered from the flat position. */
  lemma WeightIndexParts(o: nat, i: nat, inputSize: nat)
    requires i < inputSize
    ensures WeightIndex(o, i, inputSize) / inputSize == o && WeightIndex(o, i, inputSize) % inputSize == i
  {
    var k := WeightIndex(o, i, inputSize);
    QuotRemUnique(o, i, k / inputSize, k % inputSize, inputSize);
  }

  /** (a / s) * s never exceeds a, so a window start oh * s with oh <= (a / s) stays within a. */
  lemma StrideBound(oh: nat, a: nat, s: nat)
    requires s > 0 && oh <= a / s
    ensures oh * s <= a
  {
    MulLeLeft(oh, a / s, s);
  }

  /** Element (c', h, w) falls in the slice of channel c exactly when c' == c. */
  lemma ChannelSlice(c': nat, h: nat, w: nat, c: nat, height: nat, width: nat)
    requires h < height && w < width
    ensures var k := Index(c', h, w, height, width);
      var lo := c * height * width;
      (lo <= k < lo + height * width <==> c' == c) && (c' == c ==> k - lo == h * width + w)
  {
    RowColBound(h, w, height, width);
    IndexSplit(c', h, w, height, width);
    assert c * height * width == c * (height * width);
    if c' < c {
      MulLeLeft(c' + 1, c, height * width);
    } else if c < c' {
      MulLeLeft(c + 1, c', height * width);
    }
  }

  /** The slice of channel c ends inside the buffer. */
  lemma ChannelSliceBound(c: nat, channels: nat, height: nat, width: nat)
    requires c < channels
    ensures c * height * width + height * width <= channels * height * width
  {
    MulLeLeft(c + 1, channels, height * width);
    assert c * height * width == c * (height * width);
    assert channels * height * width == channels * (height * width);
  }

  /** Row-major position of (h, w) within one channel. */
  function PlaneIndex(h: nat, w: nat, width: nat): nat
  {
    h * width + w
  }

  /** Channels are laid out one after the other: channel c' < c ends where c's slice may begin. */
  lemma ChannelOrder(c': nat, c: nat, height: nat, width: nat)
    requires c' < c
    ensures c' * height * width + height * width <= c * height * width
  {
    MulLeLeft(c' + 1, c, height * width);
    assert c' * height * width == c' * (height * width);
    assert c * height * width == c * (height * width);
  }

  /** n windows of size p at stride s fit in a length, and an (n+1)-th would not. */
  predicate WindowCount(n: nat, length: nat, p: nat, s: nat)
  {
    n >= 1 && (n - 1) * s + p <= length < n * s + p
  }

  /** How many whole steps of s fit in a, counted by repeated subtraction: a / s (see
      StepsIsQuotient). The solver unfolds it one step at a time. */
  function Steps(a: nat, s: nat): nat
    requires s > 0
    decreases a
  {
    if a < s then 0 else 1 + Steps(a - s, s)
  }

  lemma {:induction false} StepsBounds(a: nat, s: nat)
    requires s > 0
    ensures Steps(a, s) * s <= a < Steps(a, s) * s + s
    decreases a
  {
    if a >= s {
      StepsBounds(a - s, s);
      assert Steps(a, s) * s == Steps(a - s, s) * s + s;
    }
  }

  /** The step count is integer division. */
  lemma StepsIsQuotient(a: nat, s: nat)
    requires s > 0
    ensures Steps(a, s) == a / s
  {
    StepsBounds(a, s);
    QuotRemUnique(Steps(a, s), a - Steps(a, s) * s, a / s, a % s, s);
  }

  /** (length - p) / s + 1 windows of size p at stride s fit in a length p or longer. */
  lemma WindowCountFormula(length: nat, p: nat, s: nat)
    requires s > 0 && p <= length
    ensures WindowCount(Steps(length - p, s) + 1, length, p, s)
  {
    var q := Steps(length - p, s);
    StepsBounds(length - p, s);
    assert (q + 1) * s == q * s + s;
  }

  /** Every window allowed by the formula lies inside the input, so the in-bounds
      guards of forward and backward never skip a cell. */
  lemma {:induction false} WindowInside(o: nat, n: nat, length: nat, p: nat, s: nat, k: nat)
    requires WindowCount(n, length, p, s) && o < n && k < p
    ensures o * s + k < length
  {
    MulLeLeft(o, n - 1, s);
  }
}
