/**
 * The pooling layer (include/cnn/pooling_layer.h, src/cnn/pooling_layer.cpp):
 * max or average pooling over p x p windows whose top-left corners sit at
 * (oh * s, ow * s). Max pooling records, per output cell, the input cell the
 * maximum came from, and routes the gradient back to it; average pooling
 * spreads each gradient evenly over its window.
 */
module PoolingLayers {
  import opened IndexArith
  import opened Errors
  import opened Tensors
  import opened LayerTypes

  datatype PoolingType = Max | Average

  /** The constructor's default pool type. */
  const DefaultPoolingType: PoolingType := PoolingType.Max

  /** std::numeric_limits<double>::lowest(), the starting value of the running maximum. */
  const Lowest: real := -179769313486231570814527423731704356798070567525844996598917476803157260780028538760589558632766878171540458953514382464234321326889464182768467546703537516986049910576551282076245490090389328944075868508455133942304583236903222948165808559332123348274797826204144723168738177180919299881250404026184124858368.0

  // ------------------------------------------------------------------ output size

  /** The error of computeOutputSize()'s last guard, which the earlier checks make unreachable. */
  const InvalidOutputSize: Result<(nat, nat)> := Err(InvalidArgument("PoolingLayer: invalid output size"))

  /** computeOutputSize(): the non-positive-size check, the too-large check and the
      integer formula (in - p) / s + 1 for both dimensions. */
  function ComputeOutputSize(inH: nat, inW: nat, p: nat, s: nat): (r: Result<(nat, nat)>)
    ensures r.Err? <==> (p == 0 || s == 0 || inH < p || inW < p)
    ensures r.Ok? ==> r.value.0 >= 1 && r.value.1 >= 1
    ensures r.Ok? ==> WindowCount(r.value.0, inH, p, s) && WindowCount(r.value.1, inW, p, s)
  {
    if p == 0 || s == 0 then
      Result<(nat, nat)>.Err(InvalidArgument("PoolingLayer: poolSize and stride must be greater than 0"))
    else if inH < p || inW < p then
      Result<(nat, nat)>.Err(InvalidArgument("PoolingLayer: poolSize too large for input size"))
    else
      var outH := Steps(inH - p, s) + 1;
      var outW := Steps(inW - p, s) + 1;
      if outH <= 0 || outW <= 0 then
        InvalidOutputSize
      else
        WindowCountFormula(inH, p, s);
        WindowCountFormula(inW, p, s);
        Ok((outH, outW))
  }

  /** The constructor's checks, in order, followed by computeOutputSize(). */
  function PoolingConfig(inH: nat, inW: nat, p: nat, s: nat): (r: Result<(nat, nat)>)
    ensures r.Err? <==> (p == 0 || s == 0 || inH < p || inW < p)
    ensures p == 0 ==> r == Err(InvalidArgument("PoolingLayer: poolSize must be greater than 0"))
    ensures p > 0 && s == 0 ==> r == Err(InvalidArgument("PoolingLayer: stride must be greater than 0"))
    ensures p > 0 && s > 0 && (inH < p || inW < p) ==>
      r == Err(InvalidArgument("PoolingLayer: poolSize too large for input size"))
    ensures r.Ok? ==> WindowCount(r.value.0, inH, p, s) && WindowCount(r.value.1, inW, p, s)
  {
    if p == 0 then Err(InvalidArgument("PoolingLayer: poolSize must be greater than 0"))
    else if s == 0 then Err(InvalidArgument("PoolingLayer: stride must be greater than 0"))
    else ComputeOutputSize(inH, inW, p, s)
  }

  /** The functional test's layers: a 2x2 stride-2 pool on a 28x28 input gives 14x14,
      one on 13x13 gives 6x6, and a 3x3 pool is too large for a 2x2 input. */
  lemma OutputSizeScenarios()
    ensures PoolingConfig(28, 28, 2, 2) == Ok((14, 14))
    ensures PoolingConfig(13, 13, 2, 2) == Ok((6, 6))
    ensures PoolingConfig(2, 2, 3, 1).Err?
  {
    StepsIsQuotient(26, 2);
    StepsIsQuotient(11, 2);
  }

  /** computeOutputSize(): each output side is (in - poolSize) / stride + 1. */
  lemma PoolOutputFormula(inH: nat, inW: nat, p: nat, s: nat)
    requires PoolingConfig(inH, inW, p, s).Ok?
    ensures PoolingConfig(inH, inW, p, s).value == ((inH - p) / s + 1, (inW - p) / s + 1)
  {
    StepsIsQuotient(inH - p, s);
    StepsIsQuotient(inW - p, s);
  }

  // ------------------------------------------------------------------ max windows

  predicate InWindow(ih: nat, iw: nat, sh: nat, sw: nat, p: nat)
  {
    sh <= ih < sh + p && sw <= iw < sw + p
  }

  /** Row-major scan order on cells: (ih, iw) comes before (eh, ew). */
  predicate CellBefore(ih: nat, iw: nat, eh: nat, ew: nat)
  {
    ih < eh || (ih == eh && iw < ew)
  }

  /** The state of the max scan of channel c's window at (sh, sw) once every window cell
      before (eh, ew) has been visited: val bounds every visited valid cell; it is
      Lowest and the record is the window's corner when no visited cell exceeded
      Lowest; otherwise the record is a visited cell holding val, and every visited
      cell before the record is strictly smaller, because only a strict > updates. */
  ghost predicate MaxSoFar(t: Tensor, c: nat, sh: nat, sw: nat, p: nat, eh: nat, ew: nat,
                           val: real, mh: nat, mw: nat)
  {
    Lowest <= val
    && (forall ih: nat, iw: nat | InRange(t, c, ih, iw) && InWindow(ih, iw, sh, sw, p) && CellBefore(ih, iw, eh, ew) ::
          Get(t, c, ih, iw) <= val)
    && (val == Lowest ==> mh == sh && mw == sw)
    && (val != Lowest ==>
          InRange(t, c, mh, mw) && InWindow(mh, mw, sh, sw, p) && CellBefore(mh, mw, eh, ew)
          && Get(t, c, mh, mw) == val
          && forall ih: nat, iw: nat | InRange(t, c, ih, iw) && InWindow(ih, iw, sh, sw, p) && CellBefore(ih, iw, mh, mw) ::
               Get(t, c, ih, iw) < val)
  }

  /** The result of scanning the whole window. */
  ghost predicate IsWindowMax(t: Tensor, c: nat, sh: nat, sw: nat, p: nat, val: real, cell: (nat, nat))
  {
    MaxSoFar(t, c, sh, sw, p, sh + p, sw, val, cell.0, cell.1)
  }

  /** The window maximum and its record are determined by the window: the record is the
      first maximal cell in row-major order (or the corner when nothing exceeds Lowest). */
  lemma {:induction false} WindowMaxUnique(t: Tensor, c: nat, sh: nat, sw: nat, p: nat,
                                           v1: real, cell1: (nat, nat), v2: real, cell2: (nat, nat))
    requires IsWindowMax(t, c, sh, sw, p, v1, cell1) && IsWindowMax(t, c, sh, sw, p, v2, cell2)
    ensures v1 == v2 && cell1 == cell2
  {
    if v1 != Lowest {
      assert Get(t, c, cell1.0, cell1.1) <= v2;
    }
    if v2 != Lowest {
      assert Get(t, c, cell2.0, cell2.1) <= v1;
    }
  }

  /** Any valid window cell above Lowest bounds the maximum from below, and then the
      record is a valid window cell holding the maximum. */
  lemma WindowMaxAttained(t: Tensor, c: nat, sh: nat, sw: nat, p: nat, val: real, cell: (nat, nat), ih: nat, iw: nat)
    requires IsWindowMax(t, c, sh, sw, p, val, cell)
    requires InRange(t, c, ih, iw) && InWindow(ih, iw, sh, sw, p) && Get(t, c, ih, iw) > Lowest
    ensures val >= Get(t, c, ih, iw) && InRange(t, c, cell.0, cell.1) && InWindow(cell.0, cell.1, sh, sw, p)
    ensures Get(t, c, cell.0, cell.1) == val
  {
  }

  /** The record of a window whose corner is valid is a valid cell. */
  lemma RecordInRange(t: Tensor, c: nat, sh: nat, sw: nat, p: nat, val: real, cell: (nat, nat))
    requires IsWindowMax(t, c, sh, sw, p, val, cell) && sh < t.height && sw < t.width
    ensures cell.0 < t.height && cell.1 < t.width
  {
  }

  /** One visit of the scan: a valid cell strictly above the running maximum replaces it. */
  function MaxStep(t: Tensor, c: nat, ih: nat, iw: nat, acc: (real, nat, nat)): (real, nat, nat)
  {
    if InRange(t, c, ih, iw) && Get(t, c, ih, iw) > acc.0 then (Get(t, c, ih, iw), ih, iw) else acc
  }

  /** The scan of cells (ih, sw), ..., (ih, sw + n - 1) starting from acc. */
  function MaxRowScan(t: Tensor, c: nat, ih: nat, sw: nat, n: nat, acc: (real, nat, nat)): (real, nat, nat)
  {
    if n == 0 then acc else MaxStep(t, c, ih, sw + n - 1, MaxRowScan(t, c, ih, sw, n - 1, acc))
  }

  /** The scan of the first m rows of the p-wide window at (sh, sw), from (Lowest, sh, sw). */
  function MaxWindowScan(t: Tensor, c: nat, sh: nat, sw: nat, p: nat, m: nat): (real, nat, nat)
  {
    if m == 0 then (Lowest, sh, sw) else MaxRowScan(t, c, sh + m - 1, sw, p, MaxWindowScan(t, c, sh, sw, p, m - 1))
  }

  /** The value and record the max branch of forward computes for a window. */
  function WindowMaxOf(t: Tensor, c: nat, sh: nat, sw: nat, p: nat): (real, (nat, nat))
  {
    var r := MaxWindowScan(t, c, sh, sw, p, p);
    (r.0, (r.1, r.2))
  }

  lemma MaxStepKeeps(t: Tensor, c: nat, sh: nat, sw: nat, p: nat, eh: nat, ew: nat, next: nat, acc: (real, nat, nat))
    requires sh <= eh < sh + p && sw <= ew < sw + p && next == ew + 1
    requires MaxSoFar(t, c, sh, sw, p, eh, ew, acc.0, acc.1, acc.2)
    ensures var r := MaxStep(t, c, eh, ew, acc); MaxSoFar(t, c, sh, sw, p, eh, next, r.0, r.1, r.2)
  {
  }

  lemma {:induction false} MaxRowScanKeeps(t: Tensor, c: nat, sh: nat, sw: nat, p: nat, eh: nat, n: nat, acc: (real, nat, nat))
    requires sh <= eh < sh + p && n <= p
    requires MaxSoFar(t, c, sh, sw, p, eh, sw, acc.0, acc.1, acc.2)
    ensures var r := MaxRowScan(t, c, eh, sw, n, acc); MaxSoFar(t, c, sh, sw, p, eh, sw + n, r.0, r.1, r.2)
  {
    if n > 0 {
      var e := sw + (n - 1);
      var prev := MaxRowScan(t, c, eh, sw, n - 1, acc);
      assert MaxRowScan(t, c, eh, sw, n, acc) == MaxStep(t, c, eh, e, prev);
      MaxRowScanKeeps(t, c, sh, sw, p, eh, n - 1, acc);
      MaxStepKeeps(t, c, sh, sw, p, eh, e, sw + n, prev);
    }
  }

  lemma {:induction false} MaxWindowScanKeeps(t: Tensor, c: nat, sh: nat, sw: nat, p: nat, m: nat)
    requires m <= p
    ensures var r := MaxWindowScan(t, c, sh, sw, p, m); MaxSoFar(t, c, sh, sw, p, sh + m, sw, r.0, r.1, r.2)
  {
    if m > 0 {
      var e := sh + (m - 1);
      var prev := MaxWindowScan(t, c, sh, sw, p, m - 1);
      MaxWindowScanKeeps(t, c, sh, sw, p, m - 1);
      MaxRowScanKeeps(t, c, sh, sw, p, e, p, prev);
      var r := MaxRowScan(t, c, e, sw, p, prev);
      assert MaxWindowScan(t, c, sh, sw, p, m) == r;
      RowScanned(t, c, sh, sw, p, e, sh + m, r.0, r.1, r.2);
    }
  }

  /** The scan of forward computes the window maximum and its first maximal cell. */
  lemma WindowMaxOfIsMax(t: Tensor, c: nat, sh: nat, sw: nat, p: nat)
    ensures var r := WindowMaxOf(t, c, sh, sw, p); IsWindowMax(t, c, sh, sw, p, r.0, r.1)
  {
    MaxWindowScanKeeps(t, c, sh, sw, p, p);
  }

  /** The (ph, pw) loops of the max branch of forward. */
  method WindowMax(t: Tensor, c: nat, sh: nat, sw: nat, p: nat) returns (val: real, mh: nat, mw: nat)
    ensures (val, (mh, mw)) == WindowMaxOf(t, c, sh, sw, p)
  {
    val := Lowest;
    mh, mw := sh, sw;
    var ph := 0;
    while ph < p
      invariant ph <= p
      invariant (val, mh, mw) == MaxWindowScan(t, c, sh, sw, p, ph)
    {
      var pw := 0;
      while pw < p
        invariant pw <= p
        invariant (val, mh, mw) == MaxRowScan(t, c, sh + ph, sw, pw, MaxWindowScan(t, c, sh, sw, p, ph))
      {
        var ih := sh + ph;
        var iw := sw + pw;
        if ih < t.height && iw < t.width && c < t.channels {
          var v := Get(t, c, ih, iw);
          if v > val {
            val, mh, mw := v, ih, iw;
          }
        }
        pw := pw + 1;
      }
      ph := ph + 1;
    }
  }


  /** Finishing row eh of the window is starting row eh + 1. */
  lemma RowScanned(t: Tensor, c: nat, sh: nat, sw: nat, p: nat, eh: nat, next: nat, val: real, mh: nat, mw: nat)
    requires next == eh + 1
    requires MaxSoFar(t, c, sh, sw, p, eh, sw + p, val, mh, mw)
    ensures MaxSoFar(t, c, sh, sw, p, next, sw, val, mh, mw)
  {
  }

  // ------------------------------------------------------------------ average windows

  /** Sum of the valid cells (ih, sw), ..., (ih, sw + n - 1) of channel c. */
  function RowTapSum(t: Tensor, c: nat, ih: nat, sw: nat, n: nat): real
  {
    if n == 0 then 0.0
    else RowTapSum(t, c, ih, sw, n - 1) + (if InRange(t, c, ih, sw + n - 1) then Get(t, c, ih, sw + n - 1) else 0.0)
  }

  /** Number of cells among (ih, sw), ..., (ih, sw + n - 1) inside a height x width plane. */
  function RowTapCount(height: nat, width: nat, ih: nat, sw: nat, n: nat): nat
  {
    if n == 0 then 0
    else RowTapCount(height, width, ih, sw, n - 1) + (if ih < height && sw + n - 1 < width then 1 else 0)
  }

  /** Sum of the valid cells of the first m rows of the p-wide window at (sh, sw). */
  function WindowTapSum(t: Tensor, c: nat, sh: nat, sw: nat, p: nat, m: nat): real
  {
    if m == 0 then 0.0 else WindowTapSum(t, c, sh, sw, p, m - 1) + RowTapSum(t, c, sh + m - 1, sw, p)
  }

  /** Number of valid cells in the first m rows of the p-wide window at (sh, sw). */
  function WindowTapCount(height: nat, width: nat, sh: nat, sw: nat, p: nat, m: nat): nat
  {
    if m == 0 then 0 else WindowTapCount(height, width, sh, sw, p, m - 1) + RowTapCount(height, width, sh + m - 1, sw, p)
  }

  /** The average of the valid cells of a window, 0 when it has none. */
  function WindowAverage(t: Tensor, c: nat, sh: nat, sw: nat, p: nat): real
  {
    var n := WindowTapCount(t.height, t.width, sh, sw, p, p);
    if n > 0 then WindowTapSum(t, c, sh, sw, p, p) / n as real else 0.0
  }

  /** A row whose cells are all valid contributes all n of them. */
  lemma {:induction false} RowTapCountFull(height: nat, width: nat, ih: nat, sw: nat, n: nat)
    requires ih < height && sw + n <= width
    ensures RowTapCount(height, width, ih, sw, n) == n
  {
    if n > 0 {
      RowTapCountFull(height, width, ih, sw, n - 1);
    }
  }

  /** A window inside the plane has m * p valid cells in its first m rows. */
  lemma {:induction false} WindowTapCountFull(height: nat, width: nat, sh: nat, sw: nat, p: nat, m: nat)
    requires sh + m <= height && sw + p <= width
    ensures WindowTapCount(height, width, sh, sw, p, m) == m * p
  {
    if m > 0 {
      WindowTapCountFull(height, width, sh, sw, p, m - 1);
      RowTapCountFull(height, width, sh + m - 1, sw, p);
      assert (m - 1) * p + p == m * p;
    }
  }

  /** Every valid cell of channel c in the p-wide window at (sh, sw) holds v. */
  ghost predicate WindowConstant(t: Tensor, c: nat, sh: nat, sw: nat, p: nat, v: real)
  {
    forall ih: nat, iw: nat | InRange(t, c, ih, iw) && InWindow(ih, iw, sh, sw, p) :: Get(t, c, ih, iw) == v
  }

  lemma {:induction false} RowTapSumConstant(t: Tensor, c: nat, ih: nat, sh: nat, sw: nat, p: nat, n: nat, v: real)
    requires WindowConstant(t, c, sh, sw, p, v)
    requires c < t.channels && sh <= ih < sh + p && ih < t.height && n <= p && sw + n <= t.width
    ensures RowTapSum(t, c, ih, sw, n) == Repeat(n, v)
  {
    if n > 0 {
      RowTapSumConstant(t, c, ih, sh, sw, p, n - 1, v);
      assert InWindow(ih, sw + n - 1, sh, sw, p);
    }
  }

  lemma {:induction false} WindowTapSumConstant(t: Tensor, c: nat, sh: nat, sw: nat, p: nat, m: nat, v: real)
    requires WindowConstant(t, c, sh, sw, p, v)
    requires c < t.channels && m <= p && sh + m <= t.height && sw + p <= t.width
    ensures WindowTapSum(t, c, sh, sw, p, m) == Repeat(m, Repeat(p, v))
  {
    if m > 0 {
      WindowTapSumConstant(t, c, sh, sw, p, m - 1, v);
      RowTapSumConstant(t, c, sh + m - 1, sh, sw, p, p, v);
    }
  }

  /** The average of a window inside the tensor whose cells are all v is v. */
  lemma {:induction false} WindowAverageConstant(t: Tensor, c: nat, sh: nat, sw: nat, p: nat, v: real)
    requires WindowConstant(t, c, sh, sw, p, v)
    requires c < t.channels && p > 0 && sh + p <= t.height && sw + p <= t.width
    ensures WindowAverage(t, c, sh, sw, p) == v
  {
    WindowTapCountFull(t.height, t.width, sh, sw, p, p);
    WindowTapSumConstant(t, c, sh, sw, p, p, v);
    SquareShare(WindowTapSum(t, c, sh, sw, p, p), p, v);
  }

  /** A sum of p * p copies of v shared among p * p cells is v. */
  lemma SquareShare(sum: real, p: nat, v: real)
    requires p > 0 && sum == Repeat(p, Repeat(p, v))
    ensures p * p > 0 && sum / (p * p) as real == v
  {
    RepeatSquare(p, v);
    assert p * p >= p by { assert p * p == p * (p - 1) + p; }
    var n := (p * p) as real;
    assert sum == n * v && n > 0.0;
  }

  /** p * p copies of v add up to (p * p) * v. */
  lemma RepeatSquare(p: nat, v: real)
    ensures Repeat(p, Repeat(p, v)) == (p * p) as real * v
  {
    var q := p as real;
    var r := Repeat(p, v);
    RepeatIsProduct(p, v);
    RepeatIsProduct(p, r);
    assert (p * p) as real == q * q;
    assert q * (q * v) == (q * q) * v;
  }

  /** The (ph, pw) loops of the average branch of forward, accumulating sum and count. */
  method WindowSumCount(t: Tensor, c: nat, sh: nat, sw: nat, p: nat) returns (sum: real, count: nat)
    ensures sum == WindowTapSum(t, c, sh, sw, p, p)
    ensures count == WindowTapCount(t.height, t.width, sh, sw, p, p)
  {
    sum, count := 0.0, 0;
    var ph := 0;
    while ph < p
      invariant ph <= p
      invariant sum == WindowTapSum(t, c, sh, sw, p, ph)
      invariant count == WindowTapCount(t.height, t.width, sh, sw, p, ph)
    {
      var pw := 0;
      while pw < p
        invariant pw <= p
        invariant sum == WindowTapSum(t, c, sh, sw, p, ph) + RowTapSum(t, c, sh + ph, sw, pw)
        invariant count == WindowTapCount(t.height, t.width, sh, sw, p, ph) + RowTapCount(t.height, t.width, sh + ph, sw, pw)
      {
        var ih := sh + ph;
        var iw := sw + pw;
        if ih < t.height && iw < t.width {
          if c < t.channels {
            sum := sum + Get(t, c, ih, iw);
          }
          count := count + 1;
        }
        pw := pw + 1;
      }
      ph := ph + 1;
    }
  }

  /** The counting loops of the average branch of backward. */
  method WindowValidCount(height: nat, width: nat, sh: nat, sw: nat, p: nat) returns (count: nat)
    ensures count == WindowTapCount(height, width, sh, sw, p, p)
  {
    count := 0;
    var ph := 0;
    while ph < p
      invariant ph <= p
      invariant count == WindowTapCount(height, width, sh, sw, p, ph)
    {
      var pw := 0;
      while pw < p
        invariant pw <= p
        invariant count == WindowTapCount(height, width, sh, sw, p, ph) + RowTapCount(height, width, sh + ph, sw, pw)
      {
        if sh + ph < height && sw + pw < width {
          count := count + 1;
        }
        pw := pw + 1;
      }
      ph := ph + 1;
    }
  }

  // ------------------------------------------------------------------ forward

  /** maxIndices_[c][oh][ow], a (maxH, maxW) pair per output cell. */
  type Indices = seq<seq<seq<(nat, nat)>>>

  predicate IndexShape(mi: Indices, channels: nat, height: nat, width: nat)
  {
    |mi| == channels
    && (forall c | 0 <= c < |mi| :: |mi[c]| == height)
    && (forall c, oh | 0 <= c < |mi| && 0 <= oh < |mi[c]| :: |mi[c][oh]| == width)
  }

  /** Every record points at a cell of an inputHeight x inputWidth channel. */
  predicate IndicesInRange(mi: Indices, inH: nat, inW: nat)
  {
    forall c, oh, ow | 0 <= c < |mi| && 0 <= oh < |mi[c]| && 0 <= ow < |mi[c][oh]| ::
      mi[c][oh][ow].0 < inH && mi[c][oh][ow].1 < inW
  }

  /** Output cells and records already written by the (c, oh, ow) loops of max forward. */
  ghost predicate MaxForwardDone(input: Tensor, p: nat, s: nat, output: Tensor, mi: Indices, c: nat, oh: nat, ow: nat)
  {
    IndexShape(mi, output.channels, output.height, output.width)
    && forall c': nat, oh': nat, ow': nat | InRange(output, c', oh', ow') && Scanned(c', oh', ow', c, oh, ow) ::
         (Get(output, c', oh', ow'), mi[c'][oh'][ow']) == WindowMaxOf(input, c', oh' * s, ow' * s, p)
  }

  /** Max-pooling forward: every output cell and its record are the window's scan result. */
  method MaxPoolCells(input: Tensor, p: nat, s: nat, outH: nat, outW: nat) returns (output: Tensor, mi: Indices)
    ensures HasShape(output, input.channels, outH, outW) && ScanRecorded(input, p, s, output, mi)
  {
    output := Zeros(input.channels, outH, outW);
    // maxIndices_ resized to C x outH x outW; the loops overwrite every entry.
    mi := seq(input.channels, _ => seq(outH, _ => seq(outW, _ => (0, 0))));
    var c := 0;
    while c < input.channels
      invariant c <= input.channels && HasShape(output, input.channels, outH, outW)
      invariant MaxForwardDone(input, p, s, output, mi, c, 0, 0)
    {
      var oh := 0;
      while oh < outH
        invariant oh <= outH && HasShape(output, input.channels, outH, outW)
        invariant MaxForwardDone(input, p, s, output, mi, c, oh, 0)
      {
        var ow := 0;
        while ow < outW
          invariant ow <= outW && HasShape(output, input.channels, outH, outW)
          invariant MaxForwardDone(input, p, s, output, mi, c, oh, ow)
        {
          var val, mh, mw := WindowMax(input, c, oh * s, ow * s, p);
          output := Set(output, c, oh, ow, val);
          mi := mi[c := mi[c][oh := mi[c][oh][ow := (mh, mw)]]];
          ow := ow + 1;
        }
        oh := oh + 1;
      }
      c := c + 1;
    }
  }

  /** Every output cell and its record are what the window scan computes. */
  ghost predicate ScanRecorded(input: Tensor, p: nat, s: nat, output: Tensor, mi: Indices)
  {
    IndexShape(mi, output.channels, output.height, output.width)
    && forall c: nat, oh: nat, ow: nat | InRange(output, c, oh, ow) ::
         (Get(output, c, oh, ow), mi[c][oh][ow]) == WindowMaxOf(input, c, oh * s, ow * s, p)
  }

  /** Max-pooling forward leaves, whenever the formula's windows fit, a first-maximum record
      inside the input for every output cell. */
  lemma MaxPoolMeaning(input: Tensor, p: nat, s: nat, output: Tensor, mi: Indices)
    requires output.channels == input.channels && ScanRecorded(input, p, s, output, mi)
    requires p > 0 && WindowCount(output.height, input.height, p, s) && WindowCount(output.width, input.width, p, s)
    ensures IndicesInRange(mi, input.height, input.width)
    ensures forall c: nat, oh: nat, ow: nat | InRange(output, c, oh, ow) ::
      IsWindowMax(input, c, oh * s, ow * s, p, Get(output, c, oh, ow), mi[c][oh][ow])
  {
    forall c: nat, oh: nat, ow: nat | InRange(output, c, oh, ow)
      ensures IsWindowMax(input, c, oh * s, ow * s, p, Get(output, c, oh, ow), mi[c][oh][ow])
      ensures mi[c][oh][ow].0 < input.height && mi[c][oh][ow].1 < input.width
    {
      WindowMaxOfIsMax(input, c, oh * s, ow * s, p);
      WindowInside(oh, output.height, input.height, p, s, 0);
      WindowInside(ow, output.width, input.width, p, s, 0);
      RecordInRange(input, c, oh * s, ow * s, p, Get(output, c, oh, ow), mi[c][oh][ow]);
    }
    forall c, oh, ow | 0 <= c < |mi| && 0 <= oh < |mi[c]| && 0 <= ow < |mi[c][oh]|
      ensures mi[c][oh][ow].0 < input.height && mi[c][oh][ow].1 < input.width
    {
      assert InRange(output, c, oh, ow);
    }
  }

  /** Average-pooling forward: every output cell is its window's average. */
  method AvgPoolCells(input: Tensor, p: nat, s: nat, outH: nat, outW: nat) returns (output: Tensor)
    ensures HasShape(output, input.channels, outH, outW)
    ensures forall c: nat, oh: nat, ow: nat | InRange(output, c, oh, ow) ::
      Get(output, c, oh, ow) == WindowAverage(input, c, oh * s, ow * s, p)
  {
    output := Zeros(input.channels, outH, outW);
    var c := 0;
    while c < input.channels
      invariant c <= input.channels && HasShape(output, input.channels, outH, outW)
      invariant forall c': nat, oh': nat, ow': nat | InRange(output, c', oh', ow') && Scanned(c', oh', ow', c, 0, 0) ::
        Get(output, c', oh', ow') == WindowAverage(input, c', oh' * s, ow' * s, p)
    {
      var oh := 0;
      while oh < outH
        invariant oh <= outH && HasShape(output, input.channels, outH, outW)
        invariant forall c': nat, oh': nat, ow': nat | InRange(output, c', oh', ow') && Scanned(c', oh', ow', c, oh, 0) ::
          Get(output, c', oh', ow') == WindowAverage(input, c', oh' * s, ow' * s, p)
      {
        var ow := 0;
        while ow < outW
          invariant ow <= outW && HasShape(output, input.channels, outH, outW)
          invariant forall c': nat, oh': nat, ow': nat | InRange(output, c', oh', ow') && Scanned(c', oh', ow', c, oh, ow) ::
            Get(output, c', oh', ow') == WindowAverage(input, c', oh' * s, ow' * s, p)
        {
          var sum, count := WindowSumCount(input, c, oh * s, ow * s, p);
          output := Set(output, c, oh, ow, if count > 0 then sum / count as real else 0.0);
          ow := ow + 1;
        }
        oh := oh + 1;
      }
      c := c + 1;
    }
  }

  // ------------------------------------------------------------------ max backward

  /** Gradient routed to (h, w) of channel c by the records of output row oh, columns < n. */
  function RoutedRow(g: Tensor, mi: Indices, c: nat, oh: nat, n: nat, h: nat, w: nat): real
    requires IndexShape(mi, g.channels, g.height, g.width) && c < g.channels && oh < g.height && n <= g.width
  {
    if n == 0 then 0.0
    else RoutedRow(g, mi, c, oh, n - 1, h, w) + (if mi[c][oh][n - 1] == (h, w) then Get(g, c, oh, n - 1) else 0.0)
  }

  /** Gradient routed to (h, w) of channel c by the records of output rows < m. */
  function Routed(g: Tensor, mi: Indices, c: nat, m: nat, h: nat, w: nat): real
    requires IndexShape(mi, g.channels, g.height, g.width) && c < g.channels && m <= g.height
  {
    if m == 0 then 0.0 else Routed(g, mi, c, m - 1, h, w) + RoutedRow(g, mi, c, m - 1, g.width, h, w)
  }

  /** Gradient routed to (h, w) of channel c by output cells before (oh, ow) in scan order. */
  function RoutedBefore(g: Tensor, mi: Indices, c: nat, oh: nat, ow: nat, h: nat, w: nat): real
    requires IndexShape(mi, g.channels, g.height, g.width) && c < g.channels && oh <= g.height && ow <= g.width
  {
    Routed(g, mi, c, oh, h, w) + (if oh < g.height then RoutedRow(g, mi, c, oh, ow, h, w) else 0.0)
  }

  /** A cell that no record of its channel points at receives no gradient. */
  lemma {:induction false} UnrecordedGetsNothing(g: Tensor, mi: Indices, c: nat, m: nat, h: nat, w: nat)
    requires IndexShape(mi, g.channels, g.height, g.width) && c < g.channels && m <= g.height
    requires forall oh, ow | 0 <= oh < g.height && 0 <= ow < g.width :: mi[c][oh][ow] != (h, w)
    ensures Routed(g, mi, c, m, h, w) == 0.0
  {
    if m > 0 {
      UnrecordedGetsNothing(g, mi, c, m - 1, h, w);
      UnrecordedRow(g, mi, c, m - 1, g.width, h, w);
    }
  }

  lemma {:induction false} UnrecordedRow(g: Tensor, mi: Indices, c: nat, oh: nat, n: nat, h: nat, w: nat)
    requires IndexShape(mi, g.channels, g.height, g.width) && c < g.channels && oh < g.height && n <= g.width
    requires forall ow | 0 <= ow < g.width :: mi[c][oh][ow] != (h, w)
    ensures RoutedRow(g, mi, c, oh, n, h, w) == 0.0
  {
    if n > 0 {
      UnrecordedRow(g, mi, c, oh, n - 1, h, w);
    }
  }

  /** The state of max backward before output cell (c, oh, ow): finished channels hold their
      routed sums, channel c the sums routed so far, later channels zero. */
  ghost predicate MaxBackwardDone(g: Tensor, mi: Indices, gi: Tensor, c: nat, oh: nat, ow: nat)
    requires IndexShape(mi, g.channels, g.height, g.width)
  {
    gi.channels == g.channels && c <= g.channels && oh <= g.height && ow <= g.width
    && forall c': nat, h: nat, w: nat | InRange(gi, c', h, w) ::
         Get(gi, c', h, w) ==
           if c' < c then Routed(g, mi, c', g.height, h, w)
           else if c' == c then RoutedBefore(g, mi, c, oh, ow, h, w)
           else 0.0
  }

  /** One output cell of max backward: its gradient is added at its record. */
  method MaxBackwardCell(g: Tensor, mi: Indices, gi: Tensor, c: nat, oh: nat, ow: nat) returns (gi': Tensor)
    requires IndexShape(mi, g.channels, g.height, g.width) && IndicesInRange(mi, gi.height, gi.width)
    requires c < g.channels && oh < g.height && ow < g.width && MaxBackwardDone(g, mi, gi, c, oh, ow)
    ensures SameShape(gi', gi) && MaxBackwardDone(g, mi, gi', c, oh, ow + 1)
    ensures Sum(gi') == Sum(gi) + Get(g, c, oh, ow)
  {
    var (mh, mw) := mi[c][oh][ow];
    var v := Get(gi, c, mh, mw) + Get(g, c, oh, ow);
    SetSum(gi, c, mh, mw, v);
    gi' := Set(gi, c, mh, mw, v);
  }

  lemma MaxBackwardRow(g: Tensor, mi: Indices, gi: Tensor, c: nat, oh: nat)
    requires IndexShape(mi, g.channels, g.height, g.width) && c < g.channels && oh < g.height
    requires MaxBackwardDone(g, mi, gi, c, oh, g.width)
    ensures MaxBackwardDone(g, mi, gi, c, oh + 1, 0)
  {
  }

  lemma MaxBackwardChannel(g: Tensor, mi: Indices, gi: Tensor, c: nat)
    requires IndexShape(mi, g.channels, g.height, g.width) && c < g.channels
    requires MaxBackwardDone(g, mi, gi, c, g.height, 0)
    ensures MaxBackwardDone(g, mi, gi, c + 1, 0, 0)
  {
  }

  /** Max-pooling backward: each input cell receives the sum of the output gradients whose
      record points at it, and the total gradient is preserved. */
  method MaxPoolBackwardCells(g: Tensor, mi: Indices, inH: nat, inW: nat) returns (gi: Tensor)
    requires IndexShape(mi, g.channels, g.height, g.width) && IndicesInRange(mi, inH, inW)
    ensures HasShape(gi, g.channels, inH, inW)
    ensures forall c: nat, h: nat, w: nat | InRange(gi, c, h, w) :: Get(gi, c, h, w) == Routed(g, mi, c, g.height, h, w)
    ensures Sum(gi) == Sum(g)
  {
    gi := Zeros(g.channels, inH, inW);
    gi := Zero(gi);
    SumSeqConstant(gi.data, 0.0);
    var c := 0;
    while c < g.channels
      invariant HasShape(gi, g.channels, inH, inW)
      invariant MaxBackwardDone(g, mi, gi, c, 0, 0)
      invariant Sum(gi) == SumPrefix(g.data, Index(c, 0, 0, g.height, g.width))
    {
      var oh := 0;
      while oh < g.height
        invariant HasShape(gi, g.channels, inH, inW)
        invariant MaxBackwardDone(g, mi, gi, c, oh, 0)
        invariant Sum(gi) == SumPrefix(g.data, Index(c, oh, 0, g.height, g.width))
      {
        var ow := 0;
        while ow < g.width
          invariant HasShape(gi, g.channels, inH, inW)
          invariant MaxBackwardDone(g, mi, gi, c, oh, ow)
          invariant Sum(gi) == SumPrefix(g.data, Index(c, oh, ow, g.height, g.width))
        {
          SumPrefixStep(g.data, FlatIndex(g, c, oh, ow));
          gi := MaxBackwardCell(g, mi, gi, c, oh, ow);
          ow := ow + 1;
        }
        MaxBackwardRow(g, mi, gi, c, oh);
        NextRow(oh, g.width);
        oh := oh + 1;
      }
      MaxBackwardChannel(g, mi, gi, c);
      NextChannel(c, g.height, g.width);
      c := c + 1;
    }
    SumPrefixAll(g.data);
  }

  // ------------------------------------------------------------------ average backward

  /** Gradient spread onto (h, w) of channel c by output row oh, columns < n: each window
      containing the cell hands it 1/(p*p) of its gradient. */
  function SpreadRow(g: Tensor, c: nat, oh: nat, n: nat, p: nat, s: nat, h: nat, w: nat): real
    requires c < g.channels && oh < g.height && n <= g.width && p > 0
  {
    if n == 0 then 0.0
    else
      var share := if InWindow(h, w, oh * s, (n - 1) * s, p) then Get(g, c, oh, n - 1) / (p * p) as real else 0.0;
      SpreadRow(g, c, oh, n - 1, p, s, h, w) + share
  }

  /** Gradient spread onto (h, w) of channel c by output rows < m. */
  function Spread(g: Tensor, c: nat, m: nat, p: nat, s: nat, h: nat, w: nat): real
    requires c < g.channels && m <= g.height && p > 0
  {
    if m == 0 then 0.0 else Spread(g, c, m - 1, p, s, h, w) + SpreadRow(g, c, m - 1, g.width, p, s, h, w)
  }

  /** Gradient spread onto (h, w) of channel c by output cells before (oh, ow). */
  function SpreadBefore(g: Tensor, c: nat, oh: nat, ow: nat, p: nat, s: nat, h: nat, w: nat): real
    requires c < g.channels && oh <= g.height && ow <= g.width && p > 0
  {
    Spread(g, c, oh, p, s, h, w) + (if oh < g.height then SpreadRow(g, c, oh, ow, p, s, h, w) else 0.0)
  }

  /** A cell outside every window gets nothing; with stride >= p the windows are disjoint and
      a cell in window (oh, ow) gets exactly g(c, oh, ow) / (p * p). */
  lemma {:induction false} SpreadRowOutside(g: Tensor, c: nat, oh: nat, n: nat, p: nat, s: nat, h: nat, w: nat)
    requires c < g.channels && oh < g.height && n <= g.width && p > 0
    requires forall ow: nat | ow < n :: !InWindow(h, w, oh * s, ow * s, p)
    ensures SpreadRow(g, c, oh, n, p, s, h, w) == 0.0
  {
    if n > 0 {
      SpreadRowOutside(g, c, oh, n - 1, p, s, h, w);
    }
  }

  /** The state of the p x p scatter loops after the window cells before (eh, ew). */
  ghost predicate ScatterDone(gi: Tensor, r: Tensor, c: nat, sh: nat, sw: nat, p: nat, eh: nat, ew: nat, v: real)
  {
    SameShape(r, gi)
    && forall c': nat, h: nat, w: nat | InRange(gi, c', h, w) ::
         Get(r, c', h, w) == Get(gi, c', h, w)
           + (if c' == c && InWindow(h, w, sh, sw, p) && CellBefore(h, w, eh, ew) then v else 0.0)
  }

  lemma ScatterStep(gi: Tensor, r: Tensor, c: nat, sh: nat, sw: nat, p: nat, eh: nat, ew: nat, next: nat, v: real)
    requires ScatterDone(gi, r, c, sh, sw, p, eh, ew, v) && InRange(r, c, eh, ew)
    requires sh <= eh < sh + p && sw <= ew < sw + p && next == ew + 1
    ensures ScatterDone(gi, Set(r, c, eh, ew, Get(r, c, eh, ew) + v), c, sh, sw, p, eh, next, v)
    ensures Sum(Set(r, c, eh, ew, Get(r, c, eh, ew) + v)) == Sum(r) + v
  {
    SetSum(r, c, eh, ew, Get(r, c, eh, ew) + v);
    var r' := Set(r, c, eh, ew, Get(r, c, eh, ew) + v);
    forall c': nat, h: nat, w: nat | InRange(gi, c', h, w)
      ensures Get(r', c', h, w) == Get(gi, c', h, w)
        + (if c' == c && InWindow(h, w, sh, sw, p) && CellBefore(h, w, eh, ew + 1) then v else 0.0)
    {
      if c' == c && h == eh && w == ew {
      } else {
        assert Get(r', c', h, w) == Get(r, c', h, w);
      }
    }
  }

  lemma ScatterRow(gi: Tensor, r: Tensor, c: nat, sh: nat, sw: nat, p: nat, eh: nat, next: nat, v: real)
    requires next == eh + 1
    requires ScatterDone(gi, r, c, sh, sw, p, eh, sw + p, v)
    ensures ScatterDone(gi, r, c, sh, sw, p, next, sw, v)
  {
  }

  /** gradInput(c, ih, iw) += v, guarded by the bounds check of the scatter loop. */
  function AddAt(t: Tensor, c: nat, ih: nat, iw: nat, v: real): (r: Tensor)
    ensures SameShape(r, t)
  {
    if InRange(t, c, ih, iw) then Set(t, c, ih, iw, Get(t, c, ih, iw) + v) else t
  }

  /** The additions along cells (ih, sw), ..., (ih, sw + n - 1). */
  function ScatterRowFold(t: Tensor, c: nat, ih: nat, sw: nat, n: nat, v: real): (r: Tensor)
    ensures SameShape(r, t)
  {
    if n == 0 then t else AddAt(ScatterRowFold(t, c, ih, sw, n - 1, v), c, ih, sw + n - 1, v)
  }

  /** The additions over the first m rows of the p-wide window at (sh, sw). */
  function ScatterFold(t: Tensor, c: nat, sh: nat, sw: nat, p: nat, m: nat, v: real): (r: Tensor)
    ensures SameShape(r, t)
  {
    if m == 0 then t else ScatterRowFold(ScatterFold(t, c, sh, sw, p, m - 1, v), c, sh + m - 1, sw, p, v)
  }

  lemma {:induction false} ScatterRowFoldKeeps(gi: Tensor, r: Tensor, c: nat, sh: nat, sw: nat, p: nat, eh: nat, n: nat, v: real)
    requires c < gi.channels && sh <= eh < sh + p && eh < gi.height && n <= p && sw + n <= gi.width
    requires ScatterDone(gi, r, c, sh, sw, p, eh, sw, v)
    ensures ScatterDone(gi, ScatterRowFold(r, c, eh, sw, n, v), c, sh, sw, p, eh, sw + n, v)
  {
    if n > 0 {
      var e := sw + (n - 1);
      ScatterRowFoldKeeps(gi, r, c, sh, sw, p, eh, n - 1, v);
      var prev := ScatterRowFold(r, c, eh, sw, n - 1, v);
      assert ScatterRowFold(r, c, eh, sw, n, v) == AddAt(prev, c, eh, e, v);
      assert InRange(prev, c, eh, e);
      ScatterStep(gi, prev, c, sh, sw, p, eh, e, sw + n, v);
    }
  }

  lemma {:induction false} ScatterRowFoldSum(r: Tensor, c: nat, eh: nat, sw: nat, n: nat, v: real)
    requires c < r.channels && eh < r.height && sw + n <= r.width
    ensures Sum(ScatterRowFold(r, c, eh, sw, n, v)) == Sum(r) + Repeat(n, v)
  {
    if n > 0 {
      ScatterRowFoldSum(r, c, eh, sw, n - 1, v);
      var prev := ScatterRowFold(r, c, eh, sw, n - 1, v);
      SetSum(prev, c, eh, sw + n - 1, Get(prev, c, eh, sw + n - 1) + v);
    }
  }

  lemma {:induction false} ScatterFoldKeeps(gi: Tensor, c: nat, sh: nat, sw: nat, p: nat, m: nat, v: real)
    requires c < gi.channels && m <= p && sh + m <= gi.height && sw + p <= gi.width
    ensures ScatterDone(gi, ScatterFold(gi, c, sh, sw, p, m, v), c, sh, sw, p, sh + m, sw, v)
  {
    if m > 0 {
      var e := sh + (m - 1);
      ScatterFoldKeeps(gi, c, sh, sw, p, m - 1, v);
      var prev := ScatterFold(gi, c, sh, sw, p, m - 1, v);
      var last := ScatterRowFold(prev, c, e, sw, p, v);
      assert ScatterFold(gi, c, sh, sw, p, m, v) == last;
      ScatterRowFoldKeeps(gi, prev, c, sh, sw, p, e, p, v);
      ScatterRow(gi, last, c, sh, sw, p, e, sh + m, v);
    }
  }

  lemma {:induction false} ScatterFoldSum(gi: Tensor, c: nat, sh: nat, sw: nat, p: nat, m: nat, v: real)
    requires c < gi.channels && m <= p && sh + m <= gi.height && sw + p <= gi.width
    ensures Sum(ScatterFold(gi, c, sh, sw, p, m, v)) == Sum(gi) + Repeat(m, Repeat(p, v))
  {
    if m > 0 {
      ScatterFoldSum(gi, c, sh, sw, p, m - 1, v);
      ScatterRowFoldSum(ScatterFold(gi, c, sh, sw, p, m - 1, v), c, sh + m - 1, sw, p, v);
    }
  }

  /** x added n times. */
  function Repeat(n: nat, x: real): real
  {
    if n == 0 then 0.0 else Repeat(n - 1, x) + x
  }

  lemma {:induction false} RepeatIsProduct(n: nat, x: real)
    ensures Repeat(n, x) == n as real * x
  {
    if n > 0 {
      RepeatIsProduct(n - 1, x);
    }
  }

  /** Handing g / (p * p) to each of the p * p cells of a window hands out g. */
  lemma ShareBack(p: nat, g: real)
    requires p > 0
    ensures Repeat(p, Repeat(p, g / (p * p) as real)) == g
  {
    var q := p as real;
    var v := g / (p * p) as real;
    RepeatIsProduct(p, v);
    RepeatIsProduct(p, q * v);
    assert (p * p) as real == q * q > 0.0;
    assert Repeat(p, v) == q * v;
    calc {
      Repeat(p, Repeat(p, v));
      Repeat(p, q * v);
      q * (q * v);
      (q * q) * v;
      g;
    }
  }

  /** The p x p loops that add v at every valid cell of the window at (sh, sw) in channel c. */
  method ScatterWindow(gi: Tensor, c: nat, sh: nat, sw: nat, p: nat, v: real) returns (r: Tensor)
    ensures r == ScatterFold(gi, c, sh, sw, p, p, v)
  {
    r := gi;
    var ph := 0;
    while ph < p
      invariant ph <= p
      invariant r == ScatterFold(gi, c, sh, sw, p, ph, v)
    {
      var pw := 0;
      while pw < p
        invariant pw <= p
        invariant r == ScatterRowFold(ScatterFold(gi, c, sh, sw, p, ph, v), c, sh + ph, sw, pw, v)
      {
        var ih := sh + ph;
        var iw := sw + pw;
        if ih < gi.height && iw < gi.width && c < gi.channels {
          r := Set(r, c, ih, iw, Get(r, c, ih, iw) + v);
        }
        pw := pw + 1;
      }
      ph := ph + 1;
    }
  }

  /** The state of average backward before output cell (c, oh, ow). */
  ghost predicate AvgBackwardDone(g: Tensor, p: nat, s: nat, gi: Tensor, c: nat, oh: nat, ow: nat)
    requires p > 0
  {
    gi.channels == g.channels && c <= g.channels && oh <= g.height && ow <= g.width
    && forall c': nat, h: nat, w: nat | InRange(gi, c', h, w) ::
         Get(gi, c', h, w) ==
           if c' < c then Spread(g, c', g.height, p, s, h, w)
           else if c' == c then SpreadBefore(g, c, oh, ow, p, s, h, w)
           else 0.0
  }

  /** One output cell of average backward: count the window's valid cells, then add
      g(c, oh, ow) / count at each of them. */
  method AvgBackwardCell(g: Tensor, gi: Tensor, p: nat, s: nat, c: nat, oh: nat, ow: nat) returns (gi': Tensor)
    requires p > 0 && oh * s + p <= gi.height && ow * s + p <= gi.width
    requires c < g.channels && oh < g.height && ow < g.width && AvgBackwardDone(g, p, s, gi, c, oh, ow)
    ensures SameShape(gi', gi) && AvgBackwardDone(g, p, s, gi', c, oh, ow + 1)
    ensures Sum(gi') == Sum(gi) + Get(g, c, oh, ow)
  {
    var sh, sw := oh * s, ow * s;
    var count := WindowValidCount(gi.height, gi.width, sh, sw, p);
    WindowTapCountFull(gi.height, gi.width, sh, sw, p, p);
    var avgGrad := Get(g, c, oh, ow) / count as real;
    assert avgGrad == Get(g, c, oh, ow) / (p * p) as real;
    gi' := ScatterWindow(gi, c, sh, sw, p, avgGrad);
    ScatterFoldKeeps(gi, c, sh, sw, p, p, avgGrad);
    ScatterFoldSum(gi, c, sh, sw, p, p, avgGrad);
    ShareBack(p, Get(g, c, oh, ow));
    AvgStep(g, p, s, gi, gi', c, oh, ow, avgGrad);
  }

  /** A finished scatter advances the per-cell state and moves exactly g(c, oh, ow). */
  lemma AvgStep(g: Tensor, p: nat, s: nat, gi: Tensor, gi': Tensor, c: nat, oh: nat, ow: nat, v: real)
    requires p > 0 && c < g.channels && oh < g.height && ow < g.width
    requires AvgBackwardDone(g, p, s, gi, c, oh, ow) && v == Get(g, c, oh, ow) / (p * p) as real
    requires ScatterDone(gi, gi', c, oh * s, ow * s, p, oh * s + p, ow * s, v)
    ensures AvgBackwardDone(g, p, s, gi', c, oh, ow + 1)
  {
  }

  lemma AvgBackwardRow(g: Tensor, p: nat, s: nat, gi: Tensor, c: nat, oh: nat)
    requires p > 0 && c < g.channels && oh < g.height
    requires AvgBackwardDone(g, p, s, gi, c, oh, g.width)
    ensures AvgBackwardDone(g, p, s, gi, c, oh + 1, 0)
  {
  }

  lemma AvgBackwardChannel(g: Tensor, p: nat, s: nat, gi: Tensor, c: nat)
    requires p > 0 && c < g.channels
    requires AvgBackwardDone(g, p, s, gi, c, g.height, 0)
    ensures AvgBackwardDone(g, p, s, gi, c + 1, 0, 0)
  {
  }

  /** Average-pooling backward: each input cell receives 1/(p*p) of the gradient of every
      window containing it, and the total gradient is preserved. */
  method AvgPoolBackwardCells(g: Tensor, inH: nat, inW: nat, p: nat, s: nat) returns (gi: Tensor)
    requires p > 0 && WindowCount(g.height, inH, p, s) && WindowCount(g.width, inW, p, s)
    ensures HasShape(gi, g.channels, inH, inW)
    ensures forall c: nat, h: nat, w: nat | InRange(gi, c, h, w) :: Get(gi, c, h, w) == Spread(g, c, g.height, p, s, h, w)
    ensures Sum(gi) == Sum(g)
  {
    gi := Zeros(g.channels, inH, inW);
    gi := Zero(gi);
    SumSeqConstant(gi.data, 0.0);
    var c := 0;
    while c < g.channels
      invariant HasShape(gi, g.channels, inH, inW)
      invariant AvgBackwardDone(g, p, s, gi, c, 0, 0)
      invariant Sum(gi) == SumPrefix(g.data, Index(c, 0, 0, g.height, g.width))
    {
      var oh := 0;
      while oh < g.height
        invariant HasShape(gi, g.channels, inH, inW)
        invariant AvgBackwardDone(g, p, s, gi, c, oh, 0)
        invariant Sum(gi) == SumPrefix(g.data, Index(c, oh, 0, g.height, g.width))
      {
        var ow := 0;
        while ow < g.width
          invariant HasShape(gi, g.channels, inH, inW)
          invariant AvgBackwardDone(g, p, s, gi, c, oh, ow)
          invariant Sum(gi) == SumPrefix(g.data, Index(c, oh, ow, g.height, g.width))
        {
          SumPrefixStep(g.data, FlatIndex(g, c, oh, ow));
          WindowInside(oh, g.height, inH, p, s, p - 1);
          WindowInside(ow, g.width, inW, p, s, p - 1);
          gi := AvgBackwardCell(g, gi, p, s, c, oh, ow);
          ow := ow + 1;
        }
        AvgBackwardRow(g, p, s, gi, c, oh);
        NextRow(oh, g.width);
        oh := oh + 1;
      }
      AvgBackwardChannel(g, p, s, gi, c);
      NextChannel(c, g.height, g.width);
      c := c + 1;
    }
    SumPrefixAll(g.data);
  }

  // ------------------------------------------------------------------ the layer

  class PoolingLayer {
    const inputChannels: nat
    const inputHeight: nat
    const inputWidth: nat
    const poolSize: nat
    const stride: nat
    const poolType: PoolingType
    const outputHeight: nat
    const outputWidth: nat
    var lastInput: Tensor
    var lastOutput: Tensor
    var maxIndices: Indices

    /** What the constructor established: valid sizes and the computed output size. */
    predicate Config()
    {
      PoolingConfig(inputHeight, inputWidth, poolSize, stride) == Ok((outputHeight, outputWidth))
    }

    /** maxIndices_ holds an in-range record for every output cell, as a max forward leaves it. */
    predicate Recorded()
      reads this
    {
      IndexShape(maxIndices, inputChannels, outputHeight, outputWidth)
      && IndicesInRange(maxIndices, inputHeight, inputWidth)
    }

    constructor(channels: nat, height: nat, width: nat, p: nat, s: nat, kind: PoolingType)
      requires PoolingConfig(height, width, p, s).Ok?
      ensures inputChannels == channels && inputHeight == height && inputWidth == width
      ensures poolSize == p && stride == s && poolType == kind
      ensures Config()
      ensures lastInput == DefaultTensor() && lastOutput == DefaultTensor() && maxIndices == []
    {
      var size := PoolingConfig(height, width, p, s).value;
      inputChannels, inputHeight, inputWidth := channels, height, width;
      poolSize, stride, poolType := p, s, kind;
      outputHeight, outputWidth := size.0, size.1;
      lastInput, lastOutput, maxIndices := DefaultTensor(), DefaultTensor(), [];
    }

    /** PoolingLayer(...), which throws on invalid sizes: the error of the first failing
        check, or a fresh layer with the computed output size. */
    static method Create(channels: nat, height: nat, width: nat, p: nat, s: nat, kind: PoolingType)
      returns (r: Result<PoolingLayer>)
      ensures r.Err? <==> PoolingConfig(height, width, p, s).Err?
      ensures r.Err? ==> r.error == PoolingConfig(height, width, p, s).error
      ensures r.Ok? ==> fresh(r.value) && r.value.Config() && r.value.poolType == kind
      ensures r.Ok? ==> r.value.inputChannels == channels && r.value.inputHeight == height
      ensures r.Ok? ==> r.value.inputWidth == width && r.value.poolSize == p && r.value.stride == s
    {
      var size := PoolingConfig(height, width, p, s);
      if size.Err? {
        return Err(size.error);
      }
      var layer := new PoolingLayer(channels, height, width, p, s, kind);
      r := Ok(layer);
    }

    /** outputChannels() is inputChannels_: pooling works channel by channel. */
    function OutputChannels(): (n: nat)
      ensures n == inputChannels
    {
      inputChannels
    }

    /** parameterCount() is 0 and hasTrainableParams() false. */
    function ParameterCount(): (n: nat)
      ensures n == 0
    {
      0
    }

    function HasTrainableParams(): (b: bool)
      ensures !b
    {
      false
    }

    /** type(): MaxPooling for Max, AvgPooling otherwise. */
    function Type(): (t: CNNLayerType)
      ensures t == CNNLayerType.MaxPooling <==> poolType.Max?
      ensures t == CNNLayerType.AvgPooling <==> poolType.Average?
    {
      if poolType.Max? then CNNLayerType.MaxPooling else CNNLayerType.AvgPooling
    }

    /** name(): "MaxPool2D" for Max, "AvgPool2D" otherwise. */
    function Name(): (n: string)
      ensures poolType.Max? ==> n == "MaxPool2D"
      ensures poolType.Average? ==> n == "AvgPool2D"
    {
      if poolType.Max? then "MaxPool2D" else "AvgPool2D"
    }

    /** forward(input): invalid_argument on a shape mismatch; otherwise each output cell is its
        window's maximum, with the record of the window's first maximal cell, or its
        window's average. */
    method Forward(input: Tensor) returns (r: Result<Tensor>)
      requires Config()
      modifies this
      ensures r.Err? <==> !HasShape(input, inputChannels, inputHeight, inputWidth)
      ensures r.Err? ==> r.error == InvalidArgument("PoolingLayer: input shape mismatch")
      ensures r.Err? ==> unchanged(this)
      ensures r.Err? || poolType.Average? ==> maxIndices == old(maxIndices)
      ensures r.Ok? ==> HasShape(r.value, inputChannels, outputHeight, outputWidth)
      ensures r.Ok? ==> lastInput == input && lastOutput == r.value
      ensures r.Ok? && poolType.Max? ==> Recorded()
      ensures r.Ok? && poolType.Max? ==>
        forall c: nat, oh: nat, ow: nat | InRange(r.value, c, oh, ow) ::
          IsWindowMax(input, c, oh * stride, ow * stride, poolSize, Get(r.value, c, oh, ow), maxIndices[c][oh][ow])
      ensures r.Ok? && poolType.Average? ==>
        forall c: nat, oh: nat, ow: nat | InRange(r.value, c, oh, ow) ::
          Get(r.value, c, oh, ow) == WindowAverage(input, c, oh * stride, ow * stride, poolSize)
    {
      if !HasShape(input, inputChannels, inputHeight, inputWidth) {
        return Err(InvalidArgument("PoolingLayer: input shape mismatch"));
      }
      lastInput := input;
      var output;
      if poolType.Max? {
        var mi;
        output, mi := MaxPoolCells(input, poolSize, stride, outputHeight, outputWidth);
        MaxPoolMeaning(input, poolSize, stride, output, mi);
        maxIndices := mi;
      } else {
        output := AvgPoolCells(input, poolSize, stride, outputHeight, outputWidth);
      }
      lastOutput := output;
      r := Ok(output);
    }

    /** backward(gradOutput): invalid_argument on a shape mismatch; otherwise the input-shaped
        gradient with the routed (max) or spread (average) sums, of the same total. Max
        backward reads the records of the last forward. */
    method Backward(gradOutput: Tensor) returns (r: Result<Tensor>)
      requires Config()
      requires poolType.Max? ==> Recorded()
      ensures r.Err? <==> !HasShape(gradOutput, inputChannels, outputHeight, outputWidth)
      ensures r.Err? ==> r.error == InvalidArgument("PoolingLayer: gradOutput shape mismatch")
      ensures r.Ok? ==> HasShape(r.value, inputChannels, inputHeight, inputWidth)
      ensures r.Ok? ==> Sum(r.value) == Sum(gradOutput)
      ensures r.Ok? && poolType.Max? ==>
        forall c: nat, h: nat, w: nat | InRange(r.value, c, h, w) ::
          Get(r.value, c, h, w) == Routed(gradOutput, maxIndices, c, outputHeight, h, w)
      ensures r.Ok? && poolType.Average? ==>
        forall c: nat, h: nat, w: nat | InRange(r.value, c, h, w) ::
          Get(r.value, c, h, w) == Spread(gradOutput, c, outputHeight, poolSize, stride, h, w)
    {
      if !HasShape(gradOutput, inputChannels, outputHeight, outputWidth) {
        return Err(InvalidArgument("PoolingLayer: gradOutput shape mismatch"));
      }
      var gi;
      if poolType.Max? {
        gi := MaxPoolBackwardCells(gradOutput, maxIndices, inputHeight, inputWidth);
      } else {
        gi := AvgPoolBackwardCells(gradOutput, inputHeight, inputWidth, poolSize, stride);
      }
      r := Ok(gi);
    }

    /** updateWeights(lr) does nothing: the layer has no parameters. */
    method UpdateWeights(learningRate: real)
      ensures unchanged(this)
    {
    }
  }

  /** The functional test's round trip: a 2x2 stride-2 max pool accepts its output shape back
      in backward, and the gradient mass arriving at the input is the mass sent. */
  method MaxPoolRoundTrip(layer: PoolingLayer, x: Tensor, g: Tensor) returns (gi: Tensor)
    requires layer.Config() && layer.poolType.Max?
    requires HasShape(x, layer.inputChannels, layer.inputHeight, layer.inputWidth)
    requires HasShape(g, layer.inputChannels, layer.outputHeight, layer.outputWidth)
    modifies layer
    ensures HasShape(gi, layer.inputChannels, layer.inputHeight, layer.inputWidth) && Sum(gi) == Sum(g)
  {
    var y := layer.Forward(x);
    var back := layer.Backward(g);
    gi := back.value;
  }
}
