/** The forward kernel `_forward` of conv_func.c: a stride-1 cross-correlation
    of X (N, H1, W1, C1) with the filter bank K (k1, k2, C1, C2), plus the bias
    B (C2), giving Y (N, H2, W2, C2).  Elements are exact integers. */
module ConvForward {
  import opened Tensor
  import opened Sums
  import opened Shapes

  /** One product of the correlation: input element at the shifted position
      (zero in the virtual padding) times filter tap (i, j) from c1 to c2. */
  function Tap(xs: seq<int>, ks: seq<int>, sz: Sizes, px: int, py: int,
               n: int, h: int, w: int, c2: int, c1: int, i: int, j: int): int
  {
    At4(xs, n, h + i - px, w + j - py, c1, sz.N, sz.H1, sz.W1, sz.C1) *
    At4(ks, i, j, c1, c2, sz.k1, sz.k2, sz.C1, sz.C2)
  }

  /** Taps j in [jLo, jHi) of kernel row i. */
  function TapRow(xs: seq<int>, ks: seq<int>, sz: Sizes, px: int, py: int,
                  n: int, h: int, w: int, c2: int, c1: int, i: int, jLo: int, jHi: int): int
  {
    Sum(jLo, jHi, j => Tap(xs, ks, sz, px, py, n, h, w, c2, c1, i, j))
  }

  /** Kernel rows i in [iLo, iHi) for input channel c1. */
  function TapPlane(xs: seq<int>, ks: seq<int>, sz: Sizes, px: int, py: int,
                    n: int, h: int, w: int, c2: int, c1: int, iLo: int, iHi: int, jLo: int, jHi: int): int
  {
    Sum(iLo, iHi, i => TapRow(xs, ks, sz, px, py, n, h, w, c2, c1, i, jLo, jHi))
  }

  /** Input channels c1 in [0, cHi) of a window of taps. */
  function Window(xs: seq<int>, ks: seq<int>, sz: Sizes, px: int, py: int,
                  n: int, h: int, w: int, c2: int, cHi: int, iLo: int, iHi: int, jLo: int, jHi: int): int
  {
    Sum(0, cHi, c1 => TapPlane(xs, ks, sz, px, py, n, h, w, c2, c1, iLo, iHi, jLo, jHi))
  }

  /** The zero-padded correlation at output (n, h, w, c2): the sum over every
      channel c1 and every tap (i, j) of the kernel, with input positions
      outside X reading as zero. */
  function Correlation(xs: seq<int>, ks: seq<int>, sz: Sizes, px: int, py: int,
                       n: int, h: int, w: int, c2: int): int
  {
    Window(xs, ks, sz, px, py, n, h, w, c2, sz.C1, 0, sz.k1, 0, sz.k2)
  }

  /** Summing only the taps inside the clamped bounds gives the full
      zero-padded correlation: the clamps drop exactly the zero terms. */
  lemma ClampedWindowIsCorrelation(xs: seq<int>, ks: seq<int>, sz: Sizes, px: int, py: int,
                                   n: int, h: int, w: int, c2: int)
    ensures var rows := OverlapRange(px, sz.H1, sz.k1, h);
      var cols := OverlapRange(py, sz.W1, sz.k2, w);
      Window(xs, ks, sz, px, py, n, h, w, c2, sz.C1, rows.lo, rows.hi, cols.lo, cols.hi)
        == Correlation(xs, ks, sz, px, py, n, h, w, c2)
  {
    var rows := OverlapRange(px, sz.H1, sz.k1, h);
    var cols := OverlapRange(py, sz.W1, sz.k2, w);
    forall c1 | 0 <= c1 < sz.C1
      ensures TapPlane(xs, ks, sz, px, py, n, h, w, c2, c1, rows.lo, rows.hi, cols.lo, cols.hi)
           == TapPlane(xs, ks, sz, px, py, n, h, w, c2, c1, 0, sz.k1, 0, sz.k2)
    {
      forall i | rows.lo <= i < rows.hi
        ensures TapRow(xs, ks, sz, px, py, n, h, w, c2, c1, i, cols.lo, cols.hi)
             == TapRow(xs, ks, sz, px, py, n, h, w, c2, c1, i, 0, sz.k2)
      {
        forall j | 0 <= j < sz.k2 && !(cols.lo <= j < cols.hi)
          ensures Tap(xs, ks, sz, px, py, n, h, w, c2, c1, i, j) == 0
        {
          assert !cols.Contains(j);
        }
        SumZeroOutside(cols.lo, cols.hi, 0, sz.k2, j => Tap(xs, ks, sz, px, py, n, h, w, c2, c1, i, j));
      }
      SumCongruence(rows.lo, rows.hi,
        i => TapRow(xs, ks, sz, px, py, n, h, w, c2, c1, i, cols.lo, cols.hi),
        i => TapRow(xs, ks, sz, px, py, n, h, w, c2, c1, i, 0, sz.k2));
      forall i | 0 <= i < sz.k1 && !(rows.lo <= i < rows.hi)
        ensures TapRow(xs, ks, sz, px, py, n, h, w, c2, c1, i, 0, sz.k2) == 0
      {
        assert !rows.Contains(i);
        SumZero(0, sz.k2, j => Tap(xs, ks, sz, px, py, n, h, w, c2, c1, i, j));
      }
      SumZeroOutside(rows.lo, rows.hi, 0, sz.k1, i => TapRow(xs, ks, sz, px, py, n, h, w, c2, c1, i, 0, sz.k2));
    }
    SumCongruence(0, sz.C1,
      c1 => TapPlane(xs, ks, sz, px, py, n, h, w, c2, c1, rows.lo, rows.hi, cols.lo, cols.hi),
      c1 => TapPlane(xs, ks, sz, px, py, n, h, w, c2, c1, 0, sz.k1, 0, sz.k2));
  }

  /** The loop nest over c1, i and j for one output element (conv_func.c:65-74),
      with the kernel loops clamped at both ends. */
  method ForwardWindow(X: array<int>, K: array<int>, sz: Sizes, px: int, py: int,
                       n: int, h: int, w: int, c2: int) returns (sum: int)
    requires X.Length == sz.XLen() && K.Length == sz.KLen()
    requires 0 <= n < sz.N && 0 <= c2 < sz.C2
    ensures sum == Correlation(X[..], K[..], sz, px, py, n, h, w, c2)
  {
    ghost var xs, ks := X[..], K[..];
    var rows := OverlapRange(px, sz.H1, sz.k1, h);
    var cols := OverlapRange(py, sz.W1, sz.k2, w);
    sum := 0;
    var c1 := 0;
    while c1 < sz.C1
      invariant 0 <= c1 <= sz.C1
      invariant sum == Window(xs, ks, sz, px, py, n, h, w, c2, c1, rows.lo, rows.hi, cols.lo, cols.hi)
    {
      var i := rows.lo;
      while i < rows.hi
        invariant rows.lo <= i && (i <= rows.hi || i == rows.lo)
        invariant sum == Window(xs, ks, sz, px, py, n, h, w, c2, c1, rows.lo, rows.hi, cols.lo, cols.hi)
                       + TapPlane(xs, ks, sz, px, py, n, h, w, c2, c1, rows.lo, i, cols.lo, cols.hi)
      {
        assert rows.Contains(i);
        var j := cols.lo;
        while j < cols.hi
          invariant cols.lo <= j && (j <= cols.hi || j == cols.lo)
          invariant sum == Window(xs, ks, sz, px, py, n, h, w, c2, c1, rows.lo, rows.hi, cols.lo, cols.hi)
                         + TapPlane(xs, ks, sz, px, py, n, h, w, c2, c1, rows.lo, i, cols.lo, cols.hi)
                         + TapRow(xs, ks, sz, px, py, n, h, w, c2, c1, i, cols.lo, j)
        {
          assert cols.Contains(j);
          sum := sum + X[Idx4(n, h + i - px, w + j - py, c1, sz.N, sz.H1, sz.W1, sz.C1)]
                     * K[Idx4(i, j, c1, c2, sz.k1, sz.k2, sz.C1, sz.C2)];
          j := j + 1;
        }
        i := i + 1;
      }
      c1 := c1 + 1;
    }
    ClampedWindowIsCorrelation(xs, ks, sz, px, py, n, h, w, c2);
  }

  /** The output position (c2', n', h', w') comes before (c2, n, h, w) in the
      order of the forward loop nest: c2 outermost, then n, h and w. */
  predicate Before(c2': int, n': int, h': int, w': int, c2: int, n: int, h: int, w: int) {
    c2' < c2 || (c2' == c2 && (n' < n || (n' == n && (h' < h || (h' == h && w' < w)))))
  }

  /** Every output element the loop nest has passed holds its final value. */
  ghost predicate Filled(ys: seq<int>, xs: seq<int>, ks: seq<int>, bs: seq<int>, sz: Sizes, g: Geometry,
                         c2: int, n: int, h: int, w: int)
    requires |ys| == sz.N * g.H2 * g.W2 * sz.C2 && |bs| == sz.C2
  {
    forall n', h', w', c2' ::
      InBox(n', h', w', c2', sz.N, g.H2, g.W2, sz.C2) && Before(c2', n', h', w', c2, n, h, w) ==>
        ys[Idx4(n', h', w', c2', sz.N, g.H2, g.W2, sz.C2)] == bs[c2'] + Correlation(xs, ks, sz, g.padX, g.padY, n', h', w', c2')
  }

  /** Storing the final value of the current element extends Filled by one position. */
  lemma FilledStore(ys: seq<int>, xs: seq<int>, ks: seq<int>, bs: seq<int>, sz: Sizes, g: Geometry,
                    c2: int, n: int, h: int, w: int)
    requires |ys| == sz.N * g.H2 * g.W2 * sz.C2 && |bs| == sz.C2
    requires InBox(n, h, w, c2, sz.N, g.H2, g.W2, sz.C2)
    requires Filled(ys, xs, ks, bs, sz, g, c2, n, h, w)
    ensures var o := Idx4(n, h, w, c2, sz.N, g.H2, g.W2, sz.C2);
      Filled(ys[o := bs[c2] + Correlation(xs, ks, sz, g.padX, g.padY, n, h, w, c2)], xs, ks, bs, sz, g, c2, n, h, w + 1)
  {
    var o := Idx4(n, h, w, c2, sz.N, g.H2, g.W2, sz.C2);
    var ys' := ys[o := bs[c2] + Correlation(xs, ks, sz, g.padX, g.padY, n, h, w, c2)];
    forall n', h', w', c2' | InBox(n', h', w', c2', sz.N, g.H2, g.W2, sz.C2) && Before(c2', n', h', w', c2, n, h, w + 1)
      ensures ys'[Idx4(n', h', w', c2', sz.N, g.H2, g.W2, sz.C2)] == bs[c2'] + Correlation(xs, ks, sz, g.padX, g.padY, n', h', w', c2')
    {
      if (n', h', w', c2') != (n, h, w, c2) && Idx4(n', h', w', c2', sz.N, g.H2, g.W2, sz.C2) == o {
        Idx4Injective(n', h', w', c2', n, h, w, c2, sz.N, g.H2, g.W2, sz.C2);
      }
    }
  }

  /** Moving past the end of a row, a plane or a batch item loses no filled position. */
  lemma FilledCarry(ys: seq<int>, xs: seq<int>, ks: seq<int>, bs: seq<int>, sz: Sizes, g: Geometry, c2: int, n: int, h: int)
    requires |ys| == sz.N * g.H2 * g.W2 * sz.C2 && |bs| == sz.C2
    ensures Filled(ys, xs, ks, bs, sz, g, c2, n, h, g.W2) ==> Filled(ys, xs, ks, bs, sz, g, c2, n, h + 1, 0)
    ensures Filled(ys, xs, ks, bs, sz, g, c2, n, g.H2, 0) ==> Filled(ys, xs, ks, bs, sz, g, c2, n + 1, 0, 0)
    ensures Filled(ys, xs, ks, bs, sz, g, c2, sz.N, 0, 0) ==> Filled(ys, xs, ks, bs, sz, g, c2 + 1, 0, 0, 0)
  {
  }

  /** The forward output Y and its extents are defined when "valid" padding does
      not make an output extent negative. */
  predicate OutputDefined(sz: Sizes, p: Padding) {
    p == Valid ==> sz.k1 <= sz.H1 + 1 && sz.k2 <= sz.W1 + 1
  }

  /** `_forward`: Y[n, h, w, c2] = B[c2] + the zero-padded correlation of X and K
      at (n, h, w, c2), for every element of Y (conv_func.c:32-79). */
  method Forward(X: array<int>, K: array<int>, B: array<int>, sz: Sizes, padding: string) returns (Y: array<int>)
    requires X.Length == sz.XLen() && K.Length == sz.KLen() && B.Length == sz.C2
    requires OutputDefined(sz, ParsePadding(padding))
    ensures fresh(Y)
    ensures var g := ForwardGeometry(ParsePadding(padding), sz.H1, sz.W1, sz.k1, sz.k2);
      Y.Length == sz.N * g.H2 * g.W2 * sz.C2 &&
      forall n, h, w, c2 :: InBox(n, h, w, c2, sz.N, g.H2, g.W2, sz.C2) ==>
        Y[Idx4(n, h, w, c2, sz.N, g.H2, g.W2, sz.C2)] == B[c2] + Correlation(X[..], K[..], sz, g.padX, g.padY, n, h, w, c2)
    ensures unchanged(X) && unchanged(K) && unchanged(B)
  {
    var g := ForwardGeometry(ParsePadding(padding), sz.H1, sz.W1, sz.k1, sz.k2);
    ghost var xs, ks, bs := X[..], K[..], B[..];
    SizeNonnegative(sz.N, g.H2, g.W2, sz.C2);
    Y := new int[sz.N * g.H2 * g.W2 * sz.C2];
    var c2 := 0;
    while c2 < sz.C2
      invariant 0 <= c2 <= sz.C2
      invariant Filled(Y[..], xs, ks, bs, sz, g, c2, 0, 0, 0)
    {
      var bias := B[c2];
      var n := 0;
      while n < sz.N
        invariant 0 <= n <= sz.N
        invariant Filled(Y[..], xs, ks, bs, sz, g, c2, n, 0, 0)
      {
        var h := 0;
        while h < g.H2
          invariant 0 <= h <= g.H2
          invariant Filled(Y[..], xs, ks, bs, sz, g, c2, n, h, 0)
        {
          var w := 0;
          while w < g.W2
            invariant 0 <= w <= g.W2
            invariant Filled(Y[..], xs, ks, bs, sz, g, c2, n, h, w)
          {
            var sum := ForwardWindow(X, K, sz, g.padX, g.padY, n, h, w, c2);
            FilledStore(Y[..], xs, ks, bs, sz, g, c2, n, h, w);
            Y[Idx4(n, h, w, c2, sz.N, g.H2, g.W2, sz.C2)] := bias + sum;
            w := w + 1;
          }
          FilledCarry(Y[..], xs, ks, bs, sz, g, c2, n, h);
          h := h + 1;
        }
        FilledCarry(Y[..], xs, ks, bs, sz, g, c2, n, h);
        n := n + 1;
      }
      FilledCarry(Y[..], xs, ks, bs, sz, g, c2, n, 0);
      c2 := c2 + 1;
    }
  }

  // ------------------------------------------------ the kernel loops as written

  /** The kernel-index range of conv_func.c:65-70 as written: `MAX(0, pad - pos)`
      below and the kernel extent above.  It excludes exactly the taps whose input
      coordinate `pos + t - pad` falls below 0; nothing excludes those past the end. */
  function SourceTapRange(pad: int, count: int, pos: int): (r: Range)
    ensures forall t :: 0 <= t < count ==> (r.Contains(t) <==> 0 <= pos + t - pad)
  {
    Range(Max(0, pad - pos), count)
  }

  /** The loops as written run over the same taps as the two-sided clamp of
      ForwardWindow, at every output row (column), exactly when the padding is
      "valid", the kernel has at most two rows (columns), or the input has none. */
  lemma SourceTapRangeAgrees(p: Padding, H1: nat, W1: nat, k1: nat, k2: nat)
    ensures var g := ForwardGeometry(p, H1, W1, k1, k2);
      (forall h :: 0 <= h < g.H2 ==> SourceTapRange(g.padX, k1, h) == OverlapRange(g.padX, H1, k1, h))
        <==> (p == Valid || k1 <= 2 || H1 == 0)
    ensures var g := ForwardGeometry(p, H1, W1, k1, k2);
      (forall w :: 0 <= w < g.W2 ==> SourceTapRange(g.padY, k2, w) == OverlapRange(g.padY, W1, k2, w))
        <==> (p == Valid || k2 <= 2 || W1 == 0)
  {
    var g := ForwardGeometry(p, H1, W1, k1, k2);
    if p == Same && k1 > 2 && H1 > 0 {
      assert OverlapRange(g.padX, H1, k1, H1 - 1).hi == g.padX + 1 < k1;
    }
    if p == Same && k2 > 2 && W1 > 0 {
      assert OverlapRange(g.padY, W1, k2, W1 - 1).hi == g.padY + 1 < k2;
    }
  }

  /** With "same" padding and a kernel of three or more rows, the loops as
      written compute the output element (N-1, H1-1, 0, 0) with the tap
      (k1/2 + 1, k2/2), which reads input row H1: the offset one past the last
      element of X. */
  lemma SourceReadsPastX(sz: Sizes)
    requires sz.k1 >= 3 && sz.N >= 1 && sz.H1 >= 1 && sz.W1 >= 1 && sz.C1 >= 1 && sz.k2 >= 1 && sz.C2 >= 1
    ensures var g := ForwardGeometry(Same, sz.H1, sz.W1, sz.k1, sz.k2);
      var n, h, w, i, j := sz.N - 1, sz.H1 - 1, 0, g.padX + 1, g.padY;
      InBox(n, h, w, 0, sz.N, g.H2, g.W2, sz.C2) &&
      SourceTapRange(g.padX, sz.k1, h).Contains(i) && SourceTapRange(g.padY, sz.k2, w).Contains(j) &&
      !OverlapRange(g.padX, sz.H1, sz.k1, h).Contains(i) &&
      h + i - g.padX == sz.H1 && w + j - g.padY == 0 &&
      Idx4(n, h + i - g.padX, w + j - g.padY, 0, sz.N, sz.H1, sz.W1, sz.C1) == sz.XLen()
  {
    var N, H1, W1, C1 := sz.N, sz.H1, sz.W1, sz.C1;
    assert ((N - 1) * H1 + H1) * W1 == N * H1 * W1;
    assert Idx4(N - 1, H1, 0, 0, N, H1, W1, C1) == N * H1 * W1 * C1;
  }

  /** For an earlier batch item the same read lands inside X, on the first row
      of the next item, instead of on the zero padding; a column overrun
      likewise lands on the first column of the next row. */
  lemma SourceOverrunAliases(sz: Sizes, n: int, r: int, c: int, c1: int)
    ensures Idx4(n, sz.H1, c, c1, sz.N, sz.H1, sz.W1, sz.C1) == Idx4(n + 1, 0, c, c1, sz.N, sz.H1, sz.W1, sz.C1)
    ensures Idx4(n, r, sz.W1, c1, sz.N, sz.H1, sz.W1, sz.C1) == Idx4(n, r + 1, 0, c1, sz.N, sz.H1, sz.W1, sz.C1)
  {
    assert n * sz.H1 + sz.H1 == (n + 1) * sz.H1;
    assert (n * sz.H1 + r) * sz.W1 + sz.W1 == (n * sz.H1 + r + 1) * sz.W1;
  }
}
