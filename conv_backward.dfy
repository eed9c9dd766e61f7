/** The backward kernel `_backward` of conv_func.c: from X, K and the upstream
    gradient dY (N, H2, W2, C2) it computes the bias gradient dB (C2), the input
    gradient dX (N, H1, W1, C1) and the filter gradient dW (k1, k2, C1, C2).
    H2 and W2 are read off dY.  Elements are exact integers. */
module ConvBackward {
  import opened Tensor
  import opened Sums
  import opened Shapes

  // ---------------------------------------------------------------- dB

  /** dY[n, h2, w2, c2] summed over w2 in [0, wHi). */
  function GradRow(dys: seq<int>, sz: Sizes, H2: int, W2: int, n: int, c2: int, h2: int, wHi: int): int {
    Sum(0, wHi, w2 => At4(dys, n, h2, w2, c2, sz.N, H2, W2, sz.C2))
  }

  /** dY[n, h2, w2, c2] summed over h2 in [0, hHi) and all w2. */
  function GradPlane(dys: seq<int>, sz: Sizes, H2: int, W2: int, n: int, c2: int, hHi: int): int {
    Sum(0, hHi, h2 => GradRow(dys, sz, H2, W2, n, c2, h2, W2))
  }

  /** dY[n, h2, w2, c2] summed over batch items n in [0, nHi) and all h2, w2. */
  function BiasGradUpTo(dys: seq<int>, sz: Sizes, H2: int, W2: int, c2: int, nHi: int): int {
    Sum(0, nHi, n => GradPlane(dys, sz, H2, W2, n, c2, H2))
  }

  /** dB[c2]: the sum of dY[n, h2, w2, c2] over the whole batch and every position. */
  function BiasGrad(dys: seq<int>, sz: Sizes, H2: int, W2: int, c2: int): int {
    BiasGradUpTo(dys, sz, H2, W2, c2, sz.N)
  }

  /** The dB loops over h2 and w2 for one batch item (conv_func.c:152-156):
      they add the item's share to the running sum. */
  method AccumulateBias(dY: array<int>, sz: Sizes, H2: nat, W2: nat, n: int, c2: int, acc: int) returns (sum: int)
    requires dY.Length == sz.N * H2 * W2 * sz.C2
    requires 0 <= n < sz.N && 0 <= c2 < sz.C2
    ensures sum == acc + GradPlane(dY[..], sz, H2, W2, n, c2, H2)
  {
    ghost var dys := dY[..];
    sum := acc;
    var h2 := 0;
    while h2 < H2
      invariant 0 <= h2 <= H2
      invariant sum == acc + GradPlane(dys, sz, H2, W2, n, c2, h2)
    {
      var w2 := 0;
      while w2 < W2
        invariant 0 <= w2 <= W2
        invariant sum == acc + GradPlane(dys, sz, H2, W2, n, c2, h2) + GradRow(dys, sz, H2, W2, n, c2, h2, w2)
      {
        sum := sum + dY[Idx4(n, h2, w2, c2, sz.N, H2, W2, sz.C2)];
        w2 := w2 + 1;
      }
      h2 := h2 + 1;
    }
  }

  // ---------------------------------------------------------------- dX

  /** The contribution of kernel tap (i, j) and output channel c2 to
      dX[n, h1, w1, c1]: the upstream gradient at the shifted position (zero
      outside dY) times the 180-degree rotated filter tap K[k1-i-1, k2-j-1, c1, c2]. */
  function InputTerm(dys: seq<int>, ks: seq<int>, sz: Sizes, H2: int, W2: int, P: int, Q: int,
                     n: int, h1: int, w1: int, c1: int, c2: int, i: int, j: int): int
  {
    At4(dys, n, h1 + i - P, w1 + j - Q, c2, sz.N, H2, W2, sz.C2) *
    At4(ks, sz.k1 - i - 1, sz.k2 - j - 1, c1, c2, sz.k1, sz.k2, sz.C1, sz.C2)
  }

  function InputRow(dys: seq<int>, ks: seq<int>, sz: Sizes, H2: int, W2: int, P: int, Q: int,
                    n: int, h1: int, w1: int, c1: int, c2: int, i: int, jHi: int): int
  {
    Sum(0, jHi, j => InputTerm(dys, ks, sz, H2, W2, P, Q, n, h1, w1, c1, c2, i, j))
  }

  function InputPlane(dys: seq<int>, ks: seq<int>, sz: Sizes, H2: int, W2: int, P: int, Q: int,
                      n: int, h1: int, w1: int, c1: int, c2: int, iHi: int): int
  {
    Sum(0, iHi, i => InputRow(dys, ks, sz, H2, W2, P, Q, n, h1, w1, c1, c2, i, sz.k2))
  }

  function InputGradUpTo(dys: seq<int>, ks: seq<int>, sz: Sizes, H2: int, W2: int, P: int, Q: int,
                         n: int, h1: int, w1: int, c1: int, c2Hi: int): int
  {
    Sum(0, c2Hi, c2 => InputPlane(dys, ks, sz, H2, W2, P, Q, n, h1, w1, c1, c2, sz.k1))
  }

  /** dX[n, h1, w1, c1]: the sum over every output channel c2 and every tap (i, j). */
  function InputGrad(dys: seq<int>, ks: seq<int>, sz: Sizes, H2: int, W2: int, P: int, Q: int,
                     n: int, h1: int, w1: int, c1: int): int
  {
    InputGradUpTo(dys, ks, sz, H2, W2, P, Q, n, h1, w1, c1, sz.C2)
  }

  /** The positions the scatter loops over h1 and w1 have passed. */
  predicate Scanned(rows: Range, cols: Range, h1: int, w1: int, h': int, w': int) {
    (rows.lo <= h' < h1) || (h' == h1 && cols.lo <= w' < w1)
  }

  /** dX differs from its value before the scatter exactly by the tap's
      contribution at every position of batch item n and channel c1 passed so far. */
  ghost predicate Scattered(dx: seq<int>, dx0: seq<int>, dys: seq<int>, ks: seq<int>, sz: Sizes, H2: int, W2: int,
                            P: int, Q: int, n: int, c1: int, c2: int, i: int, j: int,
                            rows: Range, cols: Range, h1: int, w1: int)
    requires |dx| == sz.XLen() && |dx0| == sz.XLen()
  {
    forall n', h', w', c1' :: InBox(n', h', w', c1', sz.N, sz.H1, sz.W1, sz.C1) ==>
      dx[Idx4(n', h', w', c1', sz.N, sz.H1, sz.W1, sz.C1)] ==
        dx0[Idx4(n', h', w', c1', sz.N, sz.H1, sz.W1, sz.C1)] +
        (if n' == n && c1' == c1 && Scanned(rows, cols, h1, w1, h', w')
         then InputTerm(dys, ks, sz, H2, W2, P, Q, n', h', w', c1', c2, i, j) else 0)
  }

  lemma ScatteredStore(dx: seq<int>, dx0: seq<int>, dys: seq<int>, ks: seq<int>, sz: Sizes, H2: int, W2: int,
                       P: int, Q: int, n: int, c1: int, c2: int, i: int, j: int,
                       rows: Range, cols: Range, h1: int, w1: int)
    requires |dx| == sz.XLen() && |dx0| == sz.XLen()
    requires InBox(n, h1, w1, c1, sz.N, sz.H1, sz.W1, sz.C1) && rows.lo <= h1 && cols.lo <= w1
    requires Scattered(dx, dx0, dys, ks, sz, H2, W2, P, Q, n, c1, c2, i, j, rows, cols, h1, w1)
    ensures var o := Idx4(n, h1, w1, c1, sz.N, sz.H1, sz.W1, sz.C1);
      Scattered(dx[o := dx[o] + InputTerm(dys, ks, sz, H2, W2, P, Q, n, h1, w1, c1, c2, i, j)],
                dx0, dys, ks, sz, H2, W2, P, Q, n, c1, c2, i, j, rows, cols, h1, w1 + 1)
  {
    var o := Idx4(n, h1, w1, c1, sz.N, sz.H1, sz.W1, sz.C1);
    forall n', h', w', c1' | InBox(n', h', w', c1', sz.N, sz.H1, sz.W1, sz.C1) && (n', h', w', c1') != (n, h1, w1, c1)
      ensures Idx4(n', h', w', c1', sz.N, sz.H1, sz.W1, sz.C1) != o
    {
      if Idx4(n', h', w', c1', sz.N, sz.H1, sz.W1, sz.C1) == o {
        Idx4Injective(n', h', w', c1', n, h1, w1, c1, sz.N, sz.H1, sz.W1, sz.C1);
      }
    }
  }

  /** Finishing a row of the scatter: the columns outside the clamped range
      contribute zero, so the row counts as passed in full. */
  lemma ScatteredRowDone(dx: seq<int>, dx0: seq<int>, dys: seq<int>, ks: seq<int>, sz: Sizes, H2: int, W2: int,
                         P: int, Q: int, n: int, c1: int, c2: int, i: int, j: int, h1: int, w1: int)
    requires |dx| == sz.XLen() && |dx0| == sz.XLen()
    requires var rows := OverlapRange(P, H2, sz.H1, i); rows.lo <= h1
    requires var cols := OverlapRange(Q, W2, sz.W1, j); cols.hi <= w1 && (w1 == cols.lo || w1 == cols.hi)
    requires Scattered(dx, dx0, dys, ks, sz, H2, W2, P, Q, n, c1, c2, i, j,
                       OverlapRange(P, H2, sz.H1, i), OverlapRange(Q, W2, sz.W1, j), h1, w1)
    ensures Scattered(dx, dx0, dys, ks, sz, H2, W2, P, Q, n, c1, c2, i, j,
                      OverlapRange(P, H2, sz.H1, i), OverlapRange(Q, W2, sz.W1, j), h1 + 1, OverlapRange(Q, W2, sz.W1, j).lo)
  {
    var cols := OverlapRange(Q, W2, sz.W1, j);
    forall w' | 0 <= w' < sz.W1 && !cols.Contains(w')
      ensures forall n', h', c1' :: InputTerm(dys, ks, sz, H2, W2, P, Q, n', h', w', c1', c2, i, j) == 0
    {
    }
  }

  /** Finishing the scatter: the rows outside the clamped range contribute zero. */
  lemma ScatteredDone(dx: seq<int>, dx0: seq<int>, dys: seq<int>, ks: seq<int>, sz: Sizes, H2: int, W2: int,
                      P: int, Q: int, n: int, c1: int, c2: int, i: int, j: int, h1: int)
    requires |dx| == sz.XLen() && |dx0| == sz.XLen()
    requires var rows := OverlapRange(P, H2, sz.H1, i); rows.hi <= h1 && (h1 == rows.lo || h1 == rows.hi)
    requires Scattered(dx, dx0, dys, ks, sz, H2, W2, P, Q, n, c1, c2, i, j,
                       OverlapRange(P, H2, sz.H1, i), OverlapRange(Q, W2, sz.W1, j), h1, OverlapRange(Q, W2, sz.W1, j).lo)
    ensures forall n', h', w', c1' :: InBox(n', h', w', c1', sz.N, sz.H1, sz.W1, sz.C1) ==>
      dx[Idx4(n', h', w', c1', sz.N, sz.H1, sz.W1, sz.C1)] ==
        dx0[Idx4(n', h', w', c1', sz.N, sz.H1, sz.W1, sz.C1)] +
        (if n' == n && c1' == c1 then InputTerm(dys, ks, sz, H2, W2, P, Q, n', h', w', c1', c2, i, j) else 0)
  {
    var rows := OverlapRange(P, H2, sz.H1, i);
    forall h' | 0 <= h' < sz.H1 && !rows.Contains(h')
      ensures forall n', w', c1' :: InputTerm(dys, ks, sz, H2, W2, P, Q, n', h', w', c1', c2, i, j) == 0
    {
    }
  }

  /** The dX loops over h1 and w1 for one (n, c1, c2, i, j) (conv_func.c:163-172):
      they add tap (i, j)'s contribution to every element of batch item n and
      channel c1, and leave every other element as it was. */
  method ScatterInputGrad(dX: array<int>, dY: array<int>, K: array<int>, sz: Sizes, H2: nat, W2: nat,
                          P: int, Q: int, n: int, c1: int, c2: int, i: int, j: int)
    requires dX.Length == sz.XLen() && dY.Length == sz.N * H2 * W2 * sz.C2 && K.Length == sz.KLen()
    requires dX != dY && dX != K
    requires 0 <= n < sz.N && 0 <= c1 < sz.C1 && 0 <= c2 < sz.C2 && 0 <= i < sz.k1 && 0 <= j < sz.k2
    modifies dX
    ensures forall n', h', w', c1' :: InBox(n', h', w', c1', sz.N, sz.H1, sz.W1, sz.C1) ==>
      dX[Idx4(n', h', w', c1', sz.N, sz.H1, sz.W1, sz.C1)] ==
        old(dX[Idx4(n', h', w', c1', sz.N, sz.H1, sz.W1, sz.C1)]) +
        (if n' == n && c1' == c1 then InputTerm(dY[..], K[..], sz, H2, W2, P, Q, n', h', w', c1', c2, i, j) else 0)
  {
    ghost var dys, ks, dx0 := dY[..], K[..], dX[..];
    var rows := OverlapRange(P, H2, sz.H1, i);
    var cols := OverlapRange(Q, W2, sz.W1, j);
    var kVal := K[Idx4(sz.k1 - i - 1, sz.k2 - j - 1, c1, c2, sz.k1, sz.k2, sz.C1, sz.C2)];
    var h1 := rows.lo;
    while h1 < rows.hi
      invariant rows.lo <= h1 && (h1 <= rows.hi || h1 == rows.lo)
      invariant Scattered(dX[..], dx0, dys, ks, sz, H2, W2, P, Q, n, c1, c2, i, j, rows, cols, h1, cols.lo)
    {
      assert rows.Contains(h1);
      var w1 := cols.lo;
      while w1 < cols.hi
        invariant cols.lo <= w1 && (w1 <= cols.hi || w1 == cols.lo)
        invariant Scattered(dX[..], dx0, dys, ks, sz, H2, W2, P, Q, n, c1, c2, i, j, rows, cols, h1, w1)
      {
        assert cols.Contains(w1);
        ScatteredStore(dX[..], dx0, dys, ks, sz, H2, W2, P, Q, n, c1, c2, i, j, rows, cols, h1, w1);
        var o := Idx4(n, h1, w1, c1, sz.N, sz.H1, sz.W1, sz.C1);
        dX[o] := dX[o] + dY[Idx4(n, h1 + i - P, w1 + j - Q, c2, sz.N, H2, W2, sz.C2)] * kVal;
        w1 := w1 + 1;
      }
      ScatteredRowDone(dX[..], dx0, dys, ks, sz, H2, W2, P, Q, n, c1, c2, i, j, h1, w1);
      h1 := h1 + 1;
    }
    ScatteredDone(dX[..], dx0, dys, ks, sz, H2, W2, P, Q, n, c1, c2, i, j, h1);
  }

  // ---------------------------------------------------------------- dW

  /** The product X[n, h2+i-p, w2+j-q, c1] * dY[n, h2, w2, c2] (zero outside X). */
  function FilterTerm(xs: seq<int>, dys: seq<int>, sz: Sizes, H2: int, W2: int, p: int, q: int,
                      i: int, j: int, c1: int, c2: int, n: int, h2: int, w2: int): int
  {
    At4(xs, n, h2 + i - p, w2 + j - q, c1, sz.N, sz.H1, sz.W1, sz.C1) *
    At4(dys, n, h2, w2, c2, sz.N, H2, W2, sz.C2)
  }

  function FilterRow(xs: seq<int>, dys: seq<int>, sz: Sizes, H2: int, W2: int, p: int, q: int,
                     i: int, j: int, c1: int, c2: int, n: int, h2: int, wLo: int, wHi: int): int
  {
    Sum(wLo, wHi, w2 => FilterTerm(xs, dys, sz, H2, W2, p, q, i, j, c1, c2, n, h2, w2))
  }

  function FilterPlane(xs: seq<int>, dys: seq<int>, sz: Sizes, H2: int, W2: int, p: int, q: int,
                       i: int, j: int, c1: int, c2: int, n: int, hLo: int, hHi: int, wLo: int, wHi: int): int
  {
    Sum(hLo, hHi, h2 => FilterRow(xs, dys, sz, H2, W2, p, q, i, j, c1, c2, n, h2, wLo, wHi))
  }

  /** Batch item n's share of dW[i, j, c1, c2]: the sum over every (h2, w2) of dY. */
  function FilterItem(xs: seq<int>, dys: seq<int>, sz: Sizes, H2: int, W2: int, p: int, q: int,
                      i: int, j: int, c1: int, c2: int, n: int): int
  {
    FilterPlane(xs, dys, sz, H2, W2, p, q, i, j, c1, c2, n, 0, H2, 0, W2)
  }

  function FilterGradUpTo(xs: seq<int>, dys: seq<int>, sz: Sizes, H2: int, W2: int, p: int, q: int,
                          i: int, j: int, c1: int, c2: int, nHi: int): int
  {
    Sum(0, nHi, n => FilterItem(xs, dys, sz, H2, W2, p, q, i, j, c1, c2, n))
  }

  /** dW[i, j, c1, c2]: the correlation of X with dY, accumulated over the batch. */
  function FilterGrad(xs: seq<int>, dys: seq<int>, sz: Sizes, H2: int, W2: int, p: int, q: int,
                      i: int, j: int, c1: int, c2: int): int
  {
    FilterGradUpTo(xs, dys, sz, H2, W2, p, q, i, j, c1, c2, sz.N)
  }

  /** The clamped h2 and w2 ranges leave out exactly the zero terms. */
  lemma ClampedFilterIsFull(xs: seq<int>, dys: seq<int>, sz: Sizes, H2: int, W2: int, p: int, q: int,
                            i: int, j: int, c1: int, c2: int, n: int)
    requires 0 <= H2 && 0 <= W2
    ensures var rows := OverlapRange(p, sz.H1, H2, i);
      var cols := OverlapRange(q, sz.W1, W2, j);
      FilterPlane(xs, dys, sz, H2, W2, p, q, i, j, c1, c2, n, rows.lo, rows.hi, cols.lo, cols.hi)
        == FilterItem(xs, dys, sz, H2, W2, p, q, i, j, c1, c2, n)
  {
    var rows := OverlapRange(p, sz.H1, H2, i);
    var cols := OverlapRange(q, sz.W1, W2, j);
    forall h2 | rows.lo <= h2 < rows.hi
      ensures FilterRow(xs, dys, sz, H2, W2, p, q, i, j, c1, c2, n, h2, cols.lo, cols.hi)
           == FilterRow(xs, dys, sz, H2, W2, p, q, i, j, c1, c2, n, h2, 0, W2)
    {
      forall w2 | 0 <= w2 < W2 && !(cols.lo <= w2 < cols.hi)
        ensures FilterTerm(xs, dys, sz, H2, W2, p, q, i, j, c1, c2, n, h2, w2) == 0
      {
        assert !cols.Contains(w2);
      }
      SumZeroOutside(cols.lo, cols.hi, 0, W2, w2 => FilterTerm(xs, dys, sz, H2, W2, p, q, i, j, c1, c2, n, h2, w2));
    }
    SumCongruence(rows.lo, rows.hi,
      h2 => FilterRow(xs, dys, sz, H2, W2, p, q, i, j, c1, c2, n, h2, cols.lo, cols.hi),
      h2 => FilterRow(xs, dys, sz, H2, W2, p, q, i, j, c1, c2, n, h2, 0, W2));
    forall h2 | 0 <= h2 < H2 && !(rows.lo <= h2 < rows.hi)
      ensures FilterRow(xs, dys, sz, H2, W2, p, q, i, j, c1, c2, n, h2, 0, W2) == 0
    {
      assert !rows.Contains(h2);
      SumZero(0, W2, w2 => FilterTerm(xs, dys, sz, H2, W2, p, q, i, j, c1, c2, n, h2, w2));
    }
    SumZeroOutside(rows.lo, rows.hi, 0, H2,
      h2 => FilterRow(xs, dys, sz, H2, W2, p, q, i, j, c1, c2, n, h2, 0, W2));
  }

  /** The dW loops over h2 and w2 for one (n, c1, c2, i, j) (conv_func.c:175-184). */
  method FilterWindowSum(X: array<int>, dY: array<int>, sz: Sizes, H2: nat, W2: nat, p: int, q: int,
                         i: int, j: int, c1: int, c2: int, n: int) returns (sum: int)
    requires X.Length == sz.XLen() && dY.Length == sz.N * H2 * W2 * sz.C2
    requires 0 <= n < sz.N && 0 <= c1 < sz.C1 && 0 <= c2 < sz.C2
    ensures sum == FilterItem(X[..], dY[..], sz, H2, W2, p, q, i, j, c1, c2, n)
  {
    ghost var xs, dys := X[..], dY[..];
    var rows := OverlapRange(p, sz.H1, H2, i);
    var cols := OverlapRange(q, sz.W1, W2, j);
    sum := 0;
    var h2 := rows.lo;
    while h2 < rows.hi
      invariant rows.lo <= h2 && (h2 <= rows.hi || h2 == rows.lo)
      invariant sum == FilterPlane(xs, dys, sz, H2, W2, p, q, i, j, c1, c2, n, rows.lo, h2, cols.lo, cols.hi)
    {
      assert rows.Contains(h2);
      var w2 := cols.lo;
      while w2 < cols.hi
        invariant cols.lo <= w2 && (w2 <= cols.hi || w2 == cols.lo)
        invariant sum == FilterPlane(xs, dys, sz, H2, W2, p, q, i, j, c1, c2, n, rows.lo, h2, cols.lo, cols.hi)
                       + FilterRow(xs, dys, sz, H2, W2, p, q, i, j, c1, c2, n, h2, cols.lo, w2)
      {
        assert cols.Contains(w2);
        sum := sum + X[Idx4(n, h2 + i - p, w2 + j - q, c1, sz.N, sz.H1, sz.W1, sz.C1)]
                   * dY[Idx4(n, h2, w2, c2, sz.N, H2, W2, sz.C2)];
        w2 := w2 + 1;
      }
      h2 := h2 + 1;
    }
    ClampedFilterIsFull(xs, dys, sz, H2, W2, p, q, i, j, c1, c2, n);
  }

  // ---------------------------------------------------------------- the loop nest

  /** Loop position (c1', i', j') comes before (c1, i, j) in the order of the
      loops over c1, i and j. */
  predicate TapBefore(c1': int, i': int, j': int, c1: int, i: int, j: int) {
    c1' < c1 || (c1' == c1 && (i' < i || (i' == i && j' < j)))
  }

  /** dX at the head of loop iteration (c2, n, c1, i, j): the channels before c2
      are complete, and channel c2 has been added for every batch item and input
      channel passed so far, and for the taps before (i, j) of the current one. */
  ghost predicate InputProgress(dx: seq<int>, dys: seq<int>, ks: seq<int>, sz: Sizes, H2: int, W2: int,
                                P: int, Q: int, c2: int, n: int, c1: int, i: int, j: int)
    requires |dx| == sz.XLen()
  {
    forall n', h', w', c1' :: InBox(n', h', w', c1', sz.N, sz.H1, sz.W1, sz.C1) ==>
      dx[Idx4(n', h', w', c1', sz.N, sz.H1, sz.W1, sz.C1)] ==
        InputGradUpTo(dys, ks, sz, H2, W2, P, Q, n', h', w', c1', c2) +
        (if n' < n || (n' == n && c1' < c1) then InputPlane(dys, ks, sz, H2, W2, P, Q, n', h', w', c1', c2, sz.k1)
         else if n' == n && c1' == c1 then
           InputPlane(dys, ks, sz, H2, W2, P, Q, n', h', w', c1', c2, i) +
           InputRow(dys, ks, sz, H2, W2, P, Q, n', h', w', c1', c2, i, j)
         else 0)
  }

  /** dW at the head of loop iteration (c2, n, c1, i, j): the output channels
      before c2 are complete, those after it untouched, and channel c2 holds the
      batch items before n plus item n for the taps passed so far. */
  ghost predicate FilterProgress(dw: seq<int>, xs: seq<int>, dys: seq<int>, sz: Sizes, H2: int, W2: int,
                                 p: int, q: int, c2: int, n: int, c1: int, i: int, j: int)
    requires |dw| == sz.KLen()
  {
    forall i', j', c1', c2' :: InBox(i', j', c1', c2', sz.k1, sz.k2, sz.C1, sz.C2) ==>
      dw[Idx4(i', j', c1', c2', sz.k1, sz.k2, sz.C1, sz.C2)] ==
        (if c2' < c2 then FilterGrad(xs, dys, sz, H2, W2, p, q, i', j', c1', c2')
         else if c2' > c2 then 0
         else FilterGradUpTo(xs, dys, sz, H2, W2, p, q, i', j', c1', c2', n) +
              (if TapBefore(c1', i', j', c1, i, j) then FilterItem(xs, dys, sz, H2, W2, p, q, i', j', c1', c2', n) else 0))
  }

  /** One scatter of tap (i, j) advances dX by one position of the j loop. */
  lemma InputStep(dx: seq<int>, dx': seq<int>, dys: seq<int>, ks: seq<int>, sz: Sizes, H2: int, W2: int,
                  P: int, Q: int, c2: int, n: int, c1: int, i: int, j: int)
    requires |dx| == sz.XLen() && |dx'| == sz.XLen()
    requires InputProgress(dx, dys, ks, sz, H2, W2, P, Q, c2, n, c1, i, j)
    requires forall n', h', w', c1' :: InBox(n', h', w', c1', sz.N, sz.H1, sz.W1, sz.C1) ==>
      dx'[Idx4(n', h', w', c1', sz.N, sz.H1, sz.W1, sz.C1)] ==
        dx[Idx4(n', h', w', c1', sz.N, sz.H1, sz.W1, sz.C1)] +
        (if n' == n && c1' == c1 then InputTerm(dys, ks, sz, H2, W2, P, Q, n', h', w', c1', c2, i, j) else 0)
    ensures InputProgress(dx', dys, ks, sz, H2, W2, P, Q, c2, n, c1, i, j + 1)
  {
  }

  lemma InputNextTapRow(dx: seq<int>, dys: seq<int>, ks: seq<int>, sz: Sizes, H2: int, W2: int,
                        P: int, Q: int, c2: int, n: int, c1: int, i: int)
    requires |dx| == sz.XLen()
    requires InputProgress(dx, dys, ks, sz, H2, W2, P, Q, c2, n, c1, i, sz.k2) && 0 <= i
    ensures InputProgress(dx, dys, ks, sz, H2, W2, P, Q, c2, n, c1, i + 1, 0)
  {
  }

  lemma InputNextChannel(dx: seq<int>, dys: seq<int>, ks: seq<int>, sz: Sizes, H2: int, W2: int,
                         P: int, Q: int, c2: int, n: int, c1: int)
    requires |dx| == sz.XLen()
    requires InputProgress(dx, dys, ks, sz, H2, W2, P, Q, c2, n, c1, sz.k1, 0)
    ensures InputProgress(dx, dys, ks, sz, H2, W2, P, Q, c2, n, c1 + 1, 0, 0)
  {
  }

  lemma InputNextItem(dx: seq<int>, dys: seq<int>, ks: seq<int>, sz: Sizes, H2: int, W2: int,
                      P: int, Q: int, c2: int, n: int)
    requires |dx| == sz.XLen()
    requires InputProgress(dx, dys, ks, sz, H2, W2, P, Q, c2, n, sz.C1, 0, 0)
    ensures InputProgress(dx, dys, ks, sz, H2, W2, P, Q, c2, n + 1, 0, 0, 0)
  {
  }

  lemma InputNextOutputChannel(dx: seq<int>, dys: seq<int>, ks: seq<int>, sz: Sizes, H2: int, W2: int,
                               P: int, Q: int, c2: int)
    requires |dx| == sz.XLen() && 0 <= c2
    requires InputProgress(dx, dys, ks, sz, H2, W2, P, Q, c2, sz.N, 0, 0, 0)
    ensures InputProgress(dx, dys, ks, sz, H2, W2, P, Q, c2 + 1, 0, 0, 0, 0)
  {
  }

  /** Adding batch item n's share for tap (i, j, c1, c2) advances dW by one
      position of the j loop. */
  lemma FilterStep(dw: seq<int>, xs: seq<int>, dys: seq<int>, sz: Sizes, H2: int, W2: int,
                   p: int, q: int, c2: int, n: int, c1: int, i: int, j: int)
    requires |dw| == sz.KLen() && InBox(i, j, c1, c2, sz.k1, sz.k2, sz.C1, sz.C2)
    requires FilterProgress(dw, xs, dys, sz, H2, W2, p, q, c2, n, c1, i, j)
    ensures var o := Idx4(i, j, c1, c2, sz.k1, sz.k2, sz.C1, sz.C2);
      FilterProgress(dw[o := dw[o] + FilterItem(xs, dys, sz, H2, W2, p, q, i, j, c1, c2, n)],
                     xs, dys, sz, H2, W2, p, q, c2, n, c1, i, j + 1)
  {
    var o := Idx4(i, j, c1, c2, sz.k1, sz.k2, sz.C1, sz.C2);
    forall i', j', c1', c2' | InBox(i', j', c1', c2', sz.k1, sz.k2, sz.C1, sz.C2) && (i', j', c1', c2') != (i, j, c1, c2)
      ensures Idx4(i', j', c1', c2', sz.k1, sz.k2, sz.C1, sz.C2) != o
    {
      if Idx4(i', j', c1', c2', sz.k1, sz.k2, sz.C1, sz.C2) == o {
        Idx4Injective(i', j', c1', c2', i, j, c1, c2, sz.k1, sz.k2, sz.C1, sz.C2);
      }
    }
  }

  lemma FilterNextTapRow(dw: seq<int>, xs: seq<int>, dys: seq<int>, sz: Sizes, H2: int, W2: int,
                         p: int, q: int, c2: int, n: int, c1: int, i: int)
    requires |dw| == sz.KLen()
    requires FilterProgress(dw, xs, dys, sz, H2, W2, p, q, c2, n, c1, i, sz.k2)
    ensures FilterProgress(dw, xs, dys, sz, H2, W2, p, q, c2, n, c1, i + 1, 0)
  {
  }

  lemma FilterNextChannel(dw: seq<int>, xs: seq<int>, dys: seq<int>, sz: Sizes, H2: int, W2: int,
                          p: int, q: int, c2: int, n: int, c1: int)
    requires |dw| == sz.KLen()
    requires FilterProgress(dw, xs, dys, sz, H2, W2, p, q, c2, n, c1, sz.k1, 0)
    ensures FilterProgress(dw, xs, dys, sz, H2, W2, p, q, c2, n, c1 + 1, 0, 0)
  {
  }

  lemma FilterNextItem(dw: seq<int>, xs: seq<int>, dys: seq<int>, sz: Sizes, H2: int, W2: int,
                       p: int, q: int, c2: int, n: int)
    requires |dw| == sz.KLen() && 0 <= n
    requires FilterProgress(dw, xs, dys, sz, H2, W2, p, q, c2, n, sz.C1, 0, 0)
    ensures FilterProgress(dw, xs, dys, sz, H2, W2, p, q, c2, n + 1, 0, 0, 0)
  {
  }

  lemma FilterNextOutputChannel(dw: seq<int>, xs: seq<int>, dys: seq<int>, sz: Sizes, H2: int, W2: int,
                                p: int, q: int, c2: int)
    requires |dw| == sz.KLen()
    requires FilterProgress(dw, xs, dys, sz, H2, W2, p, q, c2, sz.N, 0, 0, 0)
    ensures FilterProgress(dw, xs, dys, sz, H2, W2, p, q, c2 + 1, 0, 0, 0, 0)
  {
  }

  /** The loops over c1, i and j for one (c2, n) (conv_func.c:159-188): dX and
      dW gain batch item n's share of output channel c2. */
  method BackwardItem(dX: array<int>, dW: array<int>, X: array<int>, K: array<int>, dY: array<int>,
                      sz: Sizes, H2: nat, W2: nat, pads: BackwardPads, c2: int, n: int)
    requires X.Length == sz.XLen() && K.Length == sz.KLen() && dY.Length == sz.N * H2 * W2 * sz.C2
    requires dX.Length == sz.XLen() && dW.Length == sz.KLen()
    requires dX != X && dX != K && dX != dY && dW != X && dW != K && dW != dY && dX != dW
    requires 0 <= n < sz.N && 0 <= c2 < sz.C2
    requires InputProgress(dX[..], dY[..], K[..], sz, H2, W2, pads.dxX, pads.dxY, c2, n, 0, 0, 0)
    requires FilterProgress(dW[..], X[..], dY[..], sz, H2, W2, pads.dwX, pads.dwY, c2, n, 0, 0, 0)
    modifies dX, dW
    ensures InputProgress(dX[..], dY[..], K[..], sz, H2, W2, pads.dxX, pads.dxY, c2, n, sz.C1, 0, 0)
    ensures FilterProgress(dW[..], X[..], dY[..], sz, H2, W2, pads.dwX, pads.dwY, c2, n, sz.C1, 0, 0)
  {
    ghost var xs, ks, dys := X[..], K[..], dY[..];
    var c1 := 0;
    while c1 < sz.C1
      invariant 0 <= c1 <= sz.C1
      invariant InputProgress(dX[..], dys, ks, sz, H2, W2, pads.dxX, pads.dxY, c2, n, c1, 0, 0)
      invariant FilterProgress(dW[..], xs, dys, sz, H2, W2, pads.dwX, pads.dwY, c2, n, c1, 0, 0)
    {
      var i := 0;
      while i < sz.k1
        invariant 0 <= i <= sz.k1
        invariant InputProgress(dX[..], dys, ks, sz, H2, W2, pads.dxX, pads.dxY, c2, n, c1, i, 0)
        invariant FilterProgress(dW[..], xs, dys, sz, H2, W2, pads.dwX, pads.dwY, c2, n, c1, i, 0)
      {
        var j := 0;
        while j < sz.k2
          invariant 0 <= j <= sz.k2
          invariant InputProgress(dX[..], dys, ks, sz, H2, W2, pads.dxX, pads.dxY, c2, n, c1, i, j)
          invariant FilterProgress(dW[..], xs, dys, sz, H2, W2, pads.dwX, pads.dwY, c2, n, c1, i, j)
        {
          ghost var dx0 := dX[..];
          ScatterInputGrad(dX, dY, K, sz, H2, W2, pads.dxX, pads.dxY, n, c1, c2, i, j);
          InputStep(dx0, dX[..], dys, ks, sz, H2, W2, pads.dxX, pads.dxY, c2, n, c1, i, j);
          var dWsum := FilterWindowSum(X, dY, sz, H2, W2, pads.dwX, pads.dwY, i, j, c1, c2, n);
          FilterStep(dW[..], xs, dys, sz, H2, W2, pads.dwX, pads.dwY, c2, n, c1, i, j);
          var o := Idx4(i, j, c1, c2, sz.k1, sz.k2, sz.C1, sz.C2);
          dW[o] := dW[o] + dWsum;
          j := j + 1;
        }
        InputNextTapRow(dX[..], dys, ks, sz, H2, W2, pads.dxX, pads.dxY, c2, n, c1, i);
        FilterNextTapRow(dW[..], xs, dys, sz, H2, W2, pads.dwX, pads.dwY, c2, n, c1, i);
        i := i + 1;
      }
      InputNextChannel(dX[..], dys, ks, sz, H2, W2, pads.dxX, pads.dxY, c2, n, c1);
      FilterNextChannel(dW[..], xs, dys, sz, H2, W2, pads.dwX, pads.dwY, c2, n, c1);
      c1 := c1 + 1;
    }
  }

  /** Zero-filled gradient buffers are at the start of the loop nest. */
  lemma ProgressStart(dx: seq<int>, dw: seq<int>, xs: seq<int>, ks: seq<int>, dys: seq<int>, sz: Sizes,
                      H2: int, W2: int, pads: BackwardPads)
    requires |dx| == sz.XLen() && |dw| == sz.KLen()
    requires forall t :: 0 <= t < |dx| ==> dx[t] == 0
    requires forall t :: 0 <= t < |dw| ==> dw[t] == 0
    ensures InputProgress(dx, dys, ks, sz, H2, W2, pads.dxX, pads.dxY, 0, 0, 0, 0, 0)
    ensures FilterProgress(dw, xs, dys, sz, H2, W2, pads.dwX, pads.dwY, 0, 0, 0, 0, 0)
  {
  }

  /** The loop body over one output channel c2 (conv_func.c:150-189): it
      returns dB[c2] and completes channel c2 of dX and dW. */
  method BackwardChannel(dX: array<int>, dW: array<int>, X: array<int>, K: array<int>, dY: array<int>,
                         sz: Sizes, H2: nat, W2: nat, pads: BackwardPads, c2: int) returns (dBsum: int)
    requires X.Length == sz.XLen() && K.Length == sz.KLen() && dY.Length == sz.N * H2 * W2 * sz.C2
    requires dX.Length == sz.XLen() && dW.Length == sz.KLen()
    requires dX != X && dX != K && dX != dY && dW != X && dW != K && dW != dY && dX != dW
    requires 0 <= c2 < sz.C2
    requires InputProgress(dX[..], dY[..], K[..], sz, H2, W2, pads.dxX, pads.dxY, c2, 0, 0, 0, 0)
    requires FilterProgress(dW[..], X[..], dY[..], sz, H2, W2, pads.dwX, pads.dwY, c2, 0, 0, 0, 0)
    modifies dX, dW
    ensures dBsum == BiasGrad(dY[..], sz, H2, W2, c2)
    ensures InputProgress(dX[..], dY[..], K[..], sz, H2, W2, pads.dxX, pads.dxY, c2 + 1, 0, 0, 0, 0)
    ensures FilterProgress(dW[..], X[..], dY[..], sz, H2, W2, pads.dwX, pads.dwY, c2 + 1, 0, 0, 0, 0)
  {
    ghost var xs, ks, dys := X[..], K[..], dY[..];
    dBsum := 0;
    var n := 0;
    while n < sz.N
      invariant 0 <= n <= sz.N
      invariant dBsum == BiasGradUpTo(dys, sz, H2, W2, c2, n)
      invariant InputProgress(dX[..], dys, ks, sz, H2, W2, pads.dxX, pads.dxY, c2, n, 0, 0, 0)
      invariant FilterProgress(dW[..], xs, dys, sz, H2, W2, pads.dwX, pads.dwY, c2, n, 0, 0, 0)
    {
      dBsum := AccumulateBias(dY, sz, H2, W2, n, c2, dBsum);
      BackwardItem(dX, dW, X, K, dY, sz, H2, W2, pads, c2, n);
      InputNextItem(dX[..], dys, ks, sz, H2, W2, pads.dxX, pads.dxY, c2, n);
      FilterNextItem(dW[..], xs, dys, sz, H2, W2, pads.dwX, pads.dwY, c2, n);
      n := n + 1;
    }
    InputNextOutputChannel(dX[..], dys, ks, sz, H2, W2, pads.dxX, pads.dxY, c2);
    FilterNextOutputChannel(dW[..], xs, dys, sz, H2, W2, pads.dwX, pads.dwY, c2);
  }

  /** The gradient loop nest of `_backward` (conv_func.c:142-191) for given
      offsets: dX and dW start at zero (conv_func.c:121-122), and every element
      of dB, dX and dW ends as the exact gradient sum defined above. */
  method BackwardLoops(X: array<int>, K: array<int>, dY: array<int>, sz: Sizes, H2: nat, W2: nat, pads: BackwardPads)
    returns (dX: array<int>, dW: array<int>, dB: array<int>)
    requires X.Length == sz.XLen() && K.Length == sz.KLen() && dY.Length == sz.N * H2 * W2 * sz.C2
    ensures fresh(dX) && fresh(dW) && fresh(dB)
    ensures dX.Length == sz.XLen() && dW.Length == sz.KLen() && dB.Length == sz.C2
    ensures forall c2 :: 0 <= c2 < sz.C2 ==> dB[c2] == BiasGrad(dY[..], sz, H2, W2, c2)
    ensures forall n, h1, w1, c1 :: InBox(n, h1, w1, c1, sz.N, sz.H1, sz.W1, sz.C1) ==>
      dX[Idx4(n, h1, w1, c1, sz.N, sz.H1, sz.W1, sz.C1)] ==
        InputGrad(dY[..], K[..], sz, H2, W2, pads.dxX, pads.dxY, n, h1, w1, c1)
    ensures forall i, j, c1, c2 :: InBox(i, j, c1, c2, sz.k1, sz.k2, sz.C1, sz.C2) ==>
      dW[Idx4(i, j, c1, c2, sz.k1, sz.k2, sz.C1, sz.C2)] ==
        FilterGrad(X[..], dY[..], sz, H2, W2, pads.dwX, pads.dwY, i, j, c1, c2)
  {
    ghost var xs, ks, dys := X[..], K[..], dY[..];
    dX := new int[sz.XLen()](_ => 0);
    dW := new int[sz.KLen()](_ => 0);
    dB := new int[sz.C2];
    ProgressStart(dX[..], dW[..], xs, ks, dys, sz, H2, W2, pads);
    var c2 := 0;
    while c2 < sz.C2
      invariant 0 <= c2 <= sz.C2
      invariant InputProgress(dX[..], dys, ks, sz, H2, W2, pads.dxX, pads.dxY, c2, 0, 0, 0, 0)
      invariant FilterProgress(dW[..], xs, dys, sz, H2, W2, pads.dwX, pads.dwY, c2, 0, 0, 0, 0)
      invariant forall c2' :: 0 <= c2' < c2 ==> dB[c2'] == BiasGrad(dys, sz, H2, W2, c2')
    {
      var dBsum := BackwardChannel(dX, dW, X, K, dY, sz, H2, W2, pads, c2);
      dB[c2] := dBsum;
      c2 := c2 + 1;
    }
  }

  /** `_backward` (conv_func.c:89-204).  H2 and W2 are the spatial extents of dY;
      the offsets are the ones the padding mode selects (conv_func.c:134-140).
      X, K and dY are only read. */
  method Backward(X: array<int>, K: array<int>, dY: array<int>, sz: Sizes, H2: nat, W2: nat, padding: string)
    returns (dX: array<int>, dW: array<int>, dB: array<int>)
    requires X.Length == sz.XLen() && K.Length == sz.KLen() && dY.Length == sz.N * H2 * W2 * sz.C2
    ensures fresh(dX) && fresh(dW) && fresh(dB)
    ensures dX.Length == sz.XLen() && dW.Length == sz.KLen() && dB.Length == sz.C2
    ensures forall c2 :: 0 <= c2 < sz.C2 ==> dB[c2] == BiasGrad(dY[..], sz, H2, W2, c2)
    ensures var b := BackwardPadding(ParsePadding(padding), sz.k1, sz.k2);
      forall n, h1, w1, c1 :: InBox(n, h1, w1, c1, sz.N, sz.H1, sz.W1, sz.C1) ==>
        dX[Idx4(n, h1, w1, c1, sz.N, sz.H1, sz.W1, sz.C1)] ==
          InputGrad(dY[..], K[..], sz, H2, W2, b.dxX, b.dxY, n, h1, w1, c1)
    ensures var b := BackwardPadding(ParsePadding(padding), sz.k1, sz.k2);
      forall i, j, c1, c2 :: InBox(i, j, c1, c2, sz.k1, sz.k2, sz.C1, sz.C2) ==>
        dW[Idx4(i, j, c1, c2, sz.k1, sz.k2, sz.C1, sz.C2)] ==
          FilterGrad(X[..], dY[..], sz, H2, W2, b.dwX, b.dwY, i, j, c1, c2)
    ensures unchanged(X) && unchanged(K) && unchanged(dY)
  {
    var pads := BackwardPadding(ParsePadding(padding), sz.k1, sz.k2);
    dX, dW, dB := BackwardLoops(X, K, dY, sz, H2, W2, pads);
  }
}
