/** Whether the input gradient of `_backward` is the adjoint of `_forward`.
    Y[n, h, w, c2] depends on X[n, r, c, c1] through the kernel tap
    (r - h + padX, c - w + padY), so the derivative of the sum of dY * Y with
    respect to X[n, r, c, c1] is the sum, over every output channel and output
    position, of dY[n, h, w, c2] * K[r - h + padX, c - w + padY, c1, c2]. */
module ConvAdjoint {
  import opened Tensor
  import opened Sums
  import opened Shapes
  import opened ConvBackward

  function AdjointTerm(dys: seq<int>, ks: seq<int>, sz: Sizes, H2: int, W2: int, px: int, py: int,
                       n: int, r: int, c: int, c1: int, c2: int, h: int, w: int): int
  {
    At4(dys, n, h, w, c2, sz.N, H2, W2, sz.C2) *
    At4(ks, r - h + px, c - w + py, c1, c2, sz.k1, sz.k2, sz.C1, sz.C2)
  }

  function AdjointRow(dys: seq<int>, ks: seq<int>, sz: Sizes, H2: int, W2: int, px: int, py: int,
                      n: int, r: int, c: int, c1: int, c2: int, h: int): int
  {
    Sum(0, W2, w => AdjointTerm(dys, ks, sz, H2, W2, px, py, n, r, c, c1, c2, h, w))
  }

  function AdjointPlane(dys: seq<int>, ks: seq<int>, sz: Sizes, H2: int, W2: int, px: int, py: int,
                        n: int, r: int, c: int, c1: int, c2: int): int
  {
    Sum(0, H2, h => AdjointRow(dys, ks, sz, H2, W2, px, py, n, r, c, c1, c2, h))
  }

  /** The derivative of the sum of dY * Y with respect to X[n, r, c, c1], for the
      forward pass with offsets (px, py) and output extents (H2, W2). */
  function InputAdjoint(dys: seq<int>, ks: seq<int>, sz: Sizes, H2: int, W2: int, px: int, py: int,
                        n: int, r: int, c: int, c1: int): int
  {
    Sum(0, sz.C2, c2 => AdjointPlane(dys, ks, sz, H2, W2, px, py, n, r, c, c1, c2))
  }

  /** One kernel row of the backward sum is the adjoint's output row r + i - P,
      for the offsets P = k1 - 1 - px and Q = k2 - 1 - py. */
  lemma RowIsAdjointRow(dys: seq<int>, ks: seq<int>, sz: Sizes, H2: nat, W2: nat, px: int, py: int,
                        n: int, r: int, c: int, c1: int, c2: int, i: int)
    ensures var P, Q := sz.k1 - 1 - px, sz.k2 - 1 - py;
      InputRow(dys, ks, sz, H2, W2, P, Q, n, r, c, c1, c2, i, sz.k2)
        == AdjointRow(dys, ks, sz, H2, W2, px, py, n, r, c, c1, c2, r + i - P)
  {
    var P, Q := sz.k1 - 1 - px, sz.k2 - 1 - py;
    var h, s := r + i - P, c - Q;
    var f := x => AdjointTerm(dys, ks, sz, H2, W2, px, py, n, r, c, c1, c2, h, x);
    SumCongruence(0, sz.k2, x => InputTerm(dys, ks, sz, H2, W2, P, Q, n, r, c, c1, c2, i, x), x => f(x + s));
    SumShift(0, sz.k2, s, f);
    var lo, hi := Min(0, s), Max(W2, s + sz.k2);
    SumZeroOutside(s, s + sz.k2, lo, hi, f);
    SumZeroOutside(0, W2, lo, hi, f);
  }

  /** One output channel of the backward sum is the adjoint's share of that channel. */
  lemma PlaneIsAdjointPlane(dys: seq<int>, ks: seq<int>, sz: Sizes, H2: nat, W2: nat, px: int, py: int,
                            n: int, r: int, c: int, c1: int, c2: int)
    ensures var P, Q := sz.k1 - 1 - px, sz.k2 - 1 - py;
      InputPlane(dys, ks, sz, H2, W2, P, Q, n, r, c, c1, c2, sz.k1)
        == AdjointPlane(dys, ks, sz, H2, W2, px, py, n, r, c, c1, c2)
  {
    var P, Q := sz.k1 - 1 - px, sz.k2 - 1 - py;
    var s := r - P;
    var g := x => AdjointRow(dys, ks, sz, H2, W2, px, py, n, r, c, c1, c2, x);
    forall i | 0 <= i < sz.k1
      ensures InputRow(dys, ks, sz, H2, W2, P, Q, n, r, c, c1, c2, i, sz.k2) == g(i + s)
    {
      RowIsAdjointRow(dys, ks, sz, H2, W2, px, py, n, r, c, c1, c2, i);
    }
    SumCongruence(0, sz.k1, x => InputRow(dys, ks, sz, H2, W2, P, Q, n, r, c, c1, c2, x, sz.k2), x => g(x + s));
    SumShift(0, sz.k1, s, g);
    var lo, hi := Min(0, s), Max(H2, s + sz.k1);
    forall x | lo <= x < hi && !(s <= x < s + sz.k1 && 0 <= x < H2)
      ensures g(x) == 0
    {
      SumZero(0, W2, w => AdjointTerm(dys, ks, sz, H2, W2, px, py, n, r, c, c1, c2, x, w));
    }
    SumZeroOutside(s, s + sz.k1, lo, hi, g);
    SumZeroOutside(0, H2, lo, hi, g);
  }

  /** With the offsets of a transposed correlation, P = k1 - 1 - px and
      Q = k2 - 1 - py, the input-gradient sum is the adjoint of the forward pass. */
  lemma InputGradIsAdjoint(dys: seq<int>, ks: seq<int>, sz: Sizes, H2: nat, W2: nat, px: int, py: int,
                           n: int, r: int, c: int, c1: int)
    ensures InputGrad(dys, ks, sz, H2, W2, sz.k1 - 1 - px, sz.k2 - 1 - py, n, r, c, c1)
         == InputAdjoint(dys, ks, sz, H2, W2, px, py, n, r, c, c1)
  {
    forall c2 | 0 <= c2 < sz.C2
      ensures InputPlane(dys, ks, sz, H2, W2, sz.k1 - 1 - px, sz.k2 - 1 - py, n, r, c, c1, c2, sz.k1)
           == AdjointPlane(dys, ks, sz, H2, W2, px, py, n, r, c, c1, c2)
    {
      PlaneIsAdjointPlane(dys, ks, sz, H2, W2, px, py, n, r, c, c1, c2);
    }
    SumCongruence(0, sz.C2,
      c2 => InputPlane(dys, ks, sz, H2, W2, sz.k1 - 1 - px, sz.k2 - 1 - py, n, r, c, c1, c2, sz.k1),
      c2 => AdjointPlane(dys, ks, sz, H2, W2, px, py, n, r, c, c1, c2));
  }

  /** The offsets the padding mode selects make dX the adjoint of the forward
      pass in "valid" mode, and in "same" mode when both kernel extents are odd. */
  lemma BackwardInputIsAdjoint(p: Padding, dys: seq<int>, ks: seq<int>, sz: Sizes, H2: nat, W2: nat,
                               n: int, r: int, c: int, c1: int)
    requires p == Valid || (sz.k1 % 2 == 1 && sz.k2 % 2 == 1)
    ensures var g := ForwardGeometry(p, sz.H1, sz.W1, sz.k1, sz.k2);
      var b := BackwardPadding(p, sz.k1, sz.k2);
      InputGrad(dys, ks, sz, H2, W2, b.dxX, b.dxY, n, r, c, c1)
        == InputAdjoint(dys, ks, sz, H2, W2, g.padX, g.padY, n, r, c, c1)
  {
    var g := ForwardGeometry(p, sz.H1, sz.W1, sz.k1, sz.k2);
    InputPadIsTransposedPad(p, sz.H1, sz.W1, sz.k1, sz.k2);
    InputGradIsAdjoint(dys, ks, sz, H2, W2, g.padX, g.padY, n, r, c, c1);
  }

  /** Reads of tensors whose only non-unit extent is the row or the leading one. */
  lemma RowEntry(s: seq<int>, b: int, D1: int)
    requires |s| == D1
    ensures At4(s, 0, b, 0, 0, 1, D1, 1, 1) == if 0 <= b < D1 then s[b] else 0
  {
  }

  lemma LeadEntry(s: seq<int>, a: int, D0: int)
    requires |s| == D0
    ensures At4(s, a, 0, 0, 0, D0, 1, 1, 1) == if 0 <= a < D0 then s[a] else 0
  {
  }

  /** In "same" mode an even kernel breaks the adjoint: for X of shape
      (1, 2, 1, 1), K = [1, 0] of shape (2, 1, 1, 1) and dY = [1, 0], the
      backward pass gives dX[0, 0, 0, 0] = 1 while the derivative is 0. */
  lemma EvenKernelSameIsNotAdjoint(sz: Sizes, dys: seq<int>, ks: seq<int>)
    requires sz == Sizes(1, 2, 1, 1, 2, 1, 1) && dys == [1, 0] && ks == [1, 0]
    ensures var g := ForwardGeometry(Same, sz.H1, sz.W1, sz.k1, sz.k2);
      var b := BackwardPadding(Same, sz.k1, sz.k2);
      InputGrad(dys, ks, sz, 2, 1, b.dxX, b.dxY, 0, 0, 0, 0) == 1 &&
      InputAdjoint(dys, ks, sz, 2, 1, g.padX, g.padY, 0, 0, 0, 0) == 0
  {
    RowEntry(dys, -1, 2);
    RowEntry(dys, 0, 2);
    RowEntry(dys, 1, 2);
    LeadEntry(ks, 0, 2);
    LeadEntry(ks, 1, 2);
    assert InputTerm(dys, ks, sz, 2, 1, 1, 0, 0, 0, 0, 0, 0, 0, 0) == 0;
    assert InputTerm(dys, ks, sz, 2, 1, 1, 0, 0, 0, 0, 0, 0, 1, 0) == 1;
    assert InputPlane(dys, ks, sz, 2, 1, 1, 0, 0, 0, 0, 0, 0, 2) == 1;
    assert AdjointTerm(dys, ks, sz, 2, 1, 1, 0, 0, 0, 0, 0, 0, 0, 0) == 0;
    assert AdjointTerm(dys, ks, sz, 2, 1, 1, 0, 0, 0, 0, 0, 0, 1, 0) == 0;
    assert AdjointPlane(dys, ks, sz, 2, 1, 1, 0, 0, 0, 0, 0, 0) == 0;
  }

  /** Conversely, input-gradient offsets other than k - 1 - pad miss the
      derivative for every kernel size.  With forward offsets inside the kernel
      and non-empty extents, a dY that is 1 at (0, 0, 0, 0) and a filter bank
      whose only nonzero tap is (px, py, 0, 0) give dX[0, 0, 0, 0] = 0, while the
      derivative there is 1. */
  lemma OtherOffsetsAreNotAdjoint(sz: Sizes, H2: nat, W2: nat, px: int, py: int, P: int, Q: int)
    requires 1 <= sz.N && 1 <= sz.H1 && 1 <= sz.W1 && 1 <= sz.C1 && 1 <= sz.C2 && 1 <= H2 && 1 <= W2
    requires 0 <= px < sz.k1 && 0 <= py < sz.k2
    requires P != sz.k1 - 1 - px || Q != sz.k2 - 1 - py
    ensures var dys := Unit4(0, 0, 0, 0, sz.N, H2, W2, sz.C2);
      var ks := Unit4(px, py, 0, 0, sz.k1, sz.k2, sz.C1, sz.C2);
      InputGrad(dys, ks, sz, H2, W2, P, Q, 0, 0, 0, 0) == 0 &&
      InputAdjoint(dys, ks, sz, H2, W2, px, py, 0, 0, 0, 0) == 1
  {
    var dys := Unit4(0, 0, 0, 0, sz.N, H2, W2, sz.C2);
    var ks := Unit4(px, py, 0, 0, sz.k1, sz.k2, sz.C1, sz.C2);
    // No tap of the backward sum meets both unit entries.
    forall c2, i | 0 <= c2 < sz.C2 && 0 <= i < sz.k1
      ensures InputRow(dys, ks, sz, H2, W2, P, Q, 0, 0, 0, 0, c2, i, sz.k2) == 0
    {
      forall j | 0 <= j < sz.k2
        ensures InputTerm(dys, ks, sz, H2, W2, P, Q, 0, 0, 0, 0, c2, i, j) == 0
      {
        At4Unit(0, 0, 0, 0, 0, i - P, j - Q, c2, sz.N, H2, W2, sz.C2);
        At4Unit(px, py, 0, 0, sz.k1 - i - 1, sz.k2 - j - 1, 0, c2, sz.k1, sz.k2, sz.C1, sz.C2);
      }
      SumZero(0, sz.k2, j => InputTerm(dys, ks, sz, H2, W2, P, Q, 0, 0, 0, 0, c2, i, j));
    }
    forall c2 | 0 <= c2 < sz.C2
      ensures InputPlane(dys, ks, sz, H2, W2, P, Q, 0, 0, 0, 0, c2, sz.k1) == 0
    {
      SumZero(0, sz.k1, i => InputRow(dys, ks, sz, H2, W2, P, Q, 0, 0, 0, 0, c2, i, sz.k2));
    }
    SumZero(0, sz.C2, c2 => InputPlane(dys, ks, sz, H2, W2, P, Q, 0, 0, 0, 0, c2, sz.k1));
    // The adjoint has exactly one nonzero term, at output (0, 0, 0, 0).
    forall c2, h, w
      ensures AdjointTerm(dys, ks, sz, H2, W2, px, py, 0, 0, 0, 0, c2, h, w)
           == if c2 == 0 && h == 0 && w == 0 then 1 else 0
    {
      At4Unit(0, 0, 0, 0, 0, h, w, c2, sz.N, H2, W2, sz.C2);
      At4Unit(px, py, 0, 0, px - h, py - w, 0, c2, sz.k1, sz.k2, sz.C1, sz.C2);
    }
    forall c2, h
      ensures AdjointRow(dys, ks, sz, H2, W2, px, py, 0, 0, 0, 0, c2, h) == if c2 == 0 && h == 0 then 1 else 0
    {
      SumUnit(0, W2, 0, w => AdjointTerm(dys, ks, sz, H2, W2, px, py, 0, 0, 0, 0, c2, h, w));
    }
    forall c2
      ensures AdjointPlane(dys, ks, sz, H2, W2, px, py, 0, 0, 0, 0, c2) == if c2 == 0 then 1 else 0
    {
      SumUnit(0, H2, 0, h => AdjointRow(dys, ks, sz, H2, W2, px, py, 0, 0, 0, 0, c2, h));
    }
    SumUnit(0, sz.C2, 0, c2 => AdjointPlane(dys, ks, sz, H2, W2, px, py, 0, 0, 0, 0, c2));
  }

  /** For non-empty extents, the source's dX is the derivative for every dY and
      K if and only if the mode is "valid" or both kernel extents are odd. */
  lemma BackwardInputAdjointExactly(p: Padding, sz: Sizes, H2: nat, W2: nat)
    requires 1 <= sz.N && 1 <= sz.H1 && 1 <= sz.W1 && 1 <= sz.C1 && 1 <= sz.C2 && 1 <= H2 && 1 <= W2
    requires 1 <= sz.k1 && 1 <= sz.k2
    ensures var g := ForwardGeometry(p, sz.H1, sz.W1, sz.k1, sz.k2);
      var b := BackwardPadding(p, sz.k1, sz.k2);
      (forall dys: seq<int>, ks: seq<int>, n: int, r: int, c: int, c1: int ::
         InputGrad(dys, ks, sz, H2, W2, b.dxX, b.dxY, n, r, c, c1)
           == InputAdjoint(dys, ks, sz, H2, W2, g.padX, g.padY, n, r, c, c1))
      <==> (p == Valid || (sz.k1 % 2 == 1 && sz.k2 % 2 == 1))
  {
    var g := ForwardGeometry(p, sz.H1, sz.W1, sz.k1, sz.k2);
    var b := BackwardPadding(p, sz.k1, sz.k2);
    if p == Valid || (sz.k1 % 2 == 1 && sz.k2 % 2 == 1) {
      forall dys: seq<int>, ks: seq<int>, n: int, r: int, c: int, c1: int
        ensures InputGrad(dys, ks, sz, H2, W2, b.dxX, b.dxY, n, r, c, c1)
             == InputAdjoint(dys, ks, sz, H2, W2, g.padX, g.padY, n, r, c, c1)
      {
        BackwardInputIsAdjoint(p, dys, ks, sz, H2, W2, n, r, c, c1);
      }
    } else {
      InputPadIsTransposedPad(p, sz.H1, sz.W1, sz.k1, sz.k2);
      OtherOffsetsAreNotAdjoint(sz, H2, W2, g.padX, g.padY, b.dxX, b.dxY);
    }
  }

  // ------------------------------------------------ offsets that give the adjoint

  /** The input-gradient offsets of a transposed correlation, k - 1 - pad, in
      both modes; the filter-gradient offsets are those of the source. */
  function AdjointPadding(p: Padding, k1: nat, k2: nat): (b: BackwardPads)
    ensures forall H1: nat, W1: nat :: var g := ForwardGeometry(p, H1, W1, k1, k2);
      b.dxX == k1 - 1 - g.padX && b.dxY == k2 - 1 - g.padY
    ensures var s := BackwardPadding(p, k1, k2); b.dwX == s.dwX && b.dwY == s.dwY
  {
    match p
    case Same => BackwardPads(k1 - 1 - k1 / 2, k2 - 1 - k2 / 2, k1 / 2, k2 / 2)
    case Valid => BackwardPads(k1 - 1, k2 - 1, 0, 0)
  }

  /** The source's offsets are the adjoint ones exactly in "valid" mode and, in
      "same" mode, when both kernel extents are odd. */
  lemma SourcePaddingIsAdjointPadding(p: Padding, k1: nat, k2: nat)
    ensures BackwardPadding(p, k1, k2) == AdjointPadding(p, k1, k2)
        <==> (p == Valid || (k1 % 2 == 1 && k2 % 2 == 1))
  {
    if p == Same && k1 % 2 == 0 {
      assert BackwardPadding(p, k1, k2).dxX != AdjointPadding(p, k1, k2).dxX;
    }
    if p == Same && k2 % 2 == 0 {
      assert BackwardPadding(p, k1, k2).dxY != AdjointPadding(p, k1, k2).dxY;
    }
  }

  /** `_backward` with the input-gradient offsets k - 1 - pad: for every kernel
      size and both modes, dX is the derivative of the sum of dY * Y with respect
      to X, while dW and dB are those of the source. */
  method AdjointBackward(X: array<int>, K: array<int>, dY: array<int>, sz: Sizes, H2: nat, W2: nat, padding: string)
    returns (dX: array<int>, dW: array<int>, dB: array<int>)
    requires X.Length == sz.XLen() && K.Length == sz.KLen() && dY.Length == sz.N * H2 * W2 * sz.C2
    ensures fresh(dX) && fresh(dW) && fresh(dB)
    ensures dX.Length == sz.XLen() && dW.Length == sz.KLen() && dB.Length == sz.C2
    ensures forall c2 :: 0 <= c2 < sz.C2 ==> dB[c2] == BiasGrad(dY[..], sz, H2, W2, c2)
    ensures var g := ForwardGeometry(ParsePadding(padding), sz.H1, sz.W1, sz.k1, sz.k2);
      forall n, h1, w1, c1 :: InBox(n, h1, w1, c1, sz.N, sz.H1, sz.W1, sz.C1) ==>
        dX[Idx4(n, h1, w1, c1, sz.N, sz.H1, sz.W1, sz.C1)] ==
          InputAdjoint(dY[..], K[..], sz, H2, W2, g.padX, g.padY, n, h1, w1, c1)
    ensures var g := ForwardGeometry(ParsePadding(padding), sz.H1, sz.W1, sz.k1, sz.k2);
      forall i, j, c1, c2 :: InBox(i, j, c1, c2, sz.k1, sz.k2, sz.C1, sz.C2) ==>
        dW[Idx4(i, j, c1, c2, sz.k1, sz.k2, sz.C1, sz.C2)] ==
          FilterGrad(X[..], dY[..], sz, H2, W2, g.padX, g.padY, i, j, c1, c2)
  {
    var p := ParsePadding(padding);
    var g := ForwardGeometry(p, sz.H1, sz.W1, sz.k1, sz.k2);
    var pads := AdjointPadding(p, sz.k1, sz.k2);
    FilterPadIsForwardPad(p, sz.H1, sz.W1, sz.k1, sz.k2);
    dX, dW, dB := BackwardLoops(X, K, dY, sz, H2, W2, pads);
    forall n, h1, w1, c1 | InBox(n, h1, w1, c1, sz.N, sz.H1, sz.W1, sz.C1)
      ensures dX[Idx4(n, h1, w1, c1, sz.N, sz.H1, sz.W1, sz.C1)] ==
        InputAdjoint(dY[..], K[..], sz, H2, W2, g.padX, g.padY, n, h1, w1, c1)
    {
      InputGradIsAdjoint(dY[..], K[..], sz, H2, W2, g.padX, g.padY, n, h1, w1, c1);
    }
  }
}
