/** Tensor extents, the padding mode, the output-shape rule and the clamped
    loop bounds of conv_func.c. */
module Shapes {

  /** The extents conv_func.c reads off its inputs: X is (N, H1, W1, C1) and the
      filter bank K is (k1, k2, C1, C2). */
  datatype Sizes = Sizes(N: nat, H1: nat, W1: nat, C1: nat, k1: nat, k2: nat, C2: nat) {
    function XLen(): nat { N * H1 * W1 * C1 }
    function KLen(): nat { k1 * k2 * C1 * C2 }
  }

  datatype Padding = Same | Valid

  /** The mode string is compared with "same"; every other string selects "valid". */
  function ParsePadding(s: string): (p: Padding)
    ensures p == Same <==> s == "same"
  {
    if s == "same" then Same else Valid
  }

  /** The MIN and MAX macros. */
  function Min(a: int, b: int): (m: int)
    ensures m <= a && m <= b && (m == a || m == b)
  {
    if a < b then a else b
  }

  function Max(a: int, b: int): (m: int)
    ensures m >= a && m >= b && (m == a || m == b)
  {
    if a > b then a else b
  }

  /** Padding offsets and output extents of the forward pass. */
  datatype Geometry = Geometry(padX: int, padY: int, H2: int, W2: int)

  /** "same" pads by k/2 in front, so tap k/2 (the middle tap of an odd kernel)
      sits over output position h, and keeps the spatial extents; "valid" does
      not pad and ends the last window at the last input row and column. */
  function ForwardGeometry(p: Padding, H1: nat, W1: nat, k1: nat, k2: nat): (g: Geometry)
    ensures p == Same ==> (g.H2 == H1 && g.W2 == W1 &&
                           2 * g.padX <= k1 < 2 * g.padX + 2 && 2 * g.padY <= k2 < 2 * g.padY + 2)
    ensures p == Valid ==> (g.padX == 0 && g.padY == 0 &&
                            (g.H2 - 1) + (k1 - 1) == H1 - 1 && (g.W2 - 1) + (k2 - 1) == W1 - 1)
  {
    match p
    case Same => Geometry(k1 / 2, k2 / 2, H1, W1)
    case Valid => Geometry(0, 0, H1 - k1 + 1, W1 - k2 + 1)
  }

  /** A kernel window of k taps starting at coordinate h lies inside an axis of length n. */
  predicate WindowInside(h: int, k: int, n: int) {
    0 <= h && h + k <= n
  }

  /** The output-shape law.  "same" keeps the spatial extents and anchors the
      kernel at its middle tap; "valid" does not pad and produces exactly the
      output rows (columns) whose whole kernel window lies inside the input. */
  lemma OutputShape(p: Padding, H1: nat, W1: nat, k1: nat, k2: nat)
    ensures var g := ForwardGeometry(p, H1, W1, k1, k2);
      p == Same ==> g.H2 == H1 && g.W2 == W1 && 2 * g.padX <= k1 < 2 * g.padX + 2 && 2 * g.padY <= k2 < 2 * g.padY + 2
    ensures var g := ForwardGeometry(p, H1, W1, k1, k2);
      p == Valid ==> (g.padX == 0 && g.padY == 0 &&
        (forall h :: 0 <= h ==> (h < g.H2 <==> WindowInside(h, k1, H1))) &&
        (forall w :: 0 <= w ==> (w < g.W2 <==> WindowInside(w, k2, W1))))
  {
  }

  /** Padding offsets of the three backward passes. */
  datatype BackwardPads = BackwardPads(dxX: int, dxY: int, dwX: int, dwY: int)

  /** In "same" mode both backward passes anchor the kernel at its middle tap,
      like the forward pass.  In "valid" mode dW is unpadded and dX is padded by
      the kernel extent minus one, a full correlation. */
  function BackwardPadding(p: Padding, k1: nat, k2: nat): (b: BackwardPads)
    ensures p == Same ==> (b.dxX == b.dwX && b.dxY == b.dwY &&
                           2 * b.dwX <= k1 < 2 * b.dwX + 2 && 2 * b.dwY <= k2 < 2 * b.dwY + 2)
    ensures p == Valid ==> b.dwX == 0 && b.dwY == 0 && b.dxX == k1 - 1 && b.dxY == k2 - 1
  {
    match p
    case Same => BackwardPads(k1 / 2, k2 / 2, k1 / 2, k2 / 2)
    case Valid => BackwardPads(k1 - 1, k2 - 1, 0, 0)
  }

  /** The filter-gradient pass uses exactly the forward pass's offsets. */
  lemma FilterPadIsForwardPad(p: Padding, H1: nat, W1: nat, k1: nat, k2: nat)
    ensures var g := ForwardGeometry(p, H1, W1, k1, k2);
      var b := BackwardPadding(p, k1, k2);
      b.dwX == g.padX && b.dwY == g.padY
  {
  }

  /** The input-gradient pass uses the offset k - 1 - pad of a transposed
      correlation exactly in "valid" mode and, in "same" mode, for odd kernels. */
  lemma InputPadIsTransposedPad(p: Padding, H1: nat, W1: nat, k1: nat, k2: nat)
    ensures var g := ForwardGeometry(p, H1, W1, k1, k2);
      var b := BackwardPadding(p, k1, k2);
      (b.dxX == k1 - 1 - g.padX <==> p == Valid || k1 % 2 == 1) &&
      (b.dxY == k2 - 1 - g.padY <==> p == Valid || k2 % 2 == 1)
  {
  }

  /** A half-open range of loop indices. */
  datatype Range = Range(lo: int, hi: int) {
    predicate Contains(t: int) { lo <= t < hi }
  }

  /** The clamped bounds `[MAX(0, pad - pos), MIN(count, extent + pad - pos))`.
      They select, among the indices t in [0, count), exactly those for which the
      coordinate `pos + t - pad` lies inside an axis of length `extent`. */
  function OverlapRange(pad: int, extent: int, count: int, pos: int): (r: Range)
    ensures 0 <= r.lo && r.hi <= count
    ensures forall t :: 0 <= t < count ==> (r.Contains(t) <==> 0 <= pos + t - pad < extent)
  {
    Range(Max(0, pad - pos), Min(count, extent + pad - pos))
  }
}
