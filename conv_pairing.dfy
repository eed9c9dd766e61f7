/** The gradients of `_backward` checked against `_forward` by inner products.
    The forward output is linear in K for fixed X and linear in X for fixed K,
    so dW is the gradient of the sum of dY * (Y - B) with respect to K exactly
    when that sum equals the sum of K * dW for every K, and likewise for dX
    and X.  Sums run in the order of the source's loops: the forward output over
    (c2, n, h, w), dW over (c2, c1, i, j), dX over (n, c1, h1, w1). */
module ConvPairing {
  import opened Tensor
  import opened Sums
  import opened BoxSums
  import opened Shapes
  import opened ConvForward
  import opened ConvBackward
  import opened ConvAdjoint

  // ------------------------------------------------------------ summands

  /** dY[n, h, w, c2] times the correlation at (n, h, w, c2), as a function of (n, h, w). */
  function OutputTerms(dys: seq<int>, xs: seq<int>, ks: seq<int>, sz: Sizes, H2: int, W2: int, px: int, py: int,
                       c2: int): (int, int, int) -> int
  {
    (n, h, w) => At4(dys, n, h, w, c2, sz.N, H2, W2, sz.C2) * Correlation(xs, ks, sz, px, py, n, h, w, c2)
  }

  /** K[i, j, c1, c2] times dW[i, j, c1, c2], as a function of (c1, i, j). */
  function FilterTerms(ks: seq<int>, xs: seq<int>, dys: seq<int>, sz: Sizes, H2: int, W2: int, px: int, py: int,
                       c2: int): (int, int, int) -> int
  {
    (c1, i, j) => At4(ks, i, j, c1, c2, sz.k1, sz.k2, sz.C1, sz.C2) * FilterGrad(xs, dys, sz, H2, W2, px, py, i, j, c1, c2)
  }

  /** The taps of the correlation at output (n, h, w, c2), as a function of (c1, i, j). */
  function TapsAt(xs: seq<int>, ks: seq<int>, sz: Sizes, px: int, py: int,
                  n: int, h: int, w: int, c2: int): (int, int, int) -> int
  {
    (c1, i, j) => Tap(xs, ks, sz, px, py, n, h, w, c2, c1, i, j)
  }

  /** The products summed into dW[i, j, c1, c2], as a function of (n, h2, w2). */
  function FilterProducts(xs: seq<int>, dys: seq<int>, sz: Sizes, H2: int, W2: int, p: int, q: int,
                          i: int, j: int, c1: int, c2: int): (int, int, int) -> int
  {
    (n, h2, w2) => FilterTerm(xs, dys, sz, H2, W2, p, q, i, j, c1, c2, n, h2, w2)
  }

  /** The box of filter taps (c1, i, j) and the box of output positions (n, h, w). */
  function TapBox(sz: Sizes): Box3 { Box3(0, sz.C1, 0, sz.k1, 0, sz.k2) }
  function OutputBox(sz: Sizes, H2: int, W2: int): Box3 { Box3(0, sz.N, 0, H2, 0, W2) }

  // ------------------------------------------------------------ pairings

  /** The sum of dY * (Y - B) over the whole forward output. */
  function CorrelationPairing(dys: seq<int>, xs: seq<int>, ks: seq<int>, sz: Sizes, H2: int, W2: int, px: int, py: int): int {
    Sum(0, sz.C2, c2 => Sum3(OutputBox(sz, H2, W2), OutputTerms(dys, xs, ks, sz, H2, W2, px, py, c2)))
  }

  /** The sum of K * dW over the whole filter bank. */
  function FilterPairing(ks: seq<int>, xs: seq<int>, dys: seq<int>, sz: Sizes, H2: int, W2: int, px: int, py: int): int {
    Sum(0, sz.C2, c2 => Sum3(TapBox(sz), FilterTerms(ks, xs, dys, sz, H2, W2, px, py, c2)))
  }

  // ------------------------------------------------------------ closed forms as box sums

  lemma CorrelationIsSum3(xs: seq<int>, ks: seq<int>, sz: Sizes, px: int, py: int, n: int, h: int, w: int, c2: int)
    ensures Correlation(xs, ks, sz, px, py, n, h, w, c2) == Sum3(TapBox(sz), TapsAt(xs, ks, sz, px, py, n, h, w, c2))
  {
    var bx, T := TapBox(sz), TapsAt(xs, ks, sz, px, py, n, h, w, c2);
    forall c1 | 0 <= c1 < sz.C1
      ensures TapPlane(xs, ks, sz, px, py, n, h, w, c2, c1, 0, sz.k1, 0, sz.k2) == Sum2At(bx, c1, T)
    {
      forall i | 0 <= i < sz.k1
        ensures TapRow(xs, ks, sz, px, py, n, h, w, c2, c1, i, 0, sz.k2) == Sum1At(bx, c1, i, T)
      {
        SumCongruence(0, sz.k2, j => Tap(xs, ks, sz, px, py, n, h, w, c2, c1, i, j), c => T(c1, i, c));
      }
      SumCongruence(0, sz.k1, i => TapRow(xs, ks, sz, px, py, n, h, w, c2, c1, i, 0, sz.k2), b => Sum1At(bx, c1, b, T));
    }
    SumCongruence(0, sz.C1, c1 => TapPlane(xs, ks, sz, px, py, n, h, w, c2, c1, 0, sz.k1, 0, sz.k2), a => Sum2At(bx, a, T));
  }

  lemma FilterGradIsSum3(xs: seq<int>, dys: seq<int>, sz: Sizes, H2: int, W2: int, p: int, q: int,
                         i: int, j: int, c1: int, c2: int)
    ensures FilterGrad(xs, dys, sz, H2, W2, p, q, i, j, c1, c2)
         == Sum3(OutputBox(sz, H2, W2), FilterProducts(xs, dys, sz, H2, W2, p, q, i, j, c1, c2))
  {
    var bx, T := OutputBox(sz, H2, W2), FilterProducts(xs, dys, sz, H2, W2, p, q, i, j, c1, c2);
    forall n | 0 <= n < sz.N
      ensures FilterItem(xs, dys, sz, H2, W2, p, q, i, j, c1, c2, n) == Sum2At(bx, n, T)
    {
      forall h2 | 0 <= h2 < H2
        ensures FilterRow(xs, dys, sz, H2, W2, p, q, i, j, c1, c2, n, h2, 0, W2) == Sum1At(bx, n, h2, T)
      {
        SumCongruence(0, W2, w2 => FilterTerm(xs, dys, sz, H2, W2, p, q, i, j, c1, c2, n, h2, w2), c => T(n, h2, c));
      }
      SumCongruence(0, H2, h2 => FilterRow(xs, dys, sz, H2, W2, p, q, i, j, c1, c2, n, h2, 0, W2), b => Sum1At(bx, n, b, T));
    }
    SumCongruence(0, sz.N, n => FilterItem(xs, dys, sz, H2, W2, p, q, i, j, c1, c2, n), a => Sum2At(bx, a, T));
  }

  // ------------------------------------------------------------ dW

  /** The summand of both sides of the dW identity for output channel c2:
      dY[n, h, w, c2] * X[n, h+i-px, w+j-py, c1] * K[i, j, c1, c2]. */
  function FilterSummand(xs: seq<int>, ks: seq<int>, dys: seq<int>, sz: Sizes, H2: int, W2: int, px: int, py: int,
                         c2: int): (int, int, int, int, int, int) -> int
  {
    (n, h, w, c1, i, j) => At4(dys, n, h, w, c2, sz.N, H2, W2, sz.C2) * Tap(xs, ks, sz, px, py, n, h, w, c2, c1, i, j)
  }

  lemma OutputTermIsInnerSum(xs: seq<int>, ks: seq<int>, dys: seq<int>, sz: Sizes, H2: int, W2: int, px: int, py: int,
                             c2: int, n: int, h: int, w: int)
    ensures OutputTerms(dys, xs, ks, sz, H2, W2, px, py, c2)(n, h, w)
         == InnerSums(FilterSummand(xs, ks, dys, sz, H2, W2, px, py, c2), TapBox(sz))(n, h, w)
  {
    var f := FilterSummand(xs, ks, dys, sz, H2, W2, px, py, c2);
    var d := At4(dys, n, h, w, c2, sz.N, H2, W2, sz.C2);
    var T := TapsAt(xs, ks, sz, px, py, n, h, w, c2);
    CorrelationIsSum3(xs, ks, sz, px, py, n, h, w, c2);
    Sum3Scale(TapBox(sz), d, T);
    forall c1, i, j | TapBox(sz).Contains(c1, i, j)
      ensures Scaled(d, T)(c1, i, j) == Inner(f, n, h, w)(c1, i, j)
    {
    }
    Sum3Ext(TapBox(sz), Scaled(d, T), Inner(f, n, h, w));
  }

  /** Reordering a product of three factors. */
  lemma Commute3(a: int, b: int, c: int)
    ensures a * (b * c) == b * (a * c) && a * (b * c) == c * (b * a)
  {
  }

  lemma FilterTermIsOuterSum(xs: seq<int>, ks: seq<int>, dys: seq<int>, sz: Sizes, H2: int, W2: int, px: int, py: int,
                             c2: int, c1: int, i: int, j: int)
    ensures FilterTerms(ks, xs, dys, sz, H2, W2, px, py, c2)(c1, i, j)
         == OuterSums(FilterSummand(xs, ks, dys, sz, H2, W2, px, py, c2), OutputBox(sz, H2, W2))(c1, i, j)
  {
    var f := FilterSummand(xs, ks, dys, sz, H2, W2, px, py, c2);
    var k := At4(ks, i, j, c1, c2, sz.k1, sz.k2, sz.C1, sz.C2);
    var T := FilterProducts(xs, dys, sz, H2, W2, px, py, i, j, c1, c2);
    FilterGradIsSum3(xs, dys, sz, H2, W2, px, py, i, j, c1, c2);
    Sum3Scale(OutputBox(sz, H2, W2), k, T);
    forall n, h, w | OutputBox(sz, H2, W2).Contains(n, h, w)
      ensures Scaled(k, T)(n, h, w) == Outer(f, c1, i, j)(n, h, w)
    {
      var x := At4(xs, n, h + i - px, w + j - py, c1, sz.N, sz.H1, sz.W1, sz.C1);
      var d := At4(dys, n, h, w, c2, sz.N, H2, W2, sz.C2);
      assert Scaled(k, T)(n, h, w) == k * (x * d);
      assert Outer(f, c1, i, j)(n, h, w) == d * (x * k);
      Commute3(k, x, d);
    }
    Sum3Ext(OutputBox(sz, H2, W2), Scaled(k, T), Outer(f, c1, i, j));
  }

  /** For one output channel, the dW identity is the exchange of the sum over
      output positions with the sum over filter taps. */
  lemma FilterChannelPairing(xs: seq<int>, ks: seq<int>, dys: seq<int>, sz: Sizes, H2: int, W2: int, px: int, py: int,
                             c2: int)
    ensures Sum3(OutputBox(sz, H2, W2), OutputTerms(dys, xs, ks, sz, H2, W2, px, py, c2))
         == Sum3(TapBox(sz), FilterTerms(ks, xs, dys, sz, H2, W2, px, py, c2))
  {
    var f := FilterSummand(xs, ks, dys, sz, H2, W2, px, py, c2);
    forall n, h, w | OutputBox(sz, H2, W2).Contains(n, h, w)
      ensures OutputTerms(dys, xs, ks, sz, H2, W2, px, py, c2)(n, h, w) == InnerSums(f, TapBox(sz))(n, h, w)
    {
      OutputTermIsInnerSum(xs, ks, dys, sz, H2, W2, px, py, c2, n, h, w);
    }
    Sum3Ext(OutputBox(sz, H2, W2), OutputTerms(dys, xs, ks, sz, H2, W2, px, py, c2), InnerSums(f, TapBox(sz)));
    Sum3Swap(f, OutputBox(sz, H2, W2), TapBox(sz));
    forall c1, i, j | TapBox(sz).Contains(c1, i, j)
      ensures FilterTerms(ks, xs, dys, sz, H2, W2, px, py, c2)(c1, i, j) == OuterSums(f, OutputBox(sz, H2, W2))(c1, i, j)
    {
      FilterTermIsOuterSum(xs, ks, dys, sz, H2, W2, px, py, c2, c1, i, j);
    }
    Sum3Ext(TapBox(sz), FilterTerms(ks, xs, dys, sz, H2, W2, px, py, c2), OuterSums(f, OutputBox(sz, H2, W2)));
  }

  /** dW is the gradient of the sum of dY * (Y - B) with respect to K: that sum
      equals the sum of K * dW, with dW taken at the forward offsets. */
  lemma FilterGradIsGradient(xs: seq<int>, ks: seq<int>, dys: seq<int>, sz: Sizes, H2: int, W2: int, px: int, py: int)
    ensures CorrelationPairing(dys, xs, ks, sz, H2, W2, px, py) == FilterPairing(ks, xs, dys, sz, H2, W2, px, py)
  {
    forall c2 | 0 <= c2 < sz.C2
      ensures Sum3(OutputBox(sz, H2, W2), OutputTerms(dys, xs, ks, sz, H2, W2, px, py, c2))
           == Sum3(TapBox(sz), FilterTerms(ks, xs, dys, sz, H2, W2, px, py, c2))
    {
      FilterChannelPairing(xs, ks, dys, sz, H2, W2, px, py, c2);
    }
    SumCongruence(0, sz.C2, c2 => Sum3(OutputBox(sz, H2, W2), OutputTerms(dys, xs, ks, sz, H2, W2, px, py, c2)),
                  c2 => Sum3(TapBox(sz), FilterTerms(ks, xs, dys, sz, H2, W2, px, py, c2)));
  }

  // ------------------------------------------------------------ dB

  /** B[c2], or 0 outside the bias vector. */
  function BiasAt(bs: seq<int>, c2: int): int {
    if 0 <= c2 < |bs| then bs[c2] else 0
  }

  /** dY[n, h, w, c2] as a function of (n, h, w). */
  function OutputsAt(dys: seq<int>, sz: Sizes, H2: int, W2: int, c2: int): (int, int, int) -> int {
    (n, h, w) => At4(dys, n, h, w, c2, sz.N, H2, W2, sz.C2)
  }

  /** dY[n, h, w, c2] times the bias B[c2] that Y[n, h, w, c2] receives. */
  function BiasTerms(dys: seq<int>, bs: seq<int>, sz: Sizes, H2: int, W2: int, c2: int): (int, int, int) -> int {
    (n, h, w) => At4(dys, n, h, w, c2, sz.N, H2, W2, sz.C2) * BiasAt(bs, c2)
  }

  /** The sum of dY * B over the whole forward output, B broadcast along (n, h, w). */
  function BroadcastPairing(dys: seq<int>, bs: seq<int>, sz: Sizes, H2: int, W2: int): int {
    Sum(0, sz.C2, c2 => Sum3(OutputBox(sz, H2, W2), BiasTerms(dys, bs, sz, H2, W2, c2)))
  }

  /** The sum of B * dB over the bias vector. */
  function BiasPairing(bs: seq<int>, dys: seq<int>, sz: Sizes, H2: int, W2: int): int {
    Sum(0, sz.C2, c2 => BiasAt(bs, c2) * BiasGrad(dys, sz, H2, W2, c2))
  }

  lemma BiasGradIsSum3(dys: seq<int>, sz: Sizes, H2: int, W2: int, c2: int)
    ensures BiasGrad(dys, sz, H2, W2, c2) == Sum3(OutputBox(sz, H2, W2), OutputsAt(dys, sz, H2, W2, c2))
  {
    var bx, T := OutputBox(sz, H2, W2), OutputsAt(dys, sz, H2, W2, c2);
    forall n | 0 <= n < sz.N
      ensures GradPlane(dys, sz, H2, W2, n, c2, H2) == Sum2At(bx, n, T)
    {
      forall h2 | 0 <= h2 < H2
        ensures GradRow(dys, sz, H2, W2, n, c2, h2, W2) == Sum1At(bx, n, h2, T)
      {
        SumCongruence(0, W2, w2 => At4(dys, n, h2, w2, c2, sz.N, H2, W2, sz.C2), c => T(n, h2, c));
      }
      SumCongruence(0, H2, h2 => GradRow(dys, sz, H2, W2, n, c2, h2, W2), b => Sum1At(bx, n, b, T));
    }
    SumCongruence(0, sz.N, n => GradPlane(dys, sz, H2, W2, n, c2, H2), a => Sum2At(bx, a, T));
  }

  /** dB is the gradient of the sum of dY * Y with respect to B: the bias part of
      that sum equals the sum of B * dB. */
  lemma BiasGradIsGradient(dys: seq<int>, bs: seq<int>, sz: Sizes, H2: int, W2: int)
    ensures BroadcastPairing(dys, bs, sz, H2, W2) == BiasPairing(bs, dys, sz, H2, W2)
  {
    var bx := OutputBox(sz, H2, W2);
    forall c2 | 0 <= c2 < sz.C2
      ensures Sum3(bx, BiasTerms(dys, bs, sz, H2, W2, c2)) == BiasAt(bs, c2) * BiasGrad(dys, sz, H2, W2, c2)
    {
      var b, T := BiasAt(bs, c2), OutputsAt(dys, sz, H2, W2, c2);
      BiasGradIsSum3(dys, sz, H2, W2, c2);
      Sum3Scale(bx, b, T);
      forall n, h, w | bx.Contains(n, h, w)
        ensures BiasTerms(dys, bs, sz, H2, W2, c2)(n, h, w) == Scaled(b, T)(n, h, w)
      {
      }
      Sum3Ext(bx, BiasTerms(dys, bs, sz, H2, W2, c2), Scaled(b, T));
    }
    SumCongruence(0, sz.C2, c2 => Sum3(bx, BiasTerms(dys, bs, sz, H2, W2, c2)),
                  c2 => BiasAt(bs, c2) * BiasGrad(dys, sz, H2, W2, c2));
  }

  // ------------------------------------------------------------ the forward output

  /** dY[n, h, w, c2] times the forward output Y[n, h, w, c2], as a function of (n, h, w). */
  function OutputValues(dys: seq<int>, ys: seq<int>, sz: Sizes, H2: int, W2: int, c2: int): (int, int, int) -> int {
    (n, h, w) => At4(dys, n, h, w, c2, sz.N, H2, W2, sz.C2) * At4(ys, n, h, w, c2, sz.N, H2, W2, sz.C2)
  }

  /** The sum of dY * Y over the whole forward output. */
  function OutputPairing(dys: seq<int>, ys: seq<int>, sz: Sizes, H2: int, W2: int): int {
    Sum(0, sz.C2, c2 => Sum3(OutputBox(sz, H2, W2), OutputValues(dys, ys, sz, H2, W2, c2)))
  }

  /** For an output that holds B[c2] plus the correlation everywhere (what
      `Forward` returns), the sum of dY * Y splits into its correlation part and
      its bias part. */
  lemma OutputPairingSplits(dys: seq<int>, ys: seq<int>, xs: seq<int>, ks: seq<int>, bs: seq<int>,
                            sz: Sizes, H2: nat, W2: nat, px: int, py: int)
    requires |ys| == sz.N * H2 * W2 * sz.C2 && |bs| == sz.C2
    requires forall n, h, w, c2 :: InBox(n, h, w, c2, sz.N, H2, W2, sz.C2) ==>
      ys[Idx4(n, h, w, c2, sz.N, H2, W2, sz.C2)] == bs[c2] + Correlation(xs, ks, sz, px, py, n, h, w, c2)
    ensures OutputPairing(dys, ys, sz, H2, W2)
         == CorrelationPairing(dys, xs, ks, sz, H2, W2, px, py) + BroadcastPairing(dys, bs, sz, H2, W2)
  {
    var bx := OutputBox(sz, H2, W2);
    var F := c2 => Sum3(bx, OutputTerms(dys, xs, ks, sz, H2, W2, px, py, c2));
    var G := c2 => Sum3(bx, BiasTerms(dys, bs, sz, H2, W2, c2));
    forall c2 | 0 <= c2 < sz.C2
      ensures Sum3(bx, OutputValues(dys, ys, sz, H2, W2, c2)) == F(c2) + G(c2)
    {
      var Y, C, B := OutputValues(dys, ys, sz, H2, W2, c2), OutputTerms(dys, xs, ks, sz, H2, W2, px, py, c2),
                     BiasTerms(dys, bs, sz, H2, W2, c2);
      forall n, h, w | bx.Contains(n, h, w)
        ensures Y(n, h, w) == C(n, h, w) + B(n, h, w)
      {
        At4InBox(ys, n, h, w, c2, sz.N, H2, W2, sz.C2);
        var d := At4(dys, n, h, w, c2, sz.N, H2, W2, sz.C2);
        var cor := Correlation(xs, ks, sz, px, py, n, h, w, c2);
        assert Y(n, h, w) == d * (bs[c2] + cor);
        assert d * (bs[c2] + cor) == d * cor + d * bs[c2];
      }
      Sum3Ext(bx, Y, (n, h, w) => C(n, h, w) + B(n, h, w));
      Sum3Add(bx, C, B);
    }
    SumCongruence(0, sz.C2, c2 => Sum3(bx, OutputValues(dys, ys, sz, H2, W2, c2)), x => F(x) + G(x));
    SumAdd(0, sz.C2, F, G);
  }

  /** The gradient identity for K and B: for the forward output Y, the sum of
      dY * Y equals the sum of K * dW plus the sum of B * dB. */
  lemma FilterAndBiasGradients(dys: seq<int>, ys: seq<int>, xs: seq<int>, ks: seq<int>, bs: seq<int>,
                               sz: Sizes, H2: nat, W2: nat, px: int, py: int)
    requires |ys| == sz.N * H2 * W2 * sz.C2 && |bs| == sz.C2
    requires forall n, h, w, c2 :: InBox(n, h, w, c2, sz.N, H2, W2, sz.C2) ==>
      ys[Idx4(n, h, w, c2, sz.N, H2, W2, sz.C2)] == bs[c2] + Correlation(xs, ks, sz, px, py, n, h, w, c2)
    ensures OutputPairing(dys, ys, sz, H2, W2)
         == FilterPairing(ks, xs, dys, sz, H2, W2, px, py) + BiasPairing(bs, dys, sz, H2, W2)
  {
    OutputPairingSplits(dys, ys, xs, ks, bs, sz, H2, W2, px, py);
    FilterGradIsGradient(xs, ks, dys, sz, H2, W2, px, py);
    BiasGradIsGradient(dys, bs, sz, H2, W2);
  }

  // ------------------------------------------------------------ dX

  /** The box of input positions (c1, r, c) of one batch item, and the box of
      output positions (c2, h, w) of one batch item. */
  function InputBox(sz: Sizes): Box3 { Box3(0, sz.C1, 0, sz.H1, 0, sz.W1) }
  function ItemBox(sz: Sizes, H2: int, W2: int): Box3 { Box3(0, sz.C2, 0, H2, 0, W2) }

  /** X[n, r, c, c1] times its share of dX, as a function of (c1, r, c). */
  function InputTerms(xs: seq<int>, dys: seq<int>, ks: seq<int>, sz: Sizes, H2: int, W2: int, px: int, py: int,
                      n: int): (int, int, int) -> int
  {
    (c1, r, c) => At4(xs, n, r, c, c1, sz.N, sz.H1, sz.W1, sz.C1) * InputAdjoint(dys, ks, sz, H2, W2, px, py, n, r, c, c1)
  }

  /** The sum of X * dX over the whole input, dX being the derivative
      `InputAdjoint` that `AdjointBackward` returns. */
  function InputPairing(xs: seq<int>, dys: seq<int>, ks: seq<int>, sz: Sizes, H2: int, W2: int, px: int, py: int): int {
    Sum(0, sz.N, n => Sum3(InputBox(sz), InputTerms(xs, dys, ks, sz, H2, W2, px, py, n)))
  }

  /** dY times the correlation for batch item n, as a function of (c2, h, w). */
  function ItemTerms(dys: seq<int>, xs: seq<int>, ks: seq<int>, sz: Sizes, H2: int, W2: int, px: int, py: int,
                     n: int): (int, int, int) -> int
  {
    (c2, h, w) => At4(dys, n, h, w, c2, sz.N, H2, W2, sz.C2) * Correlation(xs, ks, sz, px, py, n, h, w, c2)
  }

  /** The correlation at (n, h, w, c2) indexed by input position: X[n, r, c, c1]
      times the tap (r - h + px, c - w + py) that reaches it. */
  function InputTaps(xs: seq<int>, ks: seq<int>, sz: Sizes, px: int, py: int,
                     n: int, h: int, w: int, c2: int): (int, int, int) -> int
  {
    (c1, r, c) => At4(xs, n, r, c, c1, sz.N, sz.H1, sz.W1, sz.C1) *
                  At4(ks, r - h + px, c - w + py, c1, c2, sz.k1, sz.k2, sz.C1, sz.C2)
  }

  /** Kernel row i of the correlation is input row h + i - px, summed over the input's columns. */
  lemma TapRowByInput(xs: seq<int>, ks: seq<int>, sz: Sizes, px: int, py: int,
                      n: int, h: int, w: int, c2: int, c1: int, i: int)
    ensures TapRow(xs, ks, sz, px, py, n, h, w, c2, c1, i, 0, sz.k2)
         == Sum1At(InputBox(sz), c1, h + i - px, InputTaps(xs, ks, sz, px, py, n, h, w, c2))
  {
    var S := InputTaps(xs, ks, sz, px, py, n, h, w, c2);
    var r, s := h + i - px, w - py;
    var f := c => S(c1, r, c);
    forall j | 0 <= j < sz.k2
      ensures Tap(xs, ks, sz, px, py, n, h, w, c2, c1, i, j) == f(j + s)
    {
      assert r - h + px == i && (j + s) - w + py == j;
    }
    SumCongruence(0, sz.k2, j => Tap(xs, ks, sz, px, py, n, h, w, c2, c1, i, j), x => f(x + s));
    SumShift(0, sz.k2, s, f);
    var lo, hi := Min(0, s), Max(sz.W1, s + sz.k2);
    SumZeroOutside(s, s + sz.k2, lo, hi, f);
    SumZeroOutside(0, sz.W1, lo, hi, f);
  }

  /** Input channel c1 of the correlation, summed over input positions instead of kernel taps. */
  lemma TapPlaneByInput(xs: seq<int>, ks: seq<int>, sz: Sizes, px: int, py: int,
                        n: int, h: int, w: int, c2: int, c1: int)
    ensures TapPlane(xs, ks, sz, px, py, n, h, w, c2, c1, 0, sz.k1, 0, sz.k2)
         == Sum2At(InputBox(sz), c1, InputTaps(xs, ks, sz, px, py, n, h, w, c2))
  {
    var bx, S := InputBox(sz), InputTaps(xs, ks, sz, px, py, n, h, w, c2);
    var s := h - px;
    var g := r => Sum1At(bx, c1, r, S);
    forall i | 0 <= i < sz.k1
      ensures TapRow(xs, ks, sz, px, py, n, h, w, c2, c1, i, 0, sz.k2) == g(i + s)
    {
      TapRowByInput(xs, ks, sz, px, py, n, h, w, c2, c1, i);
    }
    SumCongruence(0, sz.k1, i => TapRow(xs, ks, sz, px, py, n, h, w, c2, c1, i, 0, sz.k2), x => g(x + s));
    SumShift(0, sz.k1, s, g);
    var lo, hi := Min(0, s), Max(sz.H1, s + sz.k1);
    forall r | lo <= r < hi && !(s <= r < s + sz.k1 && 0 <= r < sz.H1)
      ensures g(r) == 0
    {
      forall c | 0 <= c < sz.W1
        ensures S(c1, r, c) == 0
      {
      }
      SumZero(0, sz.W1, c => S(c1, r, c));
    }
    SumZeroOutside(s, s + sz.k1, lo, hi, g);
    SumZeroOutside(0, sz.H1, lo, hi, g);
  }

  /** The correlation at (n, h, w, c2) as a sum over the input positions of batch item n. */
  lemma CorrelationByInput(xs: seq<int>, ks: seq<int>, sz: Sizes, px: int, py: int, n: int, h: int, w: int, c2: int)
    ensures Correlation(xs, ks, sz, px, py, n, h, w, c2) == Sum3(InputBox(sz), InputTaps(xs, ks, sz, px, py, n, h, w, c2))
  {
    var bx, S := InputBox(sz), InputTaps(xs, ks, sz, px, py, n, h, w, c2);
    forall c1 | 0 <= c1 < sz.C1
      ensures TapPlane(xs, ks, sz, px, py, n, h, w, c2, c1, 0, sz.k1, 0, sz.k2) == Sum2At(bx, c1, S)
    {
      TapPlaneByInput(xs, ks, sz, px, py, n, h, w, c2, c1);
    }
    SumCongruence(0, sz.C1, c1 => TapPlane(xs, ks, sz, px, py, n, h, w, c2, c1, 0, sz.k1, 0, sz.k2), a => Sum2At(bx, a, S));
  }

  /** The terms of the derivative InputAdjoint at (n, r, c, c1), as a function of (c2, h, w). */
  function AdjointTerms(dys: seq<int>, ks: seq<int>, sz: Sizes, H2: int, W2: int, px: int, py: int,
                        n: int, r: int, c: int, c1: int): (int, int, int) -> int
  {
    (c2, h, w) => AdjointTerm(dys, ks, sz, H2, W2, px, py, n, r, c, c1, c2, h, w)
  }

  lemma InputAdjointIsSum3(dys: seq<int>, ks: seq<int>, sz: Sizes, H2: int, W2: int, px: int, py: int,
                           n: int, r: int, c: int, c1: int)
    ensures InputAdjoint(dys, ks, sz, H2, W2, px, py, n, r, c, c1)
         == Sum3(ItemBox(sz, H2, W2), AdjointTerms(dys, ks, sz, H2, W2, px, py, n, r, c, c1))
  {
    var bx, T := ItemBox(sz, H2, W2), AdjointTerms(dys, ks, sz, H2, W2, px, py, n, r, c, c1);
    forall c2 | 0 <= c2 < sz.C2
      ensures AdjointPlane(dys, ks, sz, H2, W2, px, py, n, r, c, c1, c2) == Sum2At(bx, c2, T)
    {
      forall h | 0 <= h < H2
        ensures AdjointRow(dys, ks, sz, H2, W2, px, py, n, r, c, c1, c2, h) == Sum1At(bx, c2, h, T)
      {
        SumCongruence(0, W2, w => AdjointTerm(dys, ks, sz, H2, W2, px, py, n, r, c, c1, c2, h, w), z => T(c2, h, z));
      }
      SumCongruence(0, H2, h => AdjointRow(dys, ks, sz, H2, W2, px, py, n, r, c, c1, c2, h), b => Sum1At(bx, c2, b, T));
    }
    SumCongruence(0, sz.C2, c2 => AdjointPlane(dys, ks, sz, H2, W2, px, py, n, r, c, c1, c2), a => Sum2At(bx, a, T));
  }

  /** The summand of both sides of the dX identity for batch item n:
      dY[n, h, w, c2] * X[n, r, c, c1] * K[r - h + px, c - w + py, c1, c2]. */
  function InputSummand(xs: seq<int>, ks: seq<int>, dys: seq<int>, sz: Sizes, H2: int, W2: int, px: int, py: int,
                        n: int): (int, int, int, int, int, int) -> int
  {
    (c2, h, w, c1, r, c) => At4(dys, n, h, w, c2, sz.N, H2, W2, sz.C2) * InputTaps(xs, ks, sz, px, py, n, h, w, c2)(c1, r, c)
  }

  lemma ItemTermIsInnerSum(xs: seq<int>, ks: seq<int>, dys: seq<int>, sz: Sizes, H2: int, W2: int, px: int, py: int,
                           n: int, c2: int, h: int, w: int)
    ensures ItemTerms(dys, xs, ks, sz, H2, W2, px, py, n)(c2, h, w)
         == InnerSums(InputSummand(xs, ks, dys, sz, H2, W2, px, py, n), InputBox(sz))(c2, h, w)
  {
    var f := InputSummand(xs, ks, dys, sz, H2, W2, px, py, n);
    var d := At4(dys, n, h, w, c2, sz.N, H2, W2, sz.C2);
    var T := InputTaps(xs, ks, sz, px, py, n, h, w, c2);
    CorrelationByInput(xs, ks, sz, px, py, n, h, w, c2);
    Sum3Scale(InputBox(sz), d, T);
    forall c1, r, c | InputBox(sz).Contains(c1, r, c)
      ensures Scaled(d, T)(c1, r, c) == Inner(f, c2, h, w)(c1, r, c)
    {
    }
    Sum3Ext(InputBox(sz), Scaled(d, T), Inner(f, c2, h, w));
  }

  lemma InputTermIsOuterSum(xs: seq<int>, ks: seq<int>, dys: seq<int>, sz: Sizes, H2: int, W2: int, px: int, py: int,
                            n: int, c1: int, r: int, c: int)
    ensures InputTerms(xs, dys, ks, sz, H2, W2, px, py, n)(c1, r, c)
         == OuterSums(InputSummand(xs, ks, dys, sz, H2, W2, px, py, n), ItemBox(sz, H2, W2))(c1, r, c)
  {
    var f := InputSummand(xs, ks, dys, sz, H2, W2, px, py, n);
    var x := At4(xs, n, r, c, c1, sz.N, sz.H1, sz.W1, sz.C1);
    var T := AdjointTerms(dys, ks, sz, H2, W2, px, py, n, r, c, c1);
    InputAdjointIsSum3(dys, ks, sz, H2, W2, px, py, n, r, c, c1);
    Sum3Scale(ItemBox(sz, H2, W2), x, T);
    forall c2, h, w | ItemBox(sz, H2, W2).Contains(c2, h, w)
      ensures Scaled(x, T)(c2, h, w) == Outer(f, c1, r, c)(c2, h, w)
    {
      var d := At4(dys, n, h, w, c2, sz.N, H2, W2, sz.C2);
      var k := At4(ks, r - h + px, c - w + py, c1, c2, sz.k1, sz.k2, sz.C1, sz.C2);
      assert Scaled(x, T)(c2, h, w) == x * (d * k);
      assert InputTaps(xs, ks, sz, px, py, n, h, w, c2)(c1, r, c) == x * k;
      assert Outer(f, c1, r, c)(c2, h, w) == d * (x * k);
      Commute3(x, d, k);
    }
    Sum3Ext(ItemBox(sz, H2, W2), Scaled(x, T), Outer(f, c1, r, c));
  }

  /** For one batch item, the dX identity is the exchange of the sum over
      output positions with the sum over input positions. */
  lemma InputItemPairing(xs: seq<int>, ks: seq<int>, dys: seq<int>, sz: Sizes, H2: int, W2: int, px: int, py: int,
                         n: int)
    ensures Sum3(ItemBox(sz, H2, W2), ItemTerms(dys, xs, ks, sz, H2, W2, px, py, n))
         == Sum3(InputBox(sz), InputTerms(xs, dys, ks, sz, H2, W2, px, py, n))
  {
    var f := InputSummand(xs, ks, dys, sz, H2, W2, px, py, n);
    forall c2, h, w | ItemBox(sz, H2, W2).Contains(c2, h, w)
      ensures ItemTerms(dys, xs, ks, sz, H2, W2, px, py, n)(c2, h, w) == InnerSums(f, InputBox(sz))(c2, h, w)
    {
      ItemTermIsInnerSum(xs, ks, dys, sz, H2, W2, px, py, n, c2, h, w);
    }
    Sum3Ext(ItemBox(sz, H2, W2), ItemTerms(dys, xs, ks, sz, H2, W2, px, py, n), InnerSums(f, InputBox(sz)));
    Sum3Swap(f, ItemBox(sz, H2, W2), InputBox(sz));
    forall c1, r, c | InputBox(sz).Contains(c1, r, c)
      ensures InputTerms(xs, dys, ks, sz, H2, W2, px, py, n)(c1, r, c) == OuterSums(f, ItemBox(sz, H2, W2))(c1, r, c)
    {
      InputTermIsOuterSum(xs, ks, dys, sz, H2, W2, px, py, n, c1, r, c);
    }
    Sum3Ext(InputBox(sz), InputTerms(xs, dys, ks, sz, H2, W2, px, py, n), OuterSums(f, ItemBox(sz, H2, W2)));
  }

  /** The (h, w) plane of output channel c2 and batch item n is the same sum
      whether the output is grouped by channel or by batch item. */
  lemma PlaneRegrouped(dys: seq<int>, xs: seq<int>, ks: seq<int>, sz: Sizes, H2: int, W2: int, px: int, py: int,
                       n: int, c2: int)
    ensures Sum2At(OutputBox(sz, H2, W2), n, OutputTerms(dys, xs, ks, sz, H2, W2, px, py, c2))
         == Sum2At(ItemBox(sz, H2, W2), c2, ItemTerms(dys, xs, ks, sz, H2, W2, px, py, n))
  {
    var A, B := OutputBox(sz, H2, W2), ItemBox(sz, H2, W2);
    var F, G := OutputTerms(dys, xs, ks, sz, H2, W2, px, py, c2), ItemTerms(dys, xs, ks, sz, H2, W2, px, py, n);
    forall h | 0 <= h < H2
      ensures Sum1At(A, n, h, F) == Sum1At(B, c2, h, G)
    {
      SumCongruence(0, W2, w => F(n, h, w), w => G(c2, h, w));
    }
    SumCongruence(0, H2, h => Sum1At(A, n, h, F), h => Sum1At(B, c2, h, G));
  }

  /** The sum of dY * (Y - B), grouped by batch item instead of by output channel. */
  lemma CorrelationPairingByItem(dys: seq<int>, xs: seq<int>, ks: seq<int>, sz: Sizes, H2: int, W2: int, px: int, py: int)
    ensures CorrelationPairing(dys, xs, ks, sz, H2, W2, px, py)
         == Sum(0, sz.N, n => Sum3(ItemBox(sz, H2, W2), ItemTerms(dys, xs, ks, sz, H2, W2, px, py, n)))
  {
    var A, B := OutputBox(sz, H2, W2), ItemBox(sz, H2, W2);
    var f := (c2, n) => Sum2At(A, n, OutputTerms(dys, xs, ks, sz, H2, W2, px, py, c2));
    forall c2 | 0 <= c2 < sz.C2
      ensures Sum3(A, OutputTerms(dys, xs, ks, sz, H2, W2, px, py, c2)) == Sum(0, sz.N, n => f(c2, n))
    {
      SumCongruence(0, sz.N, a => Sum2At(A, a, OutputTerms(dys, xs, ks, sz, H2, W2, px, py, c2)), n => f(c2, n));
    }
    SumCongruence(0, sz.C2, c2 => Sum3(A, OutputTerms(dys, xs, ks, sz, H2, W2, px, py, c2)),
                  c2 => Sum(0, sz.N, n => f(c2, n)));
    SumSwap(0, sz.C2, 0, sz.N, f);
    forall n | 0 <= n < sz.N
      ensures Sum(0, sz.C2, c2 => f(c2, n)) == Sum3(B, ItemTerms(dys, xs, ks, sz, H2, W2, px, py, n))
    {
      forall c2 | 0 <= c2 < sz.C2
        ensures f(c2, n) == Sum2At(B, c2, ItemTerms(dys, xs, ks, sz, H2, W2, px, py, n))
      {
        PlaneRegrouped(dys, xs, ks, sz, H2, W2, px, py, n, c2);
      }
      SumCongruence(0, sz.C2, c2 => f(c2, n), a => Sum2At(B, a, ItemTerms(dys, xs, ks, sz, H2, W2, px, py, n)));
    }
    SumCongruence(0, sz.N, n => Sum(0, sz.C2, c2 => f(c2, n)),
                  n => Sum3(B, ItemTerms(dys, xs, ks, sz, H2, W2, px, py, n)));
  }

  /** dX is the gradient of the sum of dY * (Y - B) with respect to X: that sum
      equals the sum of X * dX, with dX the derivative InputAdjoint. */
  lemma InputGradIsGradient(xs: seq<int>, ks: seq<int>, dys: seq<int>, sz: Sizes, H2: int, W2: int, px: int, py: int)
    ensures CorrelationPairing(dys, xs, ks, sz, H2, W2, px, py) == InputPairing(xs, dys, ks, sz, H2, W2, px, py)
  {
    CorrelationPairingByItem(dys, xs, ks, sz, H2, W2, px, py);
    forall n | 0 <= n < sz.N
      ensures Sum3(ItemBox(sz, H2, W2), ItemTerms(dys, xs, ks, sz, H2, W2, px, py, n))
           == Sum3(InputBox(sz), InputTerms(xs, dys, ks, sz, H2, W2, px, py, n))
    {
      InputItemPairing(xs, ks, dys, sz, H2, W2, px, py, n);
    }
    SumCongruence(0, sz.N, n => Sum3(ItemBox(sz, H2, W2), ItemTerms(dys, xs, ks, sz, H2, W2, px, py, n)),
                  n => Sum3(InputBox(sz), InputTerms(xs, dys, ks, sz, H2, W2, px, py, n)));
  }

  /** The gradient identity for X and B: for the forward output Y, the sum of
      dY * Y equals the sum of X * dX plus the sum of B * dB. */
  lemma InputAndBiasGradients(dys: seq<int>, ys: seq<int>, xs: seq<int>, ks: seq<int>, bs: seq<int>,
                              sz: Sizes, H2: nat, W2: nat, px: int, py: int)
    requires |ys| == sz.N * H2 * W2 * sz.C2 && |bs| == sz.C2
    requires forall n, h, w, c2 :: InBox(n, h, w, c2, sz.N, H2, W2, sz.C2) ==>
      ys[Idx4(n, h, w, c2, sz.N, H2, W2, sz.C2)] == bs[c2] + Correlation(xs, ks, sz, px, py, n, h, w, c2)
    ensures OutputPairing(dys, ys, sz, H2, W2)
         == InputPairing(xs, dys, ks, sz, H2, W2, px, py) + BiasPairing(bs, dys, sz, H2, W2)
  {
    OutputPairingSplits(dys, ys, xs, ks, bs, sz, H2, W2, px, py);
    InputGradIsGradient(xs, ks, dys, sz, H2, W2, px, py);
    BiasGradIsGradient(dys, bs, sz, H2, W2);
  }
}
