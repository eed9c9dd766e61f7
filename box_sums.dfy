/** Triple sums over boxes of integer indices, and the exchange of two nested
    triple sums.  A summand of several indices is sliced and re-summed through
    the named combinators below, so that the same partial sum is always the
    same term. */
module BoxSums {
  import opened Sums

  /** The index box [lo1, hi1) x [lo2, hi2) x [lo3, hi3). */
  datatype Box3 = Box3(lo1: int, hi1: int, lo2: int, hi2: int, lo3: int, hi3: int) {
    predicate Contains(a: int, b: int, c: int) {
      lo1 <= a < hi1 && lo2 <= b < hi2 && lo3 <= c < hi3
    }
  }

  /** The sum of f over a box, the first index outermost. */
  function Sum3(bx: Box3, f: (int, int, int) -> int): int {
    Sum(bx.lo1, bx.hi1, a => Sum2At(bx, a, f))
  }

  function Sum2At(bx: Box3, a: int, f: (int, int, int) -> int): int {
    Sum(bx.lo2, bx.hi2, b => Sum1At(bx, a, b, f))
  }

  function Sum1At(bx: Box3, a: int, b: int, f: (int, int, int) -> int): int {
    Sum(bx.lo3, bx.hi3, c => f(a, b, c))
  }

  lemma Sum3Ext(bx: Box3, f: (int, int, int) -> int, g: (int, int, int) -> int)
    requires forall a, b, c :: bx.Contains(a, b, c) ==> f(a, b, c) == g(a, b, c)
    ensures Sum3(bx, f) == Sum3(bx, g)
  {
    forall a | bx.lo1 <= a < bx.hi1
      ensures Sum2At(bx, a, f) == Sum2At(bx, a, g)
    {
      forall b | bx.lo2 <= b < bx.hi2
        ensures Sum1At(bx, a, b, f) == Sum1At(bx, a, b, g)
      {
        SumCongruence(bx.lo3, bx.hi3, c => f(a, b, c), c => g(a, b, c));
      }
      SumCongruence(bx.lo2, bx.hi2, b => Sum1At(bx, a, b, f), b => Sum1At(bx, a, b, g));
    }
    SumCongruence(bx.lo1, bx.hi1, a => Sum2At(bx, a, f), a => Sum2At(bx, a, g));
  }

  lemma Sum3Zero(bx: Box3, f: (int, int, int) -> int)
    requires forall a, b, c :: bx.Contains(a, b, c) ==> f(a, b, c) == 0
    ensures Sum3(bx, f) == 0
  {
    forall a | bx.lo1 <= a < bx.hi1
      ensures Sum2At(bx, a, f) == 0
    {
      forall b | bx.lo2 <= b < bx.hi2
        ensures Sum1At(bx, a, b, f) == 0
      {
        SumZero(bx.lo3, bx.hi3, c => f(a, b, c));
      }
      SumZero(bx.lo2, bx.hi2, b => Sum1At(bx, a, b, f));
    }
    SumZero(bx.lo1, bx.hi1, a => Sum2At(bx, a, f));
  }

  lemma Sum3Add(bx: Box3, f: (int, int, int) -> int, g: (int, int, int) -> int)
    ensures Sum3(bx, (a, b, c) => f(a, b, c) + g(a, b, c)) == Sum3(bx, f) + Sum3(bx, g)
  {
    var fg := (a, b, c) => f(a, b, c) + g(a, b, c);
    forall a | bx.lo1 <= a < bx.hi1
      ensures Sum2At(bx, a, fg) == Sum2At(bx, a, f) + Sum2At(bx, a, g)
    {
      forall b | bx.lo2 <= b < bx.hi2
        ensures Sum1At(bx, a, b, fg) == Sum1At(bx, a, b, f) + Sum1At(bx, a, b, g)
      {
        var f0 := c => f(a, b, c);
        var g0 := c => g(a, b, c);
        SumAdd(bx.lo3, bx.hi3, f0, g0);
        SumCongruence(bx.lo3, bx.hi3, c => fg(a, b, c), x => f0(x) + g0(x));
      }
      var F1 := b => Sum1At(bx, a, b, f);
      var G1 := b => Sum1At(bx, a, b, g);
      SumCongruence(bx.lo2, bx.hi2, b => Sum1At(bx, a, b, fg), x => F1(x) + G1(x));
      SumAdd(bx.lo2, bx.hi2, F1, G1);
    }
    var F2 := a => Sum2At(bx, a, f);
    var G2 := a => Sum2At(bx, a, g);
    SumCongruence(bx.lo1, bx.hi1, a => Sum2At(bx, a, fg), x => F2(x) + G2(x));
    SumAdd(bx.lo1, bx.hi1, F2, G2);
  }

  /** The slice t of a four-index summand, as a function of the other three. */
  function Fiber(g: (int, int, int, int) -> int, t: int): (int, int, int) -> int {
    (a, b, c) => g(t, a, b, c)
  }

  /** A four-index summand summed over its first index on [lo, hi). */
  function Gather(g: (int, int, int, int) -> int, lo: int, hi: int): (int, int, int) -> int {
    (a, b, c) => Sum(lo, hi, t => g(t, a, b, c))
  }

  lemma Sum3PeelTop(lo: int, hi: int, bx: Box3, g: (int, int, int, int) -> int)
    requires lo < hi
    ensures Sum3(bx, Gather(g, lo, hi)) == Sum3(bx, Gather(g, lo, hi - 1)) + Sum3(bx, Fiber(g, hi - 1))
  {
    var G, H := Gather(g, lo, hi - 1), Fiber(g, hi - 1);
    var GH := (a, b, c) => G(a, b, c) + H(a, b, c);
    forall a, b, c | bx.Contains(a, b, c)
      ensures GH(a, b, c) == Gather(g, lo, hi)(a, b, c)
    {
      assert Sum(lo, hi, t => g(t, a, b, c)) == Sum(lo, hi - 1, t => g(t, a, b, c)) + g(hi - 1, a, b, c);
    }
    Sum3Ext(bx, GH, Gather(g, lo, hi));
    Sum3Add(bx, G, H);
  }

  /** A single sum moves inside a triple sum. */
  lemma {:induction false} SumSum3Swap(lo: int, hi: int, bx: Box3, g: (int, int, int, int) -> int)
    ensures Sum(lo, hi, t => Sum3(bx, Fiber(g, t))) == Sum3(bx, Gather(g, lo, hi))
    decreases hi - lo
  {
    if lo < hi {
      SumSum3Swap(lo, hi - 1, bx, g);
      Sum3PeelTop(lo, hi, bx, g);
    } else {
      Sum3Zero(bx, Gather(g, lo, hi));
    }
  }

  /** Single sums that agree with triple sums term by term move inside together. */
  lemma SumSum3SwapExt(lo: int, hi: int, bx: Box3, g: (int, int, int, int) -> int,
                       F: int -> int, G: (int, int, int) -> int)
    requires forall t :: lo <= t < hi ==> F(t) == Sum3(bx, Fiber(g, t))
    requires forall a, b, c :: bx.Contains(a, b, c) ==> G(a, b, c) == Sum(lo, hi, t => g(t, a, b, c))
    ensures Sum(lo, hi, F) == Sum3(bx, G)
  {
    SumCongruence(lo, hi, F, t => Sum3(bx, Fiber(g, t)));
    SumSum3Swap(lo, hi, bx, g);
    Sum3Ext(bx, Gather(g, lo, hi), G);
  }

  function Inner(f: (int, int, int, int, int, int) -> int, a: int, b: int, c: int): (int, int, int) -> int {
    (x, y, z) => f(a, b, c, x, y, z)
  }

  function Outer(f: (int, int, int, int, int, int) -> int, x: int, y: int, z: int): (int, int, int) -> int {
    (a, b, c) => f(a, b, c, x, y, z)
  }

  /** For every point of the first box, the sum of f over the second box. */
  function InnerSums(f: (int, int, int, int, int, int) -> int, inner: Box3): (int, int, int) -> int {
    (a, b, c) => Sum3(inner, Inner(f, a, b, c))
  }

  /** For every point of the second box, the sum of f over the first box. */
  function OuterSums(f: (int, int, int, int, int, int) -> int, outer: Box3): (int, int, int) -> int {
    (x, y, z) => Sum3(outer, Outer(f, x, y, z))
  }

  lemma SwapLevel3(f: (int, int, int, int, int, int) -> int, outer: Box3, inner: Box3, a: int, b: int)
    ensures Sum1At(outer, a, b, InnerSums(f, inner)) == Sum3(inner, (x, y, z) => Sum1At(outer, a, b, Outer(f, x, y, z)))
  {
    var g := (c, x, y, z) => f(a, b, c, x, y, z);
    forall c | outer.lo3 <= c < outer.hi3
      ensures InnerSums(f, inner)(a, b, c) == Sum3(inner, Fiber(g, c))
    {
      Sum3Ext(inner, Inner(f, a, b, c), Fiber(g, c));
    }
    forall x, y, z | inner.Contains(x, y, z)
      ensures Sum1At(outer, a, b, Outer(f, x, y, z)) == Sum(outer.lo3, outer.hi3, t => g(t, x, y, z))
    {
      forall t | outer.lo3 <= t < outer.hi3
        ensures Outer(f, x, y, z)(a, b, t) == g(t, x, y, z)
      {
        assert Outer(f, x, y, z)(a, b, t) == f(a, b, t, x, y, z);
      }
      SumCongruence(outer.lo3, outer.hi3, c => Outer(f, x, y, z)(a, b, c), t => g(t, x, y, z));
    }
    SumSum3SwapExt(outer.lo3, outer.hi3, inner, g, c => InnerSums(f, inner)(a, b, c),
                   (x, y, z) => Sum1At(outer, a, b, Outer(f, x, y, z)));
  }

  lemma SwapLevel2(f: (int, int, int, int, int, int) -> int, outer: Box3, inner: Box3, a: int)
    ensures Sum2At(outer, a, InnerSums(f, inner)) == Sum3(inner, (x, y, z) => Sum2At(outer, a, Outer(f, x, y, z)))
  {
    var g := (b, x, y, z) => Sum1At(outer, a, b, Outer(f, x, y, z));
    forall b | outer.lo2 <= b < outer.hi2
      ensures Sum1At(outer, a, b, InnerSums(f, inner)) == Sum3(inner, Fiber(g, b))
    {
      SwapLevel3(f, outer, inner, a, b);
      forall x, y, z | inner.Contains(x, y, z)
        ensures Sum1At(outer, a, b, Outer(f, x, y, z)) == Fiber(g, b)(x, y, z)
      {
      }
      Sum3Ext(inner, (x, y, z) => Sum1At(outer, a, b, Outer(f, x, y, z)), Fiber(g, b));
    }
    forall x, y, z | inner.Contains(x, y, z)
      ensures Sum2At(outer, a, Outer(f, x, y, z)) == Sum(outer.lo2, outer.hi2, t => g(t, x, y, z))
    {
      forall t | outer.lo2 <= t < outer.hi2
        ensures Sum1At(outer, a, t, Outer(f, x, y, z)) == g(t, x, y, z)
      {
      }
      SumCongruence(outer.lo2, outer.hi2, b => Sum1At(outer, a, b, Outer(f, x, y, z)), t => g(t, x, y, z));
    }
    SumSum3SwapExt(outer.lo2, outer.hi2, inner, g, b => Sum1At(outer, a, b, InnerSums(f, inner)),
                   (x, y, z) => Sum2At(outer, a, Outer(f, x, y, z)));
  }

  /** The exchange of two nested triple sums over boxes. */
  lemma Sum3Swap(f: (int, int, int, int, int, int) -> int, outer: Box3, inner: Box3)
    ensures Sum3(outer, InnerSums(f, inner)) == Sum3(inner, OuterSums(f, outer))
  {
    var g := (a, x, y, z) => Sum2At(outer, a, Outer(f, x, y, z));
    forall a | outer.lo1 <= a < outer.hi1
      ensures Sum2At(outer, a, InnerSums(f, inner)) == Sum3(inner, Fiber(g, a))
    {
      SwapLevel2(f, outer, inner, a);
      forall x, y, z | inner.Contains(x, y, z)
        ensures Sum2At(outer, a, Outer(f, x, y, z)) == Fiber(g, a)(x, y, z)
      {
      }
      Sum3Ext(inner, (x, y, z) => Sum2At(outer, a, Outer(f, x, y, z)), Fiber(g, a));
    }
    forall x, y, z | inner.Contains(x, y, z)
      ensures OuterSums(f, outer)(x, y, z) == Sum(outer.lo1, outer.hi1, t => g(t, x, y, z))
    {
      forall t | outer.lo1 <= t < outer.hi1
        ensures Sum2At(outer, t, Outer(f, x, y, z)) == g(t, x, y, z)
      {
      }
      SumCongruence(outer.lo1, outer.hi1, a => Sum2At(outer, a, Outer(f, x, y, z)), t => g(t, x, y, z));
    }
    SumSum3SwapExt(outer.lo1, outer.hi1, inner, g, a => Sum2At(outer, a, InnerSums(f, inner)), OuterSums(f, outer));
  }

  /** f multiplied by the constant s. */
  function Scaled(s: int, f: (int, int, int) -> int): (int, int, int) -> int {
    (a, b, c) => s * f(a, b, c)
  }

  /** A constant factor moves out of a triple sum. */
  lemma Sum3Scale(bx: Box3, s: int, f: (int, int, int) -> int)
    ensures Sum3(bx, Scaled(s, f)) == s * Sum3(bx, f)
  {
    var sf := Scaled(s, f);
    forall a | bx.lo1 <= a < bx.hi1
      ensures Sum2At(bx, a, sf) == s * Sum2At(bx, a, f)
    {
      forall b | bx.lo2 <= b < bx.hi2
        ensures Sum1At(bx, a, b, sf) == s * Sum1At(bx, a, b, f)
      {
        var f0 := c => f(a, b, c);
        forall c | bx.lo3 <= c < bx.hi3
          ensures sf(a, b, c) == s * f0(c)
        {
        }
        SumCongruence(bx.lo3, bx.hi3, c => sf(a, b, c), x => s * f0(x));
        SumScale(bx.lo3, bx.hi3, s, f0);
      }
      var F1 := b => Sum1At(bx, a, b, f);
      SumCongruence(bx.lo2, bx.hi2, b => Sum1At(bx, a, b, sf), x => s * F1(x));
      SumScale(bx.lo2, bx.hi2, s, F1);
    }
    var F2 := a => Sum2At(bx, a, f);
    SumCongruence(bx.lo1, bx.hi1, a => Sum2At(bx, a, sf), x => s * F2(x));
    SumScale(bx.lo1, bx.hi1, s, F2);
  }
}
