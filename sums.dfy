/** Exact finite sums over integer ranges.  `Sum(lo, hi, f)` adds f(lo), ...,
    f(hi - 1) in increasing order, the order of the accumulation loops in
    conv_func.c; an empty or reversed range sums to 0, as a C loop
    `for (k = lo; k < hi; ++k)` with lo >= hi does nothing. */
module Sums {

  function Sum(lo: int, hi: int, f: int -> int): int
    decreases hi - lo
  {
    if hi <= lo then 0 else Sum(lo, hi - 1, f) + f(hi - 1)
  }

  /** A sum splits at any point of its range. */
  lemma {:induction false} SumSplit(a: int, b: int, c: int, f: int -> int)
    requires a <= b <= c
    ensures Sum(a, c, f) == Sum(a, b, f) + Sum(b, c, f)
    decreases c - b
  {
    if b < c {
      SumSplit(a, b, c - 1, f);
    }
  }

  /** A sum of zeros is zero. */
  lemma {:induction false} SumZero(lo: int, hi: int, f: int -> int)
    requires forall x :: lo <= x < hi ==> f(x) == 0
    ensures Sum(lo, hi, f) == 0
    decreases hi - lo
  {
    if lo < hi {
      SumZero(lo, hi - 1, f);
    }
  }

  /** Sums of functions that agree on the range are equal. */
  lemma {:induction false} SumCongruence(lo: int, hi: int, f: int -> int, g: int -> int)
    requires forall x :: lo <= x < hi ==> f(x) == g(x)
    ensures Sum(lo, hi, f) == Sum(lo, hi, g)
    decreases hi - lo
  {
    if lo < hi {
      SumCongruence(lo, hi - 1, f, g);
    }
  }

  /** Widening the range by points where f is zero does not change the sum;
      this is how a clamped loop computes the same value as the full one. */
  lemma SumZeroOutside(lo: int, hi: int, lo': int, hi': int, f: int -> int)
    requires lo' <= lo && hi <= hi'
    requires forall x :: lo' <= x < hi' && !(lo <= x < hi) ==> f(x) == 0
    ensures Sum(lo, hi, f) == Sum(lo', hi', f)
  {
    if hi <= lo {
      SumZero(lo', hi', f);
    } else {
      SumSplit(lo', lo, hi', f);
      SumSplit(lo, hi, hi', f);
      SumZero(lo', lo, f);
      SumZero(hi, hi', f);
    }
  }

  /** A sum whose terms are zero except at one point of the range is that term. */
  lemma SumUnit(lo: int, hi: int, x0: int, f: int -> int)
    requires lo <= x0 < hi
    requires forall x :: lo <= x < hi && x != x0 ==> f(x) == 0
    ensures Sum(lo, hi, f) == f(x0)
  {
    SumZeroOutside(x0, x0 + 1, lo, hi, f);
  }

  /** Re-indexing a sum by a constant offset. */
  lemma {:induction false} SumShift(lo: int, hi: int, s: int, f: int -> int)
    ensures Sum(lo, hi, x => f(x + s)) == Sum(lo + s, hi + s, f)
    decreases hi - lo
  {
    if lo < hi {
      SumShift(lo, hi - 1, s, f);
    }
  }

  /** A sum of pointwise sums is the sum of the two sums. */
  lemma {:induction false} SumAdd(lo: int, hi: int, f: int -> int, g: int -> int)
    ensures Sum(lo, hi, x => f(x) + g(x)) == Sum(lo, hi, f) + Sum(lo, hi, g)
    decreases hi - lo
  {
    if lo < hi {
      SumAdd(lo, hi - 1, f, g);
    }
  }

  /** A constant factor moves out of a sum. */
  lemma {:induction false} SumScale(lo: int, hi: int, c: int, f: int -> int)
    ensures Sum(lo, hi, x => c * f(x)) == c * Sum(lo, hi, f)
    decreases hi - lo
  {
    if lo < hi {
      SumScale(lo, hi - 1, c, f);
      assert c * (Sum(lo, hi - 1, f) + f(hi - 1)) == c * Sum(lo, hi - 1, f) + c * f(hi - 1);
    }
  }

  /** The order of a double sum over a rectangle can be exchanged. */
  lemma {:induction false} SumSwap(alo: int, ahi: int, blo: int, bhi: int, f: (int, int) -> int)
    ensures Sum(alo, ahi, a => Sum(blo, bhi, b => f(a, b))) == Sum(blo, bhi, b => Sum(alo, ahi, a => f(a, b)))
    decreases ahi - alo
  {
    if alo < ahi {
      var top := ahi - 1;
      var g := b => Sum(alo, top, a => f(a, b));
      var h := b => f(top, b);
      SumSwap(alo, top, blo, bhi, f);
      SumAdd(blo, bhi, g, h);
      SumCongruence(blo, bhi, x => g(x) + h(x), b => Sum(alo, ahi, a => f(a, b)));
    } else {
      SumZero(blo, bhi, b => Sum(alo, ahi, a => f(a, b)));
    }
  }
}
