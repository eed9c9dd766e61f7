/** Dense row-major 4-D tensors stored in flat buffers, addressed the way
    conv_func.c addresses them: `(((a * D1) + b) * D2 + c) * D3 + d`. */
module Tensor {

  /** The index (a, b, c, d) lies inside a tensor of shape (D0, D1, D2, D3). */
  predicate InBox(a: int, b: int, c: int, d: int, D0: int, D1: int, D2: int, D3: int) {
    0 <= a < D0 && 0 <= b < D1 && 0 <= c < D2 && 0 <= d < D3
  }

  /** The linearised offset of element (a, b, c, d).  The leading extent D0 does
      not enter the formula; it is a parameter so that the bound can be stated. */
  function Idx4(a: int, b: int, c: int, d: int, D0: int, D1: int, D2: int, D3: int): (o: int)
    ensures InBox(a, b, c, d, D0, D1, D2, D3) ==> 0 <= o < D0 * D1 * D2 * D3
  {
    if InBox(a, b, c, d, D0, D1, D2, D3) then
      DigitBound(a, D0, b, D1);
      DigitBound(a * D1 + b, D0 * D1, c, D2);
      DigitBound((a * D1 + b) * D2 + c, D0 * D1 * D2, d, D3);
      ((a * D1 + b) * D2 + c) * D3 + d
    else
      ((a * D1 + b) * D2 + c) * D3 + d
  }

  /** Appending one mixed-radix digit keeps a number below the product of the radices. */
  lemma DigitBound(x: int, X: int, y: int, Y: int)
    requires 0 <= x < X && 0 <= y < Y
    ensures 0 <= x * Y + y < X * Y
  {
    assert x * Y + y < (x + 1) * Y;
    MulMonotone(x + 1, X, Y);
  }

  lemma MulMonotone(a: int, b: int, m: int)
    requires a <= b && 0 <= m
    ensures a * m <= b * m
  {
    assert b * m - a * m == (b - a) * m;
  }

  /** A mixed-radix digit and the prefix before it are determined by the number. */
  lemma DigitUnique(x: int, y: int, x': int, y': int, Y: int)
    requires 0 <= y < Y && 0 <= y' < Y
    requires x * Y + y == x' * Y + y'
    ensures x == x' && y == y'
  {
    if x < x' {
      MulMonotone(x + 1, x', Y);
      assert false;
    } else if x' < x {
      MulMonotone(x' + 1, x, Y);
      assert false;
    }
  }

  /** Distinct in-range indices have distinct offsets: a write to one element of a
      buffer never touches another element. */
  lemma Idx4Injective(a: int, b: int, c: int, d: int, a': int, b': int, c': int, d': int,
                      D0: int, D1: int, D2: int, D3: int)
    requires InBox(a, b, c, d, D0, D1, D2, D3) && InBox(a', b', c', d', D0, D1, D2, D3)
    requires Idx4(a, b, c, d, D0, D1, D2, D3) == Idx4(a', b', c', d', D0, D1, D2, D3)
    ensures a == a' && b == b' && c == c' && d == d'
  {
    DigitUnique((a * D1 + b) * D2 + c, d, (a' * D1 + b') * D2 + c', d', D3);
    DigitUnique(a * D1 + b, c, a' * D1 + b', c', D2);
    DigitUnique(a, b, a', b', D1);
  }

  /** Every offset of a buffer of D0*D1*D2*D3 elements is the offset of some
      in-range index, so a statement about all indices covers the whole buffer. */
  lemma Idx4Onto(o: int, D0: nat, D1: nat, D2: nat, D3: nat)
    requires 0 <= o < D0 * D1 * D2 * D3
    ensures exists a, b, c, d :: InBox(a, b, c, d, D0, D1, D2, D3) && Idx4(a, b, c, d, D0, D1, D2, D3) == o
  {
    var D12 := D1 * D2;
    assert D0 * D1 * D2 * D3 == ((D0 * D1) * D2) * D3;
    PositiveFactors(D0 * D1 * D2, D3);
    var abc, d := o / D3, o % D3;
    assert o == abc * D3 + d;
    QuotientBound(o, D3, D0 * D1 * D2);
    PositiveFactors(D0 * D1, D2);
    var ab, c := abc / D2, abc % D2;
    assert abc == ab * D2 + c;
    QuotientBound(abc, D2, D0 * D1);
    PositiveFactors(D0, D1);
    var a, b := ab / D1, ab % D1;
    assert ab == a * D1 + b;
    QuotientBound(ab, D1, D0);
    assert InBox(a, b, c, d, D0, D1, D2, D3);
    assert Idx4(a, b, c, d, D0, D1, D2, D3) == o;
  }

  /** Extents that are not negative have a buffer size that is not negative. */
  lemma SizeNonnegative(D0: int, D1: int, D2: int, D3: int)
    requires 0 <= D0 && 0 <= D1 && 0 <= D2 && 0 <= D3
    ensures 0 <= D0 * D1 * D2 * D3
  {
    MulMonotone(0, D0, D1);
    MulMonotone(0, D0 * D1, D2);
    MulMonotone(0, D0 * D1 * D2, D3);
  }

  lemma PositiveFactors(x: int, y: int)
    requires 0 <= x && 0 <= y && 0 < x * y
    ensures 0 < x && 0 < y
  {
  }

  lemma QuotientBound(o: int, D: int, P: int)
    requires 0 < D && 0 <= o < P * D
    ensures 0 <= o / D < P
  {
    if o / D >= P {
      MulMonotone(P, o / D, D);
      assert false;
    }
  }

  /** The element at (a, b, c, d) of a tensor of shape (D0, D1, D2, D3) held in
      `s`, or 0 for an index outside the shape: reads of the virtual zero padding. */
  function At4(s: seq<int>, a: int, b: int, c: int, d: int, D0: int, D1: int, D2: int, D3: int): int {
    if InBox(a, b, c, d, D0, D1, D2, D3) && Idx4(a, b, c, d, D0, D1, D2, D3) < |s| then
      s[Idx4(a, b, c, d, D0, D1, D2, D3)]
    else
      0
  }

  /** Inside the shape, At4 is the buffer element at the linearised offset. */
  lemma At4InBox(s: seq<int>, a: int, b: int, c: int, d: int, D0: int, D1: int, D2: int, D3: int)
    requires |s| == D0 * D1 * D2 * D3 && InBox(a, b, c, d, D0, D1, D2, D3)
    ensures At4(s, a, b, c, d, D0, D1, D2, D3) == s[Idx4(a, b, c, d, D0, D1, D2, D3)]
  {
  }

  /** The buffer of the tensor of shape (D0, D1, D2, D3) that is 1 at (a, b, c, d)
      and 0 everywhere else. */
  function Unit4(a: int, b: int, c: int, d: int, D0: nat, D1: nat, D2: nat, D3: nat): (s: seq<int>)
    ensures |s| == D0 * D1 * D2 * D3
  {
    SizeNonnegative(D0, D1, D2, D3);
    seq(D0 * D1 * D2 * D3, o => if o == Idx4(a, b, c, d, D0, D1, D2, D3) then 1 else 0)
  }

  /** Reading the unit tensor gives 1 at its index and 0 at every other index,
      in range or not. */
  lemma At4Unit(a: int, b: int, c: int, d: int, x: int, y: int, z: int, t: int,
                D0: nat, D1: nat, D2: nat, D3: nat)
    requires InBox(a, b, c, d, D0, D1, D2, D3)
    ensures At4(Unit4(a, b, c, d, D0, D1, D2, D3), x, y, z, t, D0, D1, D2, D3)
         == if x == a && y == b && z == c && t == d then 1 else 0
  {
    if InBox(x, y, z, t, D0, D1, D2, D3) &&
       Idx4(x, y, z, t, D0, D1, D2, D3) == Idx4(a, b, c, d, D0, D1, D2, D3) {
      Idx4Injective(x, y, z, t, a, b, c, d, D0, D1, D2, D3);
    }
  }
}
