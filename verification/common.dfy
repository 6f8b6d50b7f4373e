/** Values shared by every component: optional results, numpy-style numbers
    that may have become infinite or NaN, and one (price, quantity) level. */
module Common {

  /** Python's `None` or a value. */
  datatype Option<T> = None | Some(value: T)

  /** A floating-point result as numpy produces it: a finite real, or an
      infinity/NaN left behind by a division by zero inside numpy (numpy
      warns instead of raising). */
  datatype Num = Finite(value: real) | NonFinite

  /** One `[price, quantity]` pair of a book side or of a depth update. */
  datatype Level = Level(price: real, quantity: real)

  function Min(a: real, b: real): (r: real)
    ensures r <= a && r <= b
    ensures r == a || r == b
  {
    if a <= b then a else b
  }

  function Max(a: real, b: real): (r: real)
    ensures a <= r && b <= r
    ensures r == a || r == b
  {
    if a >= b then a else b
  }

  /** Left-to-right sum of a list of reals, as Python's `sum` and numpy's
      `np.sum` compute it (rounding aside). */
  function Sum(s: seq<real>): real
  {
    if s == [] then 0.0 else s[0] + Sum(s[1..])
  }

  /** Every element lies between `lo` and `hi`, so the sum lies between
      |s|·lo and |s|·hi. */
  lemma {:induction false} SumBounds(s: seq<real>, lo: real, hi: real)
    requires forall i :: 0 <= i < |s| ==> lo <= s[i] <= hi
    ensures |s| as real * lo <= Sum(s) <= |s| as real * hi
    decreases |s|
  {
    if s != [] {
      SumBounds(s[1..], lo, hi);
      assert |s| as real * lo == lo + (|s| - 1) as real * lo;
      assert |s| as real * hi == hi + (|s| - 1) as real * hi;
    }
  }

  /** Sum of non-negative reals is non-negative. */
  lemma {:induction false} SumNonNegative(s: seq<real>)
    requires forall i :: 0 <= i < |s| ==> 0.0 <= s[i]
    ensures 0.0 <= Sum(s)
    decreases |s|
  {
    if s != [] {
      SumNonNegative(s[1..]);
    }
  }
}
