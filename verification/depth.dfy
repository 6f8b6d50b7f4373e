/** Dollar depth of a book side: the sum of price × quantity over its first
    ten levels, in the order the levels are given. Used by the slippage and
    maker/taker estimators (market_impact_models.py) and by the impact
    analyzer (impact_analysis.py). */
module Depth {
  import opened Common

  /** Number of levels per side that enter a depth figure. */
  const TopLevels: nat := 10

  /** Python's `levels[:n]`: the first n elements, or all of them when
      there are fewer. */
  function Take<T>(s: seq<T>, n: nat): (r: seq<T>)
    ensures |r| == if n < |s| then n else |s|
    ensures forall i :: 0 <= i < |r| ==> r[i] == s[i]
  {
    if n < |s| then s[..n] else s
  }

  /** `sum(price * size for price, size in levels)`. */
  function Notional(levels: seq<Level>): real
  {
    if levels == [] then 0.0
    else levels[0].price * levels[0].quantity + Notional(levels[1..])
  }

  /** Dollar depth of one side: the notional of its first ten levels. */
  function SideDepth(levels: seq<Level>): real
  {
    Notional(Take(levels, TopLevels))
  }

  ghost predicate NonNegativeLevels(levels: seq<Level>)
  {
    forall i :: 0 <= i < |levels| ==> 0.0 <= levels[i].price && 0.0 <= levels[i].quantity
  }

  /** With non-negative prices and quantities the notional is non-negative. */
  lemma {:induction false} NotionalNonNegative(levels: seq<Level>)
    requires NonNegativeLevels(levels)
    ensures 0.0 <= Notional(levels)
    decreases |levels|
  {
    if levels != [] {
      assert 0.0 <= levels[0].price * levels[0].quantity;
      NotionalNonNegative(levels[1..]);
    }
  }

  /** The notional of a concatenation is the sum of the notionals. */
  lemma {:induction false} NotionalAppend(s: seq<Level>, t: seq<Level>)
    ensures Notional(s + t) == Notional(s) + Notional(t)
    decreases |s|
  {
    if s == [] {
      assert s + t == t;
    } else {
      assert (s + t)[1..] == s[1..] + t;
      NotionalAppend(s[1..], t);
    }
  }

  /** A side with at most ten levels contributes all of them; levels past
      the tenth never count. */
  lemma SideDepthOfShortSide(levels: seq<Level>)
    requires |levels| <= TopLevels
    ensures SideDepth(levels) == Notional(levels)
  {
  }

  lemma SideDepthIgnoresDeepLevels(levels: seq<Level>, deeper: seq<Level>)
    requires |levels| >= TopLevels
    ensures SideDepth(levels + deeper) == SideDepth(levels)
  {
    assert Take(levels + deeper, TopLevels) == Take(levels, TopLevels);
  }

  /** With non-negative levels a side's depth is non-negative. */
  lemma SideDepthNonNegative(levels: seq<Level>)
    requires NonNegativeLevels(levels)
    ensures 0.0 <= SideDepth(levels)
  {
    NotionalNonNegative(Take(levels, TopLevels));
  }
}
