/** The limit-order book: two price → quantity maps changed by a delta
    merge, and the best-price, spread, mid and sorted-snapshot queries that
    read them (orderbook.py). */
module LimitOrderBook {
  import opened Common

  /** One side of the book: price → resting quantity. */
  type Side = map<real, real>

  /** The invariant of a stored side: no level with a zero or negative size. */
  ghost predicate AllPositive(side: Side)
  {
    forall p :: p in side ==> side[p] > 0.0
  }

  // ---------------------------------------------------------------------
  // The delta merge

  /** One delta: a positive quantity inserts or overwrites the level, any
      other quantity removes it (a missing level is left missing). */
  function ApplyLevel(side: Side, level: Level): Side
  {
    if level.quantity > 0.0 then side[level.price := level.quantity]
    else if level.price in side then side - {level.price}
    else side
  }

  /** The side after the deltas have been merged into it in list order. */
  function ApplyDeltas(side: Side, deltas: seq<Level>): Side
    decreases |deltas|
  {
    if deltas == [] then side
    else ApplyLevel(ApplyDeltas(side, deltas[..|deltas| - 1]), deltas[|deltas| - 1])
  }

  /** The quantity of the last delta in the list that names `price`. */
  function LastQuantity(deltas: seq<Level>, price: real): Option<real>
    decreases |deltas|
  {
    if deltas == [] then None
    else if deltas[|deltas| - 1].price == price then Some(deltas[|deltas| - 1].quantity)
    else LastQuantity(deltas[..|deltas| - 1], price)
  }

  /** The merge, price by price: a price no delta names keeps its level;
      otherwise the last delta for it decides alone, present with that
      quantity when it is positive, absent when it is not. */
  lemma {:induction false} ApplyDeltasAt(side: Side, deltas: seq<Level>, price: real)
    ensures var r := ApplyDeltas(side, deltas);
      match LastQuantity(deltas, price)
      case None => (price in r <==> price in side) && (price in side ==> r[price] == side[price])
      case Some(q) => (price in r <==> q > 0.0) && (price in r ==> r[price] == q)
    decreases |deltas|
  {
    if deltas != [] {
      ApplyDeltasAt(side, deltas[..|deltas| - 1], price);
    }
  }

  /** Merging the same deltas a second time changes nothing. */
  lemma ApplyDeltasIdempotent(side: Side, deltas: seq<Level>)
    ensures ApplyDeltas(ApplyDeltas(side, deltas), deltas) == ApplyDeltas(side, deltas)
  {
    var once := ApplyDeltas(side, deltas);
    var twice := ApplyDeltas(once, deltas);
    forall p
      ensures (p in twice <==> p in once) && (p in once ==> twice[p] == once[p])
    {
      ApplyDeltasAt(side, deltas, p);
      ApplyDeltasAt(once, deltas, p);
    }
    assert twice.Keys == once.Keys;
  }

  /** A merge never stores a zero or negative quantity. */
  lemma {:induction false} ApplyDeltasKeepsPositive(side: Side, deltas: seq<Level>)
    requires AllPositive(side)
    ensures AllPositive(ApplyDeltas(side, deltas))
    decreases |deltas|
  {
    if deltas != [] {
      ApplyDeltasKeepsPositive(side, deltas[..|deltas| - 1]);
    }
  }

  // ---------------------------------------------------------------------
  // Best prices

  lemma HasLeast(s: set<real>)
    requires s != {}
    ensures exists m :: m in s && forall p :: p in s ==> m <= p
  {
    var m := Least(s);
  }

  lemma HasGreatest(s: set<real>)
    requires s != {}
    ensures exists m :: m in s && forall p :: p in s ==> p <= m
  {
    var m := Greatest(s);
  }

  /** An element of a non-empty set no greater than any other, found by
      taking out one element at a time. */
  lemma {:induction false} Least(s: set<real>) returns (m: real)
    requires s != {}
    ensures m in s && forall p :: p in s ==> m <= p
    decreases |s|
  {
    var x := PickOne(s);
    var rest := s - {x};
    if rest == {} {
      assert s == {x};
      m := x;
    } else {
      var n := Least(rest);
      m := if x < n then x else n;
      forall p | p in s
        ensures m <= p
      {
        if p != x {
          assert p in rest;
        }
      }
    }
  }

  /** An element of a non-empty set no smaller than any other. */
  lemma {:induction false} Greatest(s: set<real>) returns (m: real)
    requires s != {}
    ensures m in s && forall p :: p in s ==> p <= m
    decreases |s|
  {
    var x := PickOne(s);
    var rest := s - {x};
    if rest == {} {
      assert s == {x};
      m := x;
    } else {
      var n := Greatest(rest);
      m := if x > n then x else n;
      forall p | p in s
        ensures p <= m
      {
        if p != x {
          assert p in rest;
        }
      }
    }
  }

  /** Some element of a non-empty set. */
  lemma PickOne(s: set<real>) returns (x: real)
    requires s != {}
    ensures x in s
  {
    if forall p :: p !in s {
      assert false;
    }
    x :| x in s;
  }

  /** `min(side.keys())`, or None for an empty side. */
  function MinPrice(side: Side): (r: Option<real>)
    ensures r.None? <==> side == map[]
    ensures r.Some? ==> r.value in side && forall p :: p in side ==> r.value <= p
  {
    if side == map[] then None
    else
      HasLeast(side.Keys);
      var m :| m in side && forall p :: p in side ==> m <= p;
      Some(m)
  }

  /** `max(side.keys())`, or None for an empty side. */
  function MaxPrice(side: Side): (r: Option<real>)
    ensures r.None? <==> side == map[]
    ensures r.Some? ==> r.value in side && forall p :: p in side ==> p <= r.value
  {
    if side == map[] then None
    else
      HasGreatest(side.Keys);
      var m :| m in side && forall p :: p in side ==> p <= m;
      Some(m)
  }

  // ---------------------------------------------------------------------
  // Sorted snapshots

  lemma RemoveOne(side: Side, p: real)
    requires p in side
    ensures |side - {p}| == |side| - 1
  {
    assert (side - {p}).Keys == side.Keys - {p};
  }

  /** The levels of a side minus its lowest price, ascending, extended by
      that lowest level in front, list the whole side ascending. */
  lemma PrependLowest(side: Side, p: real, rest: seq<Level>)
    requires p in side && forall q :: q in side ==> p <= q
    requires |rest| == |side| - 1
    requires forall l :: l in rest <==> l.price in side - {p} && (side - {p})[l.price] == l.quantity
    requires forall i, j :: 0 <= i < j < |rest| ==> rest[i].price < rest[j].price
    ensures var r := [Level(p, side[p])] + rest;
      && |r| == |side|
      && (forall l :: l in r <==> l.price in side && side[l.price] == l.quantity)
      && (forall i, j :: 0 <= i < j < |r| ==> r[i].price < r[j].price)
  {
    var r := [Level(p, side[p])] + rest;
    forall i, j | 0 <= i < j < |r|
      ensures r[i].price < r[j].price
    {
      assert r[j] == rest[j - 1];
      assert rest[j - 1] in rest;
      if i > 0 {
        assert r[i] == rest[i - 1];
      }
    }
  }

  /** The mirror image of PrependLowest for the highest price. */
  lemma PrependHighest(side: Side, p: real, rest: seq<Level>)
    requires p in side && forall q :: q in side ==> q <= p
    requires |rest| == |side| - 1
    requires forall l :: l in rest <==> l.price in side - {p} && (side - {p})[l.price] == l.quantity
    requires forall i, j :: 0 <= i < j < |rest| ==> rest[i].price > rest[j].price
    ensures var r := [Level(p, side[p])] + rest;
      && |r| == |side|
      && (forall l :: l in r <==> l.price in side && side[l.price] == l.quantity)
      && (forall i, j :: 0 <= i < j < |r| ==> r[i].price > r[j].price)
  {
    var r := [Level(p, side[p])] + rest;
    forall i, j | 0 <= i < j < |r|
      ensures r[i].price > r[j].price
    {
      assert r[j] == rest[j - 1];
      assert rest[j - 1] in rest;
      if i > 0 {
        assert r[i] == rest[i - 1];
      }
    }
  }

  /** `sorted(side.items())`: every level exactly once, prices strictly
      ascending. */
  function AscendingLevels(side: Side): (r: seq<Level>)
    ensures |r| == |side|
    ensures forall l :: l in r <==> l.price in side && side[l.price] == l.quantity
    ensures forall i, j :: 0 <= i < j < |r| ==> r[i].price < r[j].price
    decreases |side|
  {
    match MinPrice(side)
    case None => []
    case Some(p) =>
      RemoveOne(side, p);
      var rest := AscendingLevels(side - {p});
      PrependLowest(side, p, rest);
      [Level(p, side[p])] + rest
  }

  /** `sorted(side.items(), reverse=True)`: every level exactly once,
      prices strictly descending. */
  function DescendingLevels(side: Side): (r: seq<Level>)
    ensures |r| == |side|
    ensures forall l :: l in r <==> l.price in side && side[l.price] == l.quantity
    ensures forall i, j :: 0 <= i < j < |r| ==> r[i].price > r[j].price
    decreases |side|
  {
    match MaxPrice(side)
    case None => []
    case Some(p) =>
      RemoveOne(side, p);
      var rest := DescendingLevels(side - {p});
      PrependHighest(side, p, rest);
      [Level(p, side[p])] + rest
  }

  // ---------------------------------------------------------------------
  // Spread and mid

  /** best ask − best bid, None unless both sides have a level. */
  function SpreadOf(asks: Side, bids: Side): (r: Option<real>)
    ensures r.Some? <==> asks != map[] && bids != map[]
    ensures r.Some? ==> forall a, b :: a in asks && b in bids ==> r.value <= a - b
    ensures r.Some? ==> exists a, b :: a in asks && b in bids && r.value == a - b
  {
    match (MinPrice(asks), MaxPrice(bids))
    case (Some(a), Some(b)) => Some(a - b)
    case _ => None
  }

  /** (best ask + best bid) / 2, None unless both sides have a level. */
  function MidOf(asks: Side, bids: Side): (r: Option<real>)
    ensures r.Some? <==> asks != map[] && bids != map[]
    ensures r.Some? ==> r.value - SpreadOf(asks, bids).value / 2.0 == MaxPrice(bids).value
    ensures r.Some? ==> r.value + SpreadOf(asks, bids).value / 2.0 == MinPrice(asks).value
  {
    match (MinPrice(asks), MaxPrice(bids))
    case (Some(a), Some(b)) => Some((a + b) / 2.0)
    case _ => None
  }

  /** A crossed book (some bid at or above some ask) has a spread of zero
      or below; nothing rejects it. */
  lemma CrossedBookSpread(asks: Side, bids: Side, a: real, b: real)
    requires a in asks && b in bids && a <= b
    ensures SpreadOf(asks, bids).Some? && SpreadOf(asks, bids).value <= 0.0
  {
  }

  // ---------------------------------------------------------------------
  // The book object

  class OrderBook {
    var asks: Side
    var bids: Side

    ghost predicate Valid()
      reads this
    {
      AllPositive(asks) && AllPositive(bids)
    }

    constructor ()
      ensures Valid()
      ensures asks == map[] && bids == map[]
    {
      asks := map[];
      bids := map[];
    }

    /** Merges the ask deltas into `asks`, then the bid deltas into `bids`. */
    method Update(askDeltas: seq<Level>, bidDeltas: seq<Level>)
      requires Valid()
      modifies this
      ensures Valid()
      ensures asks == ApplyDeltas(old(asks), askDeltas)
      ensures bids == ApplyDeltas(old(bids), bidDeltas)
    {
      for i := 0 to |askDeltas|
        invariant asks == ApplyDeltas(old(asks), askDeltas[..i])
        invariant bids == old(bids)
      {
        var level := askDeltas[i];
        if level.quantity > 0.0 {
          asks := asks[level.price := level.quantity];
        } else {
          if level.price in asks {
            asks := asks - {level.price};
          }
        }
        assert askDeltas[..i + 1][..i] == askDeltas[..i];
      }
      assert askDeltas[..|askDeltas|] == askDeltas;
      for i := 0 to |bidDeltas|
        invariant asks == ApplyDeltas(old(asks), askDeltas)
        invariant bids == ApplyDeltas(old(bids), bidDeltas[..i])
      {
        var level := bidDeltas[i];
        if level.quantity > 0.0 {
          bids := bids[level.price := level.quantity];
        } else {
          if level.price in bids {
            bids := bids - {level.price};
          }
        }
        assert bidDeltas[..i + 1][..i] == bidDeltas[..i];
      }
      assert bidDeltas[..|bidDeltas|] == bidDeltas;
      ApplyDeltasKeepsPositive(old(asks), askDeltas);
      ApplyDeltasKeepsPositive(old(bids), bidDeltas);
    }

    /** The lowest ask price, None on an empty ask side. */
    function BestAsk(): (r: Option<real>)
      reads this
      ensures r.None? <==> asks == map[]
      ensures r.Some? ==> r.value in asks && forall p :: p in asks ==> r.value <= p
    {
      MinPrice(asks)
    }

    /** The highest bid price, None on an empty bid side. */
    function BestBid(): (r: Option<real>)
      reads this
      ensures r.None? <==> bids == map[]
      ensures r.Some? ==> r.value in bids && forall p :: p in bids ==> p <= r.value
    {
      MaxPrice(bids)
    }

    /** The ask levels, ascending by price. */
    function Asks(): (r: seq<Level>)
      reads this
      ensures |r| == |asks|
      ensures forall l :: l in r <==> l.price in asks && asks[l.price] == l.quantity
      ensures forall i, j :: 0 <= i < j < |r| ==> r[i].price < r[j].price
    {
      AscendingLevels(asks)
    }

    /** The bid levels, descending by price. */
    function Bids(): (r: seq<Level>)
      reads this
      ensures |r| == |bids|
      ensures forall l :: l in r <==> l.price in bids && bids[l.price] == l.quantity
      ensures forall i, j :: 0 <= i < j < |r| ==> r[i].price > r[j].price
    {
      DescendingLevels(bids)
    }

    /** Best ask minus best bid, None unless both sides have a level. */
    function Spread(): (r: Option<real>)
      reads this
      ensures r.Some? <==> asks != map[] && bids != map[]
      ensures r.Some? ==> r.value == BestAsk().value - BestBid().value
      ensures r.Some? ==> forall a, b :: a in asks && b in bids ==> r.value <= a - b
    {
      SpreadOf(asks, bids)
    }

    function MidPrice(): (r: Option<real>)
      reads this
      ensures r.Some? <==> asks != map[] && bids != map[]
      ensures r.Some? ==> r.value - Spread().value / 2.0 == BestBid().value
      ensures r.Some? ==> r.value + Spread().value / 2.0 == BestAsk().value
    {
      MidOf(asks, bids)
    }
  }
}
