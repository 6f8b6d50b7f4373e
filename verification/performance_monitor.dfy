/** The latency monitor (performance_monitor.py): a per-cycle state machine
    idle → measuring → idle that appends every finished cycle to a bounded
    history (a `deque(maxlen=window_size)`), and the statistics read from
    that history. Clock readings are parameters. */
module PerformanceMonitoring {
  import opened Common

  /** One measured cycle; durations are seconds since the cycle started. */
  datatype LatencyMetrics = LatencyMetrics(
    dataProcessing: real,
    uiUpdate: real,
    endToEnd: real,
    timestamp: real)

  /** The summary of one stage over the window. */
  datatype MetricStats = MetricStats(
    mean: real,
    median: real,
    p95: real,
    p99: real,
    min: real,
    max: real)

  /** `statistics.quantiles(data, n=n)[i]`. Its interpolation is the
      library's, so it stays a parameter. */
  type CutPoint = (seq<real>, nat, nat) -> real

  const DataProcessing: string := "data_processing"
  const UiUpdate: string := "ui_update"
  const EndToEnd: string := "end_to_end"

  // ---------------------------------------------------------------------
  // The bounded history

  /** `deque.append` on a deque with `maxlen = w` that holds h: when the
      deque is full its oldest element falls out first. */
  function BoundedAppend<T>(h: seq<T>, x: T, w: nat): (r: seq<T>)
    requires |h| <= w
    ensures |r| <= w
  {
    if |h| < w then h + [x]
    else if w == 0 then h
    else h[1..] + [x]
  }

  /** The last min(|s|, w) elements of s, in their order. */
  function LastWindow<T>(s: seq<T>, w: nat): (r: seq<T>)
    ensures |r| == if |s| < w then |s| else w
    ensures forall i :: 0 <= i < |r| ==> r[i] == s[|s| - |r| + i]
  {
    if |s| <= w then s else s[|s| - w..]
  }

  /** One append to a deque that holds the window of s holds the window of
      s extended by the new element. */
  lemma BoundedAppendWindow<T>(s: seq<T>, x: T, w: nat)
    ensures BoundedAppend(LastWindow(s, w), x, w) == LastWindow(s + [x], w)
  {
    var h := LastWindow(s, w);
    if w > 0 && |s| >= w {
      assert h[1..] + [x] == (s + [x])[|s| + 1 - w..];
    }
  }

  /** The deque after appending every element of xs in turn. */
  function AppendAll<T>(h: seq<T>, xs: seq<T>, w: nat): (r: seq<T>)
    requires |h| <= w
    ensures |r| <= w
    decreases |xs|
  {
    if xs == [] then h
    else BoundedAppend(AppendAll(h, xs[..|xs| - 1], w), xs[|xs| - 1], w)
  }

  /** After k appends to an empty deque it holds the last min(k, w)
      elements appended, in order. */
  lemma {:induction false} AppendAllFromEmpty<T>(xs: seq<T>, w: nat)
    ensures AppendAll([], xs, w) == LastWindow(xs, w)
    decreases |xs|
  {
    if xs != [] {
      var init := xs[..|xs| - 1];
      AppendAllFromEmpty(init, w);
      BoundedAppendWindow(init, xs[|xs| - 1], w);
      assert init + [xs[|xs| - 1]] == xs;
    }
  }

  // ---------------------------------------------------------------------
  // Statistics of one stage

  /** `statistics.mean`: the value whose n copies add up to the total. */
  function Mean(values: seq<real>): (r: real)
    requires values != []
    ensures r * |values| as real == Sum(values)
  {
    Sum(values) / |values| as real
  }

  /** `min(values)`. */
  function Minimum(values: seq<real>): (r: real)
    requires values != []
    ensures r in values
    ensures forall i :: 0 <= i < |values| ==> r <= values[i]
    decreases |values|
  {
    if |values| == 1 then values[0]
    else
      var rest := Minimum(values[1..]);
      if values[0] <= rest then values[0] else rest
  }

  /** `max(values)`. */
  function Maximum(values: seq<real>): (r: real)
    requires values != []
    ensures r in values
    ensures forall i :: 0 <= i < |values| ==> values[i] <= r
    decreases |values|
  {
    if |values| == 1 then values[0]
    else
      var rest := Maximum(values[1..]);
      if values[0] >= rest then values[0] else rest
  }

  ghost predicate Ascending(s: seq<real>)
  {
    forall i, j :: 0 <= i < j < |s| ==> s[i] <= s[j]
  }

  /** Inserts x into an ascending sequence. */
  function Insert(x: real, s: seq<real>): (r: seq<real>)
    requires Ascending(s)
    ensures Ascending(r)
    ensures multiset(r) == multiset(s) + multiset{x}
    ensures r != [] && (r[0] == x || (s != [] && r[0] == s[0]))
    decreases |s|
  {
    if s == [] || x <= s[0] then
      PrependAscending(x, s);
      [x] + s
    else
      var rest := Insert(x, s[1..]);
      assert s == [s[0]] + s[1..];
      PrependAscending(s[0], rest);
      [s[0]] + rest
  }

  /** A value no greater than the head of an ascending sequence can go in
      front of it. */
  lemma PrependAscending(x: real, s: seq<real>)
    requires Ascending(s) && (s == [] || x <= s[0])
    ensures Ascending([x] + s)
  {
    var r := [x] + s;
    forall i, j | 0 <= i < j < |r|
      ensures r[i] <= r[j]
    {
      assert r[j] == s[j - 1];
      if i > 0 {
        assert r[i] == s[i - 1];
      } else {
        assert s[0] <= s[j - 1];
      }
    }
  }

  /** `sorted(values)`: an ascending permutation of values. */
  function SortAscending(values: seq<real>): (r: seq<real>)
    ensures Ascending(r)
    ensures multiset(r) == multiset(values)
    decreases |values|
  {
    if values == [] then []
    else
      assert values == [values[0]] + values[1..];
      Insert(values[0], SortAscending(values[1..]))
  }

  /** `statistics.median`: the middle element of the sorted values, or
      the average of the two middle ones when their number is even. */
  function Median(values: seq<real>): (r: real)
    requires values != []
    ensures |values| % 2 == 1 ==> r in values
    ensures |values| % 2 == 0 ==> exists a, b :: a in values && b in values && r == (a + b) / 2.0
  {
    var s := SortAscending(values);
    SortedElementsCameFromValues(values);
    var half := |s| / 2;
    if |s| % 2 == 1 then s[half]
    else
      assert s[half - 1] in values && s[half] in values;
      (s[half - 1] + s[half]) / 2.0
  }

  /** The sorted copy has as many elements as the input, each one of its
      values. */
  lemma SortedElementsCameFromValues(values: seq<real>)
    ensures |SortAscending(values)| == |values|
    ensures forall k :: 0 <= k < |values| ==> SortAscending(values)[k] in values
  {
    var s := SortAscending(values);
    assert |s| == |multiset(s)| == |multiset(values)| == |values|;
    forall k | 0 <= k < |values|
      ensures s[k] in values
    {
      assert s[k] in multiset(s);
    }
  }

  lemma DivideBounds(a: real, n: real, lo: real, hi: real)
    requires n > 0.0 && n * lo <= a <= n * hi
    ensures lo <= a / n <= hi
  {
    var q := a / n;
    assert q * n == a;
    CancelPositiveFactor(lo, q, n);
    CancelPositiveFactor(q, hi, n);
  }

  lemma CancelPositiveFactor(x: real, y: real, n: real)
    requires n > 0.0 && x * n <= y * n
    ensures x <= y
  {
  }

  lemma MeanBetweenExtremes(values: seq<real>)
    requires values != []
    ensures Minimum(values) <= Mean(values) <= Maximum(values)
  {
    MeanBounds(values, Minimum(values), Maximum(values));
  }

  /** Values between lo and hi have their mean between lo and hi. */
  lemma MeanBounds(values: seq<real>, lo: real, hi: real)
    requires values != []
    requires forall i :: 0 <= i < |values| ==> lo <= values[i] <= hi
    ensures lo <= Mean(values) <= hi
  {
    SumBounds(values, lo, hi);
    DivideBounds(Sum(values), |values| as real, lo, hi);
  }

  lemma MedianBetweenExtremes(values: seq<real>)
    requires values != []
    ensures Minimum(values) <= Median(values) <= Maximum(values)
  {
    var s := SortAscending(values);
    SortedElementsCameFromValues(values);
    var half := |s| / 2;
    forall k | 0 <= k < |s|
      ensures Minimum(values) <= s[k] <= Maximum(values)
    {
      var i :| 0 <= i < |values| && values[i] == s[k];
    }
    if |s| % 2 == 0 {
      assert s[half - 1] + s[half] <= 2.0 * Maximum(values);
      assert 2.0 * Minimum(values) <= s[half - 1] + s[half];
    }
  }

  /** The extremes bracket the mean and the median. */
  predicate Ordered(s: MetricStats)
  {
    s.min <= s.mean <= s.max && s.min <= s.median <= s.max
  }

  /** The statistics of one stage over a non-empty window. */
  function Summarize(values: seq<real>, cutPoint: CutPoint): (s: MetricStats)
    requires values != []
    ensures s.min in values && s.max in values
    ensures forall i :: 0 <= i < |values| ==> s.min <= values[i] <= s.max
    ensures Ordered(s)
  {
    MeanBetweenExtremes(values);
    MedianBetweenExtremes(values);
    MetricStats(
      mean := Mean(values),
      median := Median(values),
      p95 := cutPoint(values, 20, 18),
      p99 := cutPoint(values, 100, 98),
      min := Minimum(values),
      max := Maximum(values))
  }

  function DataProcessingTimes(h: seq<LatencyMetrics>): (r: seq<real>)
    ensures |r| == |h| && forall i :: 0 <= i < |h| ==> r[i] == h[i].dataProcessing
  {
    seq(|h|, i requires 0 <= i < |h| => h[i].dataProcessing)
  }

  function UiUpdateTimes(h: seq<LatencyMetrics>): (r: seq<real>)
    ensures |r| == |h| && forall i :: 0 <= i < |h| ==> r[i] == h[i].uiUpdate
  {
    seq(|h|, i requires 0 <= i < |h| => h[i].uiUpdate)
  }

  function EndToEndTimes(h: seq<LatencyMetrics>): (r: seq<real>)
    ensures |r| == |h| && forall i :: 0 <= i < |h| ==> r[i] == h[i].endToEnd
  {
    seq(|h|, i requires 0 <= i < |h| => h[i].endToEnd)
  }

  /** `get_statistics()`: nothing for an empty history, otherwise exactly
      the three stages, each summarised over the whole window. */
  function StatisticsOf(h: seq<LatencyMetrics>, cutPoint: CutPoint): (r: map<string, MetricStats>)
    ensures h == [] <==> r == map[]
    ensures h != [] ==> r.Keys == {DataProcessing, UiUpdate, EndToEnd}
  {
    if h == [] then map[]
    else
      StageMap(Summarize(DataProcessingTimes(h), cutPoint), Summarize(UiUpdateTimes(h), cutPoint),
               Summarize(EndToEndTimes(h), cutPoint))
  }

  /** In every stage's statistics the extremes bracket mean and median. */
  lemma StatisticsOrdered(h: seq<LatencyMetrics>, cutPoint: CutPoint)
    ensures forall k :: k in StatisticsOf(h, cutPoint) ==> Ordered(StatisticsOf(h, cutPoint)[k])
  {
    if h != [] {
      var r := StatisticsOf(h, cutPoint);
      assert Ordered(r[DataProcessing]) && Ordered(r[UiUpdate]) && Ordered(r[EndToEnd]);
    }
  }

  /** Every cycle's end-to-end latency lies between the reported minimum
      and maximum, both of which are latencies of cycles in the window. */
  lemma EndToEndWithinExtremes(h: seq<LatencyMetrics>, cutPoint: CutPoint)
    requires h != []
    ensures var e := StatisticsOf(h, cutPoint)[EndToEnd];
      && (forall i :: 0 <= i < |h| ==> e.min <= h[i].endToEnd <= e.max)
      && (exists i :: 0 <= i < |h| && h[i].endToEnd == e.min)
      && (exists i :: 0 <= i < |h| && h[i].endToEnd == e.max)
  {
    var times := EndToEndTimes(h);
    EndToEndSummary(h, cutPoint);
    var e := Summarize(times, cutPoint);
    forall i | 0 <= i < |h|
      ensures e.min <= h[i].endToEnd <= e.max
    {
      assert times[i] == h[i].endToEnd;
    }
    var lo :| 0 <= lo < |times| && times[lo] == e.min;
    assert h[lo].endToEnd == e.min;
    var hi :| 0 <= hi < |times| && times[hi] == e.max;
    assert h[hi].endToEnd == e.max;
  }

  lemma EndToEndSummary(h: seq<LatencyMetrics>, cutPoint: CutPoint)
    requires h != []
    ensures EndToEndTimes(h) != []
    ensures StatisticsOf(h, cutPoint)[EndToEnd] == Summarize(EndToEndTimes(h), cutPoint)
  {
  }

  /** The dictionary of the three stages' statistics. */
  function StageMap(dataProcessing: MetricStats, uiUpdate: MetricStats, endToEnd: MetricStats)
    : (r: map<string, MetricStats>)
    ensures r.Keys == {DataProcessing, UiUpdate, EndToEnd}
    ensures r[DataProcessing] == dataProcessing && r[UiUpdate] == uiUpdate && r[EndToEnd] == endToEnd
  {
    assert |DataProcessing| == 15 && |UiUpdate| == 9 && |EndToEnd| == 10;
    map[DataProcessing := dataProcessing, UiUpdate := uiUpdate, EndToEnd := endToEnd]
  }

  /** Python's `s[k:]` for any integer k: a negative k counts from the
      end, and an index past either end is clamped to it. */
  function SliceFrom<T>(s: seq<T>, k: int): seq<T>
  {
    var start := if k < 0 then (if -k > |s| then 0 else |s| + k)
                 else (if k > |s| then |s| else k);
    s[start..]
  }

  // ---------------------------------------------------------------------
  // The monitor object

  class PerformanceMonitor {
    const windowSize: nat
    var history: seq<LatencyMetrics>
    var startTime: Option<real>
    var current: Option<LatencyMetrics>
    /** Every cycle appended since the history was last cleared. */
    ghost var recorded: seq<LatencyMetrics>

    ghost predicate Valid()
      reads this
    {
      && history == LastWindow(recorded, windowSize)
      && (startTime.None? <==> current.None?)
      && (current.Some? ==> current.value.timestamp == startTime.value)
    }

    constructor (windowSize: nat := 1000)
      ensures Valid()
      ensures this.windowSize == windowSize
      ensures history == [] && recorded == []
      ensures startTime == None && current == None
    {
      this.windowSize := windowSize;
      history := [];
      recorded := [];
      startTime := None;
      current := None;
    }

    /** Opens a cycle at `now` with every duration zero (an open cycle is
        replaced). */
    method StartMeasurement(now: real)
      requires Valid()
      modifies this
      ensures Valid()
      ensures startTime == Some(now)
      ensures current == Some(LatencyMetrics(0.0, 0.0, 0.0, now))
      ensures history == old(history) && recorded == old(recorded)
    {
      startTime := Some(now);
      current := Some(LatencyMetrics(0.0, 0.0, 0.0, now));
    }

    /** Stamps the data-processing time of the open cycle; no-op when idle. */
    method RecordDataProcessing(now: real)
      requires Valid()
      modifies this
      ensures Valid()
      ensures old(current).None? ==> current == None && startTime == None
      ensures old(current).Some? ==>
        current == Some(old(current).value.(dataProcessing := now - old(startTime).value))
      ensures startTime == old(startTime)
      ensures history == old(history) && recorded == old(recorded)
    {
      if current.None? {
        return;
      }
      current := Some(current.value.(dataProcessing := now - startTime.value));
    }

    /** Stamps the UI-update time of the open cycle; no-op when idle. */
    method RecordUiUpdate(now: real)
      requires Valid()
      modifies this
      ensures Valid()
      ensures old(current).None? ==> current == None && startTime == None
      ensures old(current).Some? ==>
        current == Some(old(current).value.(uiUpdate := now - old(startTime).value))
      ensures startTime == old(startTime)
      ensures history == old(history) && recorded == old(recorded)
    {
      if current.None? {
        return;
      }
      current := Some(current.value.(uiUpdate := now - startTime.value));
    }

    /** Closes the open cycle: stamps its end-to-end time, appends it to
        the history and returns to idle; no-op when idle. */
    method EndMeasurement(now: real)
      requires Valid()
      modifies this
      ensures Valid()
      ensures current == None && startTime == None
      ensures old(current).None? ==> history == old(history) && recorded == old(recorded)
      ensures old(current).Some? ==>
        var m := old(current).value.(endToEnd := now - old(startTime).value);
        && history == BoundedAppend(old(history), m, windowSize)
        && recorded == old(recorded) + [m]
      ensures |history| <= windowSize
    {
      if current.None? {
        return;
      }
      var m := current.value.(endToEnd := now - startTime.value);
      BoundedAppendWindow(recorded, m, windowSize);
      history := BoundedAppend(history, m, windowSize);
      recorded := recorded + [m];
      current := None;
      startTime := None;
    }

    /** Collects the three stage columns of the window in one pass and
        summarises each. */
    method GetStatistics(cutPoint: CutPoint) returns (stats: map<string, MetricStats>)
      ensures stats == StatisticsOf(history, cutPoint)
    {
      if |history| == 0 {
        return map[];
      }
      var dataProcessing: seq<real> := [];
      var uiUpdate: seq<real> := [];
      var endToEnd: seq<real> := [];
      for i := 0 to |history|
        invariant |dataProcessing| == |uiUpdate| == |endToEnd| == i
        invariant forall j :: 0 <= j < i ==> dataProcessing[j] == history[j].dataProcessing
        invariant forall j :: 0 <= j < i ==> uiUpdate[j] == history[j].uiUpdate
        invariant forall j :: 0 <= j < i ==> endToEnd[j] == history[j].endToEnd
      {
        dataProcessing := dataProcessing + [history[i].dataProcessing];
        uiUpdate := uiUpdate + [history[i].uiUpdate];
        endToEnd := endToEnd + [history[i].endToEnd];
      }
      assert dataProcessing == DataProcessingTimes(history);
      assert uiUpdate == UiUpdateTimes(history);
      assert endToEnd == EndToEndTimes(history);
      stats := map[DataProcessing := Summarize(dataProcessing, cutPoint),
                   UiUpdate := Summarize(uiUpdate, cutPoint),
                   EndToEnd := Summarize(endToEnd, cutPoint)];
    }

    /** For each threshold that names a stage: does the stage's p95 stay
        within it? Empty when there are no statistics. */
    method CheckPerformanceThresholds(thresholds: map<string, real>, cutPoint: CutPoint)
      returns (results: map<string, bool>)
      ensures var stats := StatisticsOf(history, cutPoint);
        && (forall k :: k in results <==> k in thresholds && k in stats)
        && (forall k :: k in results ==> results[k] == (stats[k].p95 <= thresholds[k]))
    {
      var stats := GetStatistics(cutPoint);
      if stats == map[] {
        return map[];
      }
      results := map[];
      var pending := thresholds.Keys;
      while pending != {}
        invariant pending <= thresholds.Keys
        invariant forall k :: k in results <==> k in thresholds && k !in pending && k in stats
        invariant forall k :: k in results ==> results[k] == (stats[k].p95 <= thresholds[k])
        decreases pending
      {
        if forall k :: k !in pending {
          assert false;
        }
        var name :| name in pending;
        if name in stats {
          results := results[name := stats[name].p95 <= thresholds[name]];
        }
        pending := pending - {name};
      }
    }

    /** `list(history)[-n:]`: the last n cycles in order for n > 0, the
        whole history for n = 0, all but the first -n for n < 0. */
    function RecentMetrics(n: int := 10): (r: seq<LatencyMetrics>)
      reads this
      ensures n == 0 ==> r == history
      ensures n > 0 ==> |r| == (if n < |history| then n else |history|)
      ensures n > 0 ==> r == history[|history| - |r|..]
      ensures n < 0 ==> r == history[(if -n < |history| then -n else |history|)..]
    {
      SliceFrom(history, -n)
    }

    /** Empties the history; an open cycle stays open. */
    method ClearHistory()
      requires Valid()
      modifies this
      ensures Valid()
      ensures history == [] && recorded == []
      ensures current == old(current) && startTime == old(startTime)
    {
      history := [];
      recorded := [];
    }
  }
}
