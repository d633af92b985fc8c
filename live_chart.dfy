/**
 * The chart helpers of the live drilling chart: the timeframe filter, the value range with
 * its padding, the indices the x-axis labels are taken from, the y-axis label values and the
 * first/last statistics shown above the chart.
 */
module LiveChart {
  import opened Wrappers
  import opened Sequences
  import opened DrillingTypes

  /** One plotted sample; the timestamp is in milliseconds since the epoch. */
  datatype ChartPoint = ChartPoint(value: real, timestamp: int)

  // ---------------------------------------------------------------------------
  // Timeframe filter

  /** How far back each timeframe reaches. */
  function WindowMs(timeframe: Timeframe): (w: int)
    ensures w > 0
  {
    match timeframe
    case LastHour => 60 * 60 * 1000
    case LastDay => 24 * 60 * 60 * 1000
    case LastSixHours => 6 * 60 * 60 * 1000
  }

  /** `filter(point => point.timestamp >= cutoff)`. */
  function FilterSince(data: seq<ChartPoint>, cutoff: int): (r: seq<ChartPoint>)
    ensures forall p :: p in r <==> p in data && p.timestamp >= cutoff
    ensures |r| <= |data|
  {
    if |data| == 0 then []
    else if data[0].timestamp >= cutoff then [data[0]] + FilterSince(data[1..], cutoff)
    else FilterSince(data[1..], cutoff)
  }

  /**
   * The filter is fixed point by point: filtering a longer series filters the shorter one and
   * keeps the new point (every copy of it) exactly when it is no older than the cutoff.
   */
  lemma {:induction false} FilterSinceAppend(data: seq<ChartPoint>, q: ChartPoint, cutoff: int)
    ensures FilterSince(data + [q], cutoff) == FilterSince(data, cutoff) + (if q.timestamp >= cutoff then [q] else [])
    decreases |data|
  {
    if |data| == 0 {
      assert [] + [q] == [q];
      assert [q][1..] == [];
    } else {
      assert (data + [q])[0] == data[0];
      assert (data + [q])[1..] == data[1..] + [q];
      FilterSinceAppend(data[1..], q, cutoff);
    }
  }

  /** `getFilteredData`: the points of the last window before `now`, oldest first. */
  function GetFilteredData(data: seq<ChartPoint>, timeframe: Timeframe, now: int): seq<ChartPoint> {
    if |data| == 0 then [] else FilterSince(data, now - WindowMs(timeframe))
  }

  /** The filter keeps the order of the points it keeps. */
  lemma {:induction false} FilterSinceIsSubsequence(data: seq<ChartPoint>, cutoff: int)
    ensures IsSubsequence(FilterSince(data, cutoff), data)
  {
    if |data| > 0 {
      FilterSinceIsSubsequence(data[1..], cutoff);
      if data[0].timestamp >= cutoff {
        assert FilterSince(data, cutoff)[1..] == FilterSince(data[1..], cutoff);
      } else {
        SubsequenceTail(FilterSince(data, cutoff), data[1..], data[0]);
        assert [data[0]] + data[1..] == data;
      }
    }
  }

  /** A later cutoff keeps a subsequence of what an earlier cutoff keeps. */
  lemma {:induction false} FilterSinceNests(data: seq<ChartPoint>, later: int, earlier: int)
    requires earlier <= later
    ensures IsSubsequence(FilterSince(data, later), FilterSince(data, earlier))
  {
    if |data| > 0 {
      FilterSinceNests(data[1..], later, earlier);
      var tailLater := FilterSince(data[1..], later);
      var tailEarlier := FilterSince(data[1..], earlier);
      if data[0].timestamp >= later {
        assert FilterSince(data, later)[1..] == tailLater;
        assert FilterSince(data, earlier)[1..] == tailEarlier;
      } else if data[0].timestamp >= earlier {
        SubsequenceTail(tailLater, tailEarlier, data[0]);
      }
    }
  }

  /**
   * What the filter shows: exactly the points no older than the window, in their original
   * order; nothing for no data.
   */
  lemma GetFilteredDataKeepsWindow(data: seq<ChartPoint>, timeframe: Timeframe, now: int)
    ensures |data| == 0 ==> GetFilteredData(data, timeframe, now) == []
    ensures forall p :: p in GetFilteredData(data, timeframe, now) <==>
              p in data && p.timestamp >= now - WindowMs(timeframe)
    ensures IsSubsequence(GetFilteredData(data, timeframe, now), data)
  {
    FilterSinceIsSubsequence(data, now - WindowMs(timeframe));
  }

  /** The last hour is part of the last six hours, which are part of the last day. */
  lemma TimeframesNest(data: seq<ChartPoint>, now: int)
    ensures IsSubsequence(GetFilteredData(data, LastHour, now), GetFilteredData(data, LastSixHours, now))
    ensures IsSubsequence(GetFilteredData(data, LastSixHours, now), GetFilteredData(data, LastDay, now))
  {
    FilterSinceNests(data, now - WindowMs(LastHour), now - WindowMs(LastSixHours));
    FilterSinceNests(data, now - WindowMs(LastSixHours), now - WindowMs(LastDay));
  }

  // ---------------------------------------------------------------------------
  // Value range

  /** `Math.min(...values)`. */
  function MinValue(data: seq<ChartPoint>): (m: real)
    requires |data| > 0
    ensures forall i :: 0 <= i < |data| ==> m <= data[i].value
    ensures exists i :: 0 <= i < |data| && m == data[i].value
  {
    if |data| == 1 then data[0].value
    else
      var rest := MinValue(data[1..]);
      assert forall i :: 1 <= i < |data| ==> data[i] == data[1..][i - 1];
      if data[0].value <= rest then data[0].value else rest
  }

  /** `Math.max(...values)`. */
  function MaxValue(data: seq<ChartPoint>): (m: real)
    requires |data| > 0
    ensures forall i :: 0 <= i < |data| ==> data[i].value <= m
    ensures exists i :: 0 <= i < |data| && m == data[i].value
  {
    if |data| == 1 then data[0].value
    else
      var rest := MaxValue(data[1..]);
      assert forall i :: 1 <= i < |data| ==> data[i] == data[1..][i - 1];
      if data[0].value >= rest then data[0].value else rest
  }

  datatype Range = Range(lo: real, hi: real)

  /** The padding added to each end: a tenth of the spread. */
  function Padding(lo: real, hi: real): real {
    (hi - lo) * 0.1
  }

  /**
   * `calculateRange`: `(0, 100)` without data; otherwise the given bounds, or the data's own
   * minimum and maximum, widened by a tenth of the spread, with the lower end kept at 0 or above.
   */
  function CalculateRange(data: seq<ChartPoint>, minValue: Option<real>, maxValue: Option<real>): (r: Range)
    ensures |data| == 0 ==> r == Range(0.0, 100.0)
    ensures |data| > 0 ==> r.lo >= 0.0
  {
    if |data| == 0 then Range(0.0, 100.0)
    else
      var lo := minValue.GetOr(MinValue(data));
      var hi := maxValue.GetOr(MaxValue(data));
      var padding := Padding(lo, hi);
      Range(if 0.0 >= lo - padding then 0.0 else lo - padding, hi + padding)
  }

  /**
   * Both ends move outwards by a tenth of the spread, except that the lower end stops at 0;
   * so ordered, non-negative bounds stay inside the range, which is at most 1.2 times as wide.
   */
  lemma CalculateRangeWidens(data: seq<ChartPoint>, minValue: Option<real>, maxValue: Option<real>)
    requires |data| > 0
    ensures var lo := minValue.GetOr(MinValue(data));
      var hi := maxValue.GetOr(MaxValue(data));
      var r := CalculateRange(data, minValue, maxValue);
      && r.hi == hi + (hi - lo) / 10.0
      && (lo - (hi - lo) / 10.0 <= 0.0 ==> r.lo == 0.0)
      && (lo - (hi - lo) / 10.0 > 0.0 ==> r.lo == lo - (hi - lo) / 10.0)
      && (lo <= hi ==> hi <= r.hi)
      && (0.0 <= lo <= hi ==> r.lo <= lo && r.hi - r.lo <= (hi - lo) * 1.2)
  {
  }

  /** Without overrides and with non-negative data, every value lies inside the chart's range. */
  lemma CalculateRangeCoversData(data: seq<ChartPoint>)
    requires |data| > 0
    requires forall i :: 0 <= i < |data| ==> data[i].value >= 0.0
    ensures var r := CalculateRange(data, None, None);
      forall i :: 0 <= i < |data| ==> r.lo <= data[i].value <= r.hi
  {
    CalculateRangeWidens(data, None, None);
    var i0 :| 0 <= i0 < |data| && MinValue(data) == data[i0].value;
  }

  // ---------------------------------------------------------------------------
  // Axis labels

  /** `Math.max(1, Math.floor(n / 4))`: the distance between picked x-label indices. */
  function XStep(n: nat): (step: nat)
    ensures step >= 1
  {
    if n / 4 >= 1 then n / 4 else 1
  }

  /** Indices `i, i + step, i + 2·step, …` below `n`, at most `room` of them. */
  function Strided(i: nat, n: nat, step: nat, room: nat): seq<nat>
    requires step >= 1
    decreases n - i
  {
    if i >= n || room == 0 then [] else [i] + Strided(i + step, n, step, room - 1)
  }

  /**
   * The picked indices are the multiples of the step from `i`, all below `n`, at most `room`
   * of them, and they stop early only when the next one would reach `n`.
   */
  lemma {:induction false} StridedShape(i: nat, n: nat, step: nat, room: nat)
    requires step >= 1
    ensures var s := Strided(i, n, step, room);
      && |s| <= room
      && (forall k :: 0 <= k < |s| ==> s[k] == i + k * step && s[k] < n)
      && (|s| < room ==> i + |s| * step >= n)
    decreases n - i
  {
    var s := Strided(i, n, step, room);
    if i < n && room > 0 {
      StridedShape(i + step, n, step, room - 1);
      var t := Strided(i + step, n, step, room - 1);
      assert s == [i] + t;
      forall k | 0 < k < |s| ensures s[k] == i + k * step {
        assert s[k] == t[k - 1] == i + step + (k - 1) * step;
        assert (k - 1) * step + step == k * step;
      }
      assert |s| * step == |t| * step + step;
    }
  }

  /**
   * The x-label indices: every step-th point from the first while fewer than five are
   * picked, then the last point if there is still room.
   */
  function XLabels(n: nat): seq<nat> {
    var picked := Strided(0, n, XStep(n), 5);
    if |picked| < 5 && n > 0 then picked + [n - 1] else picked
  }

  /** One index into the data per x-axis label (`generateXLabels` without the time formatting). */
  method XLabelIndices(n: nat) returns (labels: seq<nat>)
    ensures labels == XLabels(n)
  {
    labels := [];
    if n == 0 {
      return;
    }
    var step := XStep(n);
    ghost var picked := Strided(0, n, step, 5);
    ghost var room: nat := 5;
    var i: nat := 0;
    while i < n
      invariant room == 5 - |labels|
      invariant labels + Strided(i, n, step, room) == picked
      decreases n - i
    {
      if |labels| < 5 {
        ghost var rest := Strided(i + step, n, step, room - 1);
        assert Strided(i, n, step, room) == [i] + rest;
        assert (labels + [i]) + rest == labels + ([i] + rest);
        labels := labels + [i];
        room := room - 1;
      }
      i := i + step;
    }
    if |labels| < 5 && n > 0 {
      labels := labels + [n - 1];
    }
  }

  /**
   * At most five labels; none without data; the first from index 0; every index inside the
   * data; the picked ones are the multiples of the step; and the last point is labelled
   * whenever fewer than five multiples fit.
   */
  lemma XLabelsShape(n: nat)
    ensures var r := XLabels(n);
      && |r| <= 5
      && (|r| == 0 <==> n == 0)
      && (n > 0 ==> r[0] == 0)
      && (forall k :: 0 <= k < |r| ==> r[k] < n)
    ensures var picked := Strided(0, n, XStep(n), 5);
      && (forall k :: 0 <= k < |picked| ==> XLabels(n)[k] == k * XStep(n))
      && (|picked| < 5 && n > 0 ==> XLabels(n)[|XLabels(n)| - 1] == n - 1)
  {
    StridedShape(0, n, XStep(n), 5);
  }

  /** Small data repeats the last index; sixteen points get four multiples of 4 and the last. */
  lemma XLabelsExamples()
    ensures XLabels(3) == [0, 1, 2, 2]
    ensures XLabels(16) == [0, 4, 8, 12, 15]
    ensures XLabels(17) == [0, 4, 8, 12, 16]
    ensures XLabels(1) == [0, 0]
  {
    assert Strided(0, 3, 1, 5) == [0, 1, 2];
    assert Strided(0, 16, 4, 5) == [0, 4, 8, 12];
    assert Strided(0, 17, 4, 5) == [0, 4, 8, 12, 16];
  }

  /** The y-label value at position `i` of five, from `max` at the top down to `min`. */
  function YLabel(lo: real, hi: real, i: nat): real {
    hi - (hi - lo) * (i as real) / 4.0
  }

  /** Neighbouring y-labels are a quarter of the range apart. */
  lemma YLabelSpacing(lo: real, hi: real, i: nat)
    ensures YLabel(lo, hi, i) - YLabel(lo, hi, i + 1) == (hi - lo) / 4.0
  {
    var x := i as real;
    assert ((i + 1) as real) == x + 1.0;
    assert (hi - lo) * (x + 1.0) == (hi - lo) * x + (hi - lo);
  }

  /**
   * `generateYLabels` without the one-decimal formatting: five values from `max` down to
   * `min`, evenly spaced.
   */
  method YLabelValues(lo: real, hi: real) returns (values: seq<real>)
    ensures |values| == 5
    ensures forall i :: 0 <= i < 5 ==> values[i] == YLabel(lo, hi, i)
    ensures values[0] == hi && values[4] == lo
    ensures forall i :: 0 <= i < 4 ==> values[i] - values[i + 1] == (hi - lo) / 4.0
  {
    values := [];
    var i := 0;
    while i < 5
      invariant 0 <= i <= 5 && |values| == i
      invariant forall k :: 0 <= k < i ==> values[k] == YLabel(lo, hi, k)
    {
      var range := hi - lo;
      var value := hi - range * (i as real) / 4.0;
      values := values + [value];
      i := i + 1;
    }
    forall i | 0 <= i < 4 ensures values[i] - values[i + 1] == (hi - lo) / 4.0 {
      YLabelSpacing(lo, hi, i);
    }
  }

  // ---------------------------------------------------------------------------
  // Statistics

  datatype Stats = Stats(current: real, change: real, isPositive: bool)

  /**
   * `getCurrentStats`: the latest value, how far it moved from the first one and in which
   * direction; `(0, 0, true)` without data.
   */
  function CurrentStats(data: seq<ChartPoint>): (s: Stats)
    ensures |data| == 0 ==> s == Stats(0.0, 0.0, true)
    ensures |data| > 0 ==> s.current == data[|data| - 1].value && s.change >= 0.0
    ensures |data| > 0 ==> (s.isPositive <==> data[|data| - 1].value >= data[0].value)
    ensures |data| > 0 ==>
              (if s.isPositive then data[0].value + s.change else data[0].value - s.change) == s.current
  {
    if |data| == 0 then Stats(0.0, 0.0, true)
    else
      var current := data[|data| - 1].value;
      var first := data[0].value;
      var change := current - first;
      var isPositive := change >= 0.0;
      Stats(current, if change >= 0.0 then change else -change, isPositive)
  }

  /** A single point has moved nowhere: the change is 0 and counts as positive. */
  lemma CurrentStatsSinglePoint(p: ChartPoint)
    ensures CurrentStats([p]) == Stats(p.value, 0.0, true)
  {
  }
}
