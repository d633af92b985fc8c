/**
 * The drilling mock generator: seed helpers that build a sensor's trend and a depth log
 * backwards from the present, and the periodic tick that advances every drilling well
 * (depth, time, sensor channels, ROP and the five sliding logs) and freezes every other well.
 * Every `Math.random()` draw is a parameter; `new Date()` is the parameter `now` (milliseconds).
 */
module DrillingData {
  import opened Sequences
  import opened SensorModel
  import opened DrillingTypes

  /** Trend length above which a push first drops the oldest value. */
  const TrendWindow: nat := 20
  /** Points each log keeps (24 hours at 15-minute intervals). */
  const LogWindow: nat := 96
  /** A seed trend step moves by at most 5% of the range; a tick moves a channel by at most 3%. */
  const TrendFluctuation: real := 0.05
  const DrillingFluctuation: real := 0.03
  /** One tick advances the well's clock by one minute, in hours. */
  const TickHours: real := 1.0 / 60.0
  const QuarterHourMs: int := 15 * 60 * 1000
  const HourMs: int := 3600000

  // ---------------------------------------------------------------------------
  // Seed helpers

  /** One step of the seed trend walk: nudge by the draw, then clamp. */
  function TrendStep(value: real, lo: real, hi: real, r: real): real {
    var range := hi - lo;
    var fluctuation := range * TrendFluctuation;
    Clamp(value + (r - 0.5) * fluctuation, lo, hi)
  }

  /** The walk's value after `i` steps from `start`. */
  function TrendWalk(start: real, lo: real, hi: real, draws: seq<real>, i: nat): real
    requires i <= |draws|
  {
    if i == 0 then start else TrendStep(TrendWalk(start, lo, hi, draws, i - 1), lo, hi, draws[i - 1])
  }

  /** The walk's first `i` values, rounded to two decimals, the latest first. */
  function TrendSeries(start: real, lo: real, hi: real, draws: seq<real>, i: nat): seq<real>
    requires i <= |draws|
  {
    if i == 0 then [] else [Round2(TrendWalk(start, lo, hi, draws, i))] + TrendSeries(start, lo, hi, draws, i - 1)
  }

  /**
   * The series has one value per step, the value of step `i - k` at index `k`, and every
   * value after the first step lies in the rounded range.
   */
  lemma {:induction false} TrendSeriesElements(start: real, lo: real, hi: real, draws: seq<real>, i: nat)
    requires i <= |draws|
    ensures var t := TrendSeries(start, lo, hi, draws, i);
      && |t| == i
      && (forall k :: 0 <= k < i ==> t[k] == Round2(TrendWalk(start, lo, hi, draws, i - k)))
      && (lo <= hi ==> forall k :: 0 <= k < i ==> Round2(lo) <= t[k] <= Round2(hi))
  {
    if i > 0 {
      TrendSeriesElements(start, lo, hi, draws, i - 1);
      var v := TrendWalk(start, lo, hi, draws, i);
      assert v == TrendStep(TrendWalk(start, lo, hi, draws, i - 1), lo, hi, draws[i - 1]);
      Round2InRange(v, lo, hi);
    }
  }

  /**
   * `generateTrendData`: `points` steps of the walk, each new value put in front, so the
   * value of step `points - k` ends up at index `k` (the last step first).
   */
  method GenerateTrendData(currentValue: real, lo: real, hi: real, points: nat, draws: seq<real>)
    returns (result: seq<real>)
    requires |draws| == points
    ensures |result| == points
    ensures forall k :: 0 <= k < points ==> result[k] == Round2(TrendWalk(currentValue, lo, hi, draws, points - k))
    ensures lo <= hi ==> forall k :: 0 <= k < points ==> Round2(lo) <= result[k] <= Round2(hi)
  {
    result := [];
    var value := currentValue;
    var i := 0;
    while i < points
      invariant 0 <= i <= points
      invariant value == TrendWalk(currentValue, lo, hi, draws, i)
      invariant result == TrendSeries(currentValue, lo, hi, draws, i)
    {
      value := TrendStep(value, lo, hi, draws[i]);
      result := [Round2(value)] + result;
      i := i + 1;
    }
    TrendSeriesElements(currentValue, lo, hi, draws, points);
  }

  /** The depth `i` quarter-hours back: each quarter-hour removes 0.5 m plus up to 1.5 m more. */
  function DepthBack(current: real, draws: seq<real>, i: nat): (depth: real)
    requires i <= |draws|
    ensures (forall j :: 0 <= j < i ==> IsDraw(draws[j])) ==>
              current - 2.0 * (i as real) <= depth <= current - 0.5 * (i as real)
  {
    if i == 0 then current else DepthBack(current, draws, i - 1) - (0.5 + draws[i - 1] * 1.5)
  }

  /**
   * `generateDepthLog`: `points` samples at 15-minute intervals ending at `now`, oldest first,
   * each depth rounded to one decimal.
   */
  method GenerateDepthLog(currentDepth: real, points: nat, now: int, draws: seq<real>) returns (log: DepthLog)
    requires |draws| == points
    ensures |log.depth| == points && |log.timestamp| == points
    ensures forall k :: 0 <= k < points ==> log.timestamp[k] == now - (points - 1 - k) * QuarterHourMs
    ensures forall k :: 0 <= k < points ==> log.depth[k] == Round1(DepthBack(currentDepth, draws, points - k))
    ensures forall k :: 0 <= k < points - 1 ==> log.timestamp[k] < log.timestamp[k + 1]
    ensures (forall j :: 0 <= j < points ==> IsDraw(draws[j])) ==>
              forall k :: 0 <= k < points - 1 ==> log.depth[k] < log.depth[k + 1]
  {
    var depth: seq<real> := [];
    var timestamp: seq<int> := [];
    var depthValue := currentDepth;
    var i := 0;
    while i < points
      invariant 0 <= i <= points
      invariant |depth| == i && |timestamp| == i
      invariant depthValue == DepthBack(currentDepth, draws, i)
      invariant forall k :: 0 <= k < i ==> timestamp[k] == now - (i - 1 - k) * QuarterHourMs
      invariant forall k :: 0 <= k < i ==> depth[k] == Round1(DepthBack(currentDepth, draws, i - k))
    {
      var timePoint := now - i * QuarterHourMs;
      timestamp := [timePoint] + timestamp;
      var depthDecrease := 0.5 + draws[i] * 1.5;
      depthValue := depthValue - depthDecrease;
      depth := [Round1(depthValue)] + depth;
      i := i + 1;
    }
    log := DepthLog(depth, timestamp);
    if forall j :: 0 <= j < points ==> IsDraw(draws[j]) {
      forall k | 0 <= k < points - 1
        ensures log.depth[k] < log.depth[k + 1]
      {
        var older := DepthBack(currentDepth, draws, points - k);
        var newer := DepthBack(currentDepth, draws, points - k - 1);
        assert older == newer - (0.5 + draws[points - k - 1] * 1.5);
        Round1Separates(older, newer);
      }
    }
  }

  /**
   * `createDrillingSensor`: the value is stored as given (not clamped), its status is the
   * band rule, and an empty trend is replaced by a fresh 20-point seed trend.
   */
  method CreateDrillingSensor(id: string, name: string, value: real, unit: string, lo: real, hi: real,
                              trend: seq<real>, now: int, draws: seq<real>)
    returns (s: DrillingSensor)
    requires |trend| == 0 ==> |draws| == TrendWindow
    ensures s.id == id && s.name == name && s.unit == unit && s.timestamp == now
    ensures s.value == value && s.min == lo && s.max == hi
    ensures s.status == Classify(value, lo, hi)
    ensures |trend| > 0 ==> s.trend == trend
    ensures |trend| == 0 ==> |s.trend| == TrendWindow
    ensures |trend| == 0 ==>
              forall k :: 0 <= k < TrendWindow ==> s.trend[k] == Round2(TrendWalk(value, lo, hi, draws, TrendWindow - k))
    ensures |trend| == 0 && lo <= hi ==> forall k :: 0 <= k < |s.trend| ==> Round2(lo) <= s.trend[k] <= Round2(hi)
  {
    var t := trend;
    if |trend| == 0 {
      t := GenerateTrendData(value, lo, hi, TrendWindow, draws);
    }
    s := DrillingSensor(id, name, value, unit, Classify(value, lo, hi), now, lo, hi, t);
  }

  // ---------------------------------------------------------------------------
  // One channel of a tick

  /** The nudged and clamped value of a channel, before rounding. */
  function DrillingPerturbed(s: DrillingSensor, r: real): (v: real)
    ensures s.min <= s.max ==> s.min <= v <= s.max
  {
    var range := s.max - s.min;
    var fluctuation := range * DrillingFluctuation;
    Clamp(s.value + (r - 0.5) * fluctuation, s.min, s.max)
  }

  /**
   * The trend push: the oldest value is dropped only when the trend already holds MORE than
   * 20 values, so a 20-value trend grows to 21 and stays there.
   */
  function PushTrend(trend: seq<real>, x: real): (t: seq<real>)
    ensures |t| == if |trend| > TrendWindow then |trend| else |trend| + 1
    ensures t[|t| - 1] == x
    ensures t[..|t| - 1] == if |trend| > TrendWindow then trend[1..] else trend
  {
    var kept := if |trend| > TrendWindow then trend[1..] else trend;
    kept + [x]
  }

  /** The trend after pushing each of `xs` in turn. */
  function PushAll(trend: seq<real>, xs: seq<real>): seq<real>
    decreases |xs|
  {
    if |xs| == 0 then trend else PushAll(PushTrend(trend, xs[0]), xs[1..])
  }

  /** A trend of at most 21 values stays at most 21 values long however many ticks follow. */
  lemma {:induction false} TrendStaysBounded(trend: seq<real>, xs: seq<real>)
    requires |trend| <= TrendWindow + 1
    ensures |PushAll(trend, xs)| <= TrendWindow + 1
    decreases |xs|
  {
    if |xs| > 0 {
      TrendStaysBounded(PushTrend(trend, xs[0]), xs[1..]);
    }
  }

  /** A trend that was never shorter than `n` ticks allow keeps growing: 20 becomes 21. */
  lemma {:induction false} TrendReachesBound(trend: seq<real>, xs: seq<real>)
    requires |trend| + |xs| >= TrendWindow + 1 && |trend| <= TrendWindow + 1
    ensures |PushAll(trend, xs)| == TrendWindow + 1
    decreases |xs|
  {
    if |xs| > 0 {
      TrendReachesBound(PushTrend(trend, xs[0]), xs[1..]);
    }
  }

  /** `updateSensor`: clamp, classify by the same band rule as at creation, push to the trend. */
  function UpdateSensor(s: DrillingSensor, r: real, now: int): (u: DrillingSensor)
    ensures u == s.(value := u.value, status := u.status, timestamp := now, trend := u.trend)
    ensures u.value == Round2(DrillingPerturbed(s, r))
    ensures u.status == Classify(DrillingPerturbed(s, r), s.min, s.max)
    ensures s.min <= s.max ==> Round2(s.min) <= u.value <= Round2(s.max)
    ensures u.trend == PushTrend(s.trend, u.value)
  {
    var newValue := DrillingPerturbed(s, r);
    Round2InRange(newValue, s.min, s.max);
    var rounded := Round2(newValue);
    s.(value := rounded, status := Classify(newValue, s.min, s.max), timestamp := now,
       trend := PushTrend(s.trend, rounded))
  }

  /** When the bounds have at most two decimals, the stored value itself lies in `[min, max]`. */
  lemma UpdateSensorInBounds(s: DrillingSensor, r: real, now: int)
    requires s.min <= s.max && IsCents(s.min) && IsCents(s.max)
    ensures s.min <= UpdateSensor(s, r, now).value <= s.max
  {
    Round2KeepsCents(s.min);
    Round2KeepsCents(s.max);
  }

  /** From a value inside its range, one tick moves a channel by at most 1.5% of the range. */
  lemma DrillingNudgeBounded(s: DrillingSensor, r: real)
    requires s.min <= s.value <= s.max && IsDraw(r)
    ensures -(s.max - s.min) * DrillingFluctuation / 2.0 <= DrillingPerturbed(s, r) - s.value
    ensures DrillingPerturbed(s, r) - s.value <= (s.max - s.min) * DrillingFluctuation / 2.0
  {
    var f := (s.max - s.min) * DrillingFluctuation;
    MulNonNegative(s.max - s.min, DrillingFluctuation);
    CenteredDraw(r, f);
    ClampStaysNear(s.value, (r - 0.5) * f, s.min, s.max, f / 2.0);
  }

  // ---------------------------------------------------------------------------
  // The sliding logs

  predicate DepthLogInStep(log: DepthLog) {
    |log.depth| == |log.timestamp|
  }

  predicate ParameterLogInStep(log: ParameterLog) {
    |log.depth| == |log.timestamp| == |log.values|
  }

  /** Append a sample; when the depth array then exceeds 96 points, keep the last 96 of both arrays. */
  function AppendDepthLog(log: DepthLog, depth: real, now: int): DepthLog {
    var grown := DepthLog(log.depth + [depth], log.timestamp + [now]);
    if |grown.depth| > LogWindow then
      DepthLog(KeepLast(grown.depth, LogWindow), KeepLast(grown.timestamp, LogWindow))
    else grown
  }

  /** Append a sample; when the parameter array then exceeds 96 points, keep the last 96 of all three. */
  function AppendParameterLog(log: ParameterLog, value: real, depth: real, now: int): ParameterLog {
    var grown := ParameterLog(log.depth + [depth], log.timestamp + [now], log.values + [value]);
    if |grown.values| > LogWindow then
      ParameterLog(KeepLast(grown.depth, LogWindow), KeepLast(grown.timestamp, LogWindow),
                   KeepLast(grown.values, LogWindow))
    else grown
  }

  /**
   * Appending to `s` and keeping the last 96: the length is min(n + 1, 96), the new element is
   * last, and the earlier entries are the most recent old ones in their original order.
   */
  ghost predicate IsWindowAppend<T>(r: seq<T>, s: seq<T>, x: T) {
    && |r| == MinNat(|s| + 1, LogWindow)
    && r[|r| - 1] == x
    && forall k :: 0 <= k < |r| - 1 ==> r[k] == s[|s| + 1 - |r| + k]
  }

  lemma KeepLastAppend<T>(s: seq<T>, x: T)
    ensures IsWindowAppend(KeepLast(s + [x], LogWindow), s, x)
  {
    var t := s + [x];
    var r := KeepLast(t, LogWindow);
    assert |t| == |s| + 1;
    assert r[|r| - 1] == t[|t| - 1] == x;
    forall k | 0 <= k < |r| - 1
      ensures r[k] == s[|s| + 1 - |r| + k]
    {
      var j := |t| - |r| + k;
      assert r[k] == t[j];
      assert t[j] == s[j];
    }
  }

  lemma AppendDepthLogWindow(log: DepthLog, depth: real, now: int)
    requires DepthLogInStep(log)
    ensures var r := AppendDepthLog(log, depth, now);
      && DepthLogInStep(r)
      && IsWindowAppend(r.depth, log.depth, depth)
      && IsWindowAppend(r.timestamp, log.timestamp, now)
  {
    KeepLastAppend(log.depth, depth);
    KeepLastAppend(log.timestamp, now);
  }

  lemma AppendParameterLogWindow(log: ParameterLog, value: real, depth: real, now: int)
    requires ParameterLogInStep(log)
    ensures var r := AppendParameterLog(log, value, depth, now);
      && ParameterLogInStep(r)
      && IsWindowAppend(r.depth, log.depth, depth)
      && IsWindowAppend(r.timestamp, log.timestamp, now)
      && IsWindowAppend(r.values, log.values, value)
  {
    KeepLastAppend(log.depth, depth);
    KeepLastAppend(log.timestamp, now);
    KeepLastAppend(log.values, value);
  }

  // ---------------------------------------------------------------------------
  // Rate of penetration

  /**
   * The ROP estimate needs a last depth-log point whose time differs from `now`; otherwise
   * the source divides by zero or reads past the array and stores NaN or Infinity.
   */
  predicate RopComputable(log: DepthLog, now: int) {
    0 < |log.depth| <= |log.timestamp| && log.timestamp[|log.depth| - 1] != now
  }

  /** Metres gained since the last depth-log point per hour elapsed since it, to one decimal. */
  function RopEstimate(log: DepthLog, newDepth: real, now: int): real
    requires RopComputable(log, now)
  {
    var last := |log.depth| - 1;
    var timeDiff := now - log.timestamp[last];
    var depthDiff := newDepth - log.depth[last];
    Round1(depthDiff / (timeDiff as real / HourMs as real))
  }

  /** The estimate is the depth rate since the last log point, within rounding to one decimal. */
  lemma RopEstimateIsRate(log: DepthLog, newDepth: real, now: int)
    requires RopComputable(log, now)
    ensures var last := |log.depth| - 1;
      var hours := (now - log.timestamp[last]) as real / HourMs as real;
      var rate := (newDepth - log.depth[last]) / hours;
      rate - 0.05 < RopEstimate(log, newDepth, now) <= rate + 0.05
  {
  }

  // ---------------------------------------------------------------------------
  // The well tick

  /** The draws one drilling well consumes in a tick. */
  datatype WellDraws = WellDraws(
    depth: real, wobLog: real, torqueLog: real, rpmLog: real,
    wob: real, torque: real, rpm: real, mudFlowRate: real, mudTemperature: real,
    downholePressure: real, annularPressure: real, standpipePressure: real,
    hookLoad: real, blockPosition: real, pumpRate: real,
    axialVibration: real, lateralVibration: real, torsionalVibration: real,
    methaneLevel: real, hydrogenSulfideLevel: real)

  /** 0.1 m plus up to 0.3 m more. */
  function DepthIncrease(r: real): (d: real)
    ensures IsDraw(r) ==> 0.1 <= d < 0.4
  {
    r * 0.3 + 0.1
  }

  /** A tick can run on a well that is not drilling, or whose ROP estimate is defined. */
  predicate TickReady(w: WellDrillingData, now: int) {
    w.status == Drilling ==> RopComputable(w.depthLog, now)
  }

  /** The depth a drilling well reaches in a tick, before rounding. */
  function NewDepth(w: WellDrillingData, d: WellDraws): (depth: real)
    ensures IsDraw(d.depth) ==> w.currentDepth + 0.1 <= depth < w.currentDepth + 0.4
  {
    w.currentDepth + DepthIncrease(d.depth)
  }

  /** The weight-on-bit log sample: the current reading nudged by less than 1 either way, to one decimal. */
  function WobSample(w: WellDrillingData, d: WellDraws): (v: real)
    ensures IsDraw(d.wobLog) ==> w.wob.value - 1.05 < v < w.wob.value + 1.05
  {
    Round1(w.wob.value + (d.wobLog - 0.5) * 2.0)
  }

  /** The torque log sample: the current reading nudged by less than 1.5 either way, to one decimal. */
  function TorqueSample(w: WellDrillingData, d: WellDraws): (v: real)
    ensures IsDraw(d.torqueLog) ==> w.torque.value - 1.55 < v < w.torque.value + 1.55
  {
    Round1(w.torque.value + (d.torqueLog - 0.5) * 3.0)
  }

  /** The rotary speed log sample: the current reading nudged by less than 5 either way, to a whole number. */
  function RpmSample(w: WellDrillingData, d: WellDraws): (v: real)
    ensures IsDraw(d.rpmLog) ==> w.rpm.value - 5.5 < v < w.rpm.value + 5.5
  {
    Round0(w.rpm.value + (d.rpmLog - 0.5) * 10.0)
  }

  /** One well of `updateDrillingData`. */
  function UpdateWell(w: WellDrillingData, d: WellDraws, now: int): (u: WellDrillingData)
    requires TickReady(w, now)
    ensures w.status != Drilling ==> u == w
  {
    if w.status != Drilling then w
    else
      var newDepth := NewDepth(w, d);
      var newElapsedTime := w.elapsedTime + TickHours;
      var newRemainingTime := w.remainingTime - TickHours;
      var newRopValue := RopEstimate(w.depthLog, newDepth, now);
      var newWobValue := WobSample(w, d);
      var newTorqueValue := TorqueSample(w, d);
      var newRpmValue := RpmSample(w, d);
      w.(
        currentDepth := Round1(newDepth),
        elapsedTime := Round2(newElapsedTime),
        remainingTime := Round2(newRemainingTime),
        rop := w.rop.(value := newRopValue, timestamp := now),
        wob := UpdateSensor(w.wob, d.wob, now),
        torque := UpdateSensor(w.torque, d.torque, now),
        rpm := UpdateSensor(w.rpm, d.rpm, now),
        mudFlowRate := UpdateSensor(w.mudFlowRate, d.mudFlowRate, now),
        mudTemperature := UpdateSensor(w.mudTemperature, d.mudTemperature, now),
        downholePressure := UpdateSensor(w.downholePressure, d.downholePressure, now),
        annularPressure := UpdateSensor(w.annularPressure, d.annularPressure, now),
        standpipePressure := UpdateSensor(w.standpipePressure, d.standpipePressure, now),
        hookLoad := UpdateSensor(w.hookLoad, d.hookLoad, now),
        blockPosition := UpdateSensor(w.blockPosition, d.blockPosition, now),
        pumpRate := UpdateSensor(w.pumpRate, d.pumpRate, now),
        axialVibration := UpdateSensor(w.axialVibration, d.axialVibration, now),
        lateralVibration := UpdateSensor(w.lateralVibration, d.lateralVibration, now),
        torsionalVibration := UpdateSensor(w.torsionalVibration, d.torsionalVibration, now),
        methaneLevel := UpdateSensor(w.methaneLevel, d.methaneLevel, now),
        hydrogenSulfideLevel := UpdateSensor(w.hydrogenSulfideLevel, d.hydrogenSulfideLevel, now),
        depthLog := AppendDepthLog(w.depthLog, newDepth, now),
        ropLog := AppendParameterLog(w.ropLog, newRopValue, newDepth, now),
        wobLog := AppendParameterLog(w.wobLog, newWobValue, newDepth, now),
        torqueLog := AppendParameterLog(w.torqueLog, newTorqueValue, newDepth, now),
        rpmLog := AppendParameterLog(w.rpmLog, newRpmValue, newDepth, now))
  }

  /** `updateDrillingData`: every well ticks with its own draws, all at the same `now`. */
  function UpdateDrillingData(wells: seq<WellDrillingData>, draws: seq<WellDraws>, now: int)
    : (r: seq<WellDrillingData>)
    requires |draws| == |wells|
    requires forall i :: 0 <= i < |wells| ==> TickReady(wells[i], now)
    ensures |r| == |wells|
    ensures forall i :: 0 <= i < |wells| ==> r[i] == UpdateWell(wells[i], draws[i], now)
  {
    seq(|wells|, i requires 0 <= i < |wells| => UpdateWell(wells[i], draws[i], now))
  }

  // ---------------------------------------------------------------------------
  // Properties of the tick

  /** The depth the tick appended to the depth log (unrounded). */
  function LastDepth(u: WellDrillingData): real
    requires |u.depthLog.depth| > 0
  {
    u.depthLog.depth[|u.depthLog.depth| - 1]
  }

  /** After an append the depth log is in step, one longer up to 96, and ends with the new sample. */
  lemma AppendDepthLogEnds(log: DepthLog, depth: real, now: int)
    requires DepthLogInStep(log)
    ensures var r := AppendDepthLog(log, depth, now);
      && DepthLogInStep(r) && |r.depth| == MinNat(|log.depth| + 1, LogWindow)
      && r.depth[|r.depth| - 1] == depth && r.timestamp[|r.timestamp| - 1] == now
  {
  }

  /** After an append a parameter log is in step, one longer up to 96, and ends with the new sample. */
  lemma AppendParameterLogEnds(log: ParameterLog, value: real, depth: real, now: int)
    requires ParameterLogInStep(log)
    ensures var r := AppendParameterLog(log, value, depth, now);
      && ParameterLogInStep(r) && |r.values| == MinNat(|log.values| + 1, LogWindow)
      && r.depth[|r.depth| - 1] == depth && r.timestamp[|r.timestamp| - 1] == now
      && r.values[|r.values| - 1] == value
  {
  }

  /**
   * A drilling well goes 0.1 to 0.4 m deeper (before rounding); the displayed depth is that
   * depth to one decimal, and it strictly increases; elapsed time gains and remaining time
   * loses one minute, up to two-decimal rounding.
   */
  lemma DrillingTickAdvances(w: WellDrillingData, d: WellDraws, now: int)
    requires w.status == Drilling && TickReady(w, now) && IsDraw(d.depth) && DepthLogInStep(w.depthLog)
    ensures var u := UpdateWell(w, d, now);
      && |u.depthLog.depth| > 0
      && 0.1 <= LastDepth(u) - w.currentDepth < 0.4
      && u.currentDepth == Round1(LastDepth(u))
      && IsTenths(u.currentDepth)
      && (IsTenths(w.currentDepth) ==> u.currentDepth > w.currentDepth)
      && w.elapsedTime + TickHours - 0.005 < u.elapsedTime <= w.elapsedTime + TickHours + 0.005
      && w.remainingTime - TickHours - 0.005 < u.remainingTime <= w.remainingTime - TickHours + 0.005
      && u.status == Drilling
  {
    var newDepth := NewDepth(w, d);
    AppendDepthLogWindow(w.depthLog, newDepth, now);
    Round1IsTenths(newDepth);
    if IsTenths(w.currentDepth) {
      Round1KeepsTenths(w.currentDepth);
      Round1Separates(w.currentDepth - 0.05, newDepth);
      Round1Monotone(w.currentDepth - 0.05, w.currentDepth);
      Round1OfTenthsBelow(w.currentDepth);
    }
  }

  /** Rounding a value 0.05 below a one-decimal value lands on one tenth below it. */
  lemma Round1OfTenthsBelow(x: real)
    requires IsTenths(x)
    ensures Round1(x - 0.05) == x
  {
    var k := (x * 10.0).Floor;
    assert (x - 0.05) * 10.0 + 0.5 == k as real;
  }

  /** The tick copies every channel and field it does not list. */
  lemma DrillingTickCopiesUntouched(w: WellDrillingData, d: WellDraws, now: int)
    requires TickReady(w, now)
    ensures var u := UpdateWell(w, d, now);
      && u.wellId == w.wellId && u.wellName == w.wellName && u.status == w.status
      && u.targetDepth == w.targetDepth && u.startDate == w.startDate
      && u.estimatedCompletionDate == w.estimatedCompletionDate
      && u.mudDensity == w.mudDensity && u.mudViscosity == w.mudViscosity
      && u.casingPressure == w.casingPressure
      && u.directionalData == w.directionalData && u.formationData == w.formationData
      && u.bitType == w.bitType && u.bitSize == w.bitSize
      && u.bitTotalFootage == w.bitTotalFootage && u.bitHours == w.bitHours
      && u.fluidType == w.fluidType && u.fluidPH == w.fluidPH
      && u.fluidSolidsContent == w.fluidSolidsContent
  {
  }

  /**
   * The ROP channel is driven by the depth rate alone: its value is the estimate (not
   * clamped), it is stamped `now`, and every other field is left as it was.
   */
  lemma DrillingTickRop(w: WellDrillingData, d: WellDraws, now: int)
    requires w.status == Drilling && TickReady(w, now) && DepthLogInStep(w.depthLog)
    ensures var u := UpdateWell(w, d, now);
      && |u.depthLog.depth| > 0
      && LastDepth(u) == NewDepth(w, d)
      && u.rop.value == RopEstimate(w.depthLog, NewDepth(w, d), now)
      && u.rop == w.rop.(value := RopEstimate(w.depthLog, NewDepth(w, d), now), timestamp := now)
  {
    var newDepth := NewDepth(w, d);
    AppendDepthLogEnds(w.depthLog, newDepth, now);
  }

  /** Every refreshed channel stores its clamped nudge to cents, classified by the band rule and pushed to its trend. */
  predicate Refreshed(before: DrillingSensor, after: DrillingSensor, r: real, now: int) {
    && after == before.(value := after.value, status := after.status, timestamp := now, trend := after.trend)
    && after.value == Round2(DrillingPerturbed(before, r))
    && after.status == Classify(DrillingPerturbed(before, r), before.min, before.max)
    && (before.min <= before.max ==> Round2(before.min) <= after.value <= Round2(before.max))
    && after.trend == PushTrend(before.trend, after.value)
  }

  lemma DrillingTickRefreshesChannels(w: WellDrillingData, d: WellDraws, now: int)
    requires w.status == Drilling && TickReady(w, now)
    ensures var u := UpdateWell(w, d, now);
      && Refreshed(w.wob, u.wob, d.wob, now)
      && Refreshed(w.torque, u.torque, d.torque, now)
      && Refreshed(w.rpm, u.rpm, d.rpm, now)
      && Refreshed(w.mudFlowRate, u.mudFlowRate, d.mudFlowRate, now)
      && Refreshed(w.mudTemperature, u.mudTemperature, d.mudTemperature, now)
      && Refreshed(w.downholePressure, u.downholePressure, d.downholePressure, now)
      && Refreshed(w.annularPressure, u.annularPressure, d.annularPressure, now)
      && Refreshed(w.standpipePressure, u.standpipePressure, d.standpipePressure, now)
      && Refreshed(w.hookLoad, u.hookLoad, d.hookLoad, now)
      && Refreshed(w.blockPosition, u.blockPosition, d.blockPosition, now)
      && Refreshed(w.pumpRate, u.pumpRate, d.pumpRate, now)
      && Refreshed(w.axialVibration, u.axialVibration, d.axialVibration, now)
      && Refreshed(w.lateralVibration, u.lateralVibration, d.lateralVibration, now)
      && Refreshed(w.torsionalVibration, u.torsionalVibration, d.torsionalVibration, now)
      && Refreshed(w.methaneLevel, u.methaneLevel, d.methaneLevel, now)
      && Refreshed(w.hydrogenSulfideLevel, u.hydrogenSulfideLevel, d.hydrogenSulfideLevel, now)
  {
  }

  /** All five logs of a well hold `n` points in each of their arrays. */
  predicate LogsInStep(w: WellDrillingData, n: nat) {
    && |w.depthLog.depth| == n && DepthLogInStep(w.depthLog)
    && |w.ropLog.values| == n && ParameterLogInStep(w.ropLog)
    && |w.wobLog.values| == n && ParameterLogInStep(w.wobLog)
    && |w.torqueLog.values| == n && ParameterLogInStep(w.torqueLog)
    && |w.rpmLog.values| == n && ParameterLogInStep(w.rpmLog)
  }

  /** The last sample of a parameter log. */
  predicate EndsWith(log: ParameterLog, value: real, depth: real, now: int) {
    && |log.values| > 0 && |log.depth| > 0 && |log.timestamp| > 0
    && log.values[|log.values| - 1] == value
    && log.depth[|log.depth| - 1] == depth
    && log.timestamp[|log.timestamp| - 1] == now
  }

  /** How the tick changes a well's five logs: each gains the sample of the new depth at `now`. */
  predicate LogsTicked(w: WellDrillingData, u: WellDrillingData, d: WellDraws, now: int) {
    && u.depthLog == AppendDepthLog(w.depthLog, NewDepth(w, d), now)
    && u.ropLog == AppendParameterLog(w.ropLog, u.rop.value, NewDepth(w, d), now)
    && u.wobLog == AppendParameterLog(w.wobLog, WobSample(w, d), NewDepth(w, d), now)
    && u.torqueLog == AppendParameterLog(w.torqueLog, TorqueSample(w, d), NewDepth(w, d), now)
    && u.rpmLog == AppendParameterLog(w.rpmLog, RpmSample(w, d), NewDepth(w, d), now)
  }

  /** Logs that were in step at `n` points are in step at min(n + 1, 96) and end with the new samples. */
  lemma LogsTickedInStep(w: WellDrillingData, u: WellDrillingData, d: WellDraws, now: int, n: nat)
    requires LogsInStep(w, n) && LogsTicked(w, u, d, now)
    ensures LogsInStep(u, MinNat(n + 1, LogWindow))
    ensures u.depthLog.depth[|u.depthLog.depth| - 1] == NewDepth(w, d)
    ensures u.depthLog.timestamp[|u.depthLog.timestamp| - 1] == now
    ensures EndsWith(u.ropLog, u.rop.value, NewDepth(w, d), now)
    ensures EndsWith(u.wobLog, WobSample(w, d), NewDepth(w, d), now)
    ensures EndsWith(u.torqueLog, TorqueSample(w, d), NewDepth(w, d), now)
    ensures EndsWith(u.rpmLog, RpmSample(w, d), NewDepth(w, d), now)
  {
    AppendDepthLogEnds(w.depthLog, NewDepth(w, d), now);
    AppendParameterLogEnds(w.ropLog, u.rop.value, NewDepth(w, d), now);
    AppendParameterLogEnds(w.wobLog, WobSample(w, d), NewDepth(w, d), now);
    AppendParameterLogEnds(w.torqueLog, TorqueSample(w, d), NewDepth(w, d), now);
    AppendParameterLogEnds(w.rpmLog, RpmSample(w, d), NewDepth(w, d), now);
  }

  /** The tick changes the logs of a drilling well as `LogsTicked` says. */
  lemma DrillingTickLogs(w: WellDrillingData, d: WellDraws, now: int)
    requires w.status == Drilling && TickReady(w, now)
    ensures LogsTicked(w, UpdateWell(w, d, now), d, now)
  {
  }

  /**
   * The five logs move in lock-step: from n points each they go to min(n + 1, 96) points
   * each, and every log ends with the new depth, at `now`, with the channel's new sample.
   */
  lemma DrillingTickLogsInStep(w: WellDrillingData, d: WellDraws, now: int, n: nat)
    requires w.status == Drilling && TickReady(w, now) && LogsInStep(w, n)
    ensures var u := UpdateWell(w, d, now);
      && LogsInStep(u, MinNat(n + 1, LogWindow))
      && u.depthLog.depth[|u.depthLog.depth| - 1] == NewDepth(w, d)
      && u.depthLog.timestamp[|u.depthLog.timestamp| - 1] == now
      && EndsWith(u.ropLog, u.rop.value, NewDepth(w, d), now)
      && EndsWith(u.wobLog, WobSample(w, d), NewDepth(w, d), now)
      && EndsWith(u.torqueLog, TorqueSample(w, d), NewDepth(w, d), now)
      && EndsWith(u.rpmLog, RpmSample(w, d), NewDepth(w, d), now)
  {
    DrillingTickLogs(w, d, now);
    LogsTickedInStep(w, UpdateWell(w, d, now), d, now, n);
  }

  /** After a tick at `now`, the well can tick again at any other time. */
  lemma DrillingTickStaysReady(w: WellDrillingData, d: WellDraws, now: int, later: int)
    requires w.status == Drilling && TickReady(w, now) && DepthLogInStep(w.depthLog)
    ensures TickReady(UpdateWell(w, d, now), later) <==> later != now
  {
    AppendDepthLogWindow(w.depthLog, NewDepth(w, d), now);
  }
}
