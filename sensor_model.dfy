/**
 * The sensor health rule shared by both mock generators: a value is clamped into its
 * `[min, max]` range and classified by how close it sits to either end of that range.
 * Also the JavaScript rounding the generators apply before storing a value.
 */
module SensorModel {

  datatype SensorStatus = Normal | Warning | Critical

  /** A `Math.random()` draw. */
  predicate IsDraw(r: real) {
    0.0 <= r < 1.0
  }

  /** Fraction of the range, from each end, that counts as critical. */
  const CriticalBand: real := 0.05
  /** Fraction of the range, from each end, that counts as warning (or worse). */
  const WarningBand: real := 0.15

  /** A draw scales a non-negative width to somewhere in `[0, width]`. */
  lemma ScaleByDraw(r: real, width: real)
    requires IsDraw(r) && width >= 0.0
    ensures 0.0 <= r * width <= width
  {
    MulNonNegative(r, width);
    MulNonNegative(1.0 - r, width);
    assert (1.0 - r) * width == width - r * width;
  }

  /** A draw centred on 0 scales a non-negative width to somewhere in `[-width/2, width/2]`. */
  lemma CenteredDraw(r: real, width: real)
    requires IsDraw(r) && width >= 0.0
    ensures -width / 2.0 <= (r - 0.5) * width <= width / 2.0
  {
    ScaleByDraw(r, width);
    assert (r - 0.5) * width == r * width - 0.5 * width;
  }

  lemma MulNonNegative(a: real, b: real)
    requires a >= 0.0 && b >= 0.0
    ensures a * b >= 0.0
  {
  }

  // ---------------------------------------------------------------------------
  // Rounding

  /** `Math.round`: the nearest integer, halves rounded towards +infinity. */
  function JsRound(x: real): (n: int)
    ensures x - 0.5 < n as real <= x + 0.5
  {
    (x + 0.5).Floor
  }

  /** `Math.round(x * 100) / 100`. */
  function Round2(x: real): (y: real)
    ensures x - 0.005 < y <= x + 0.005
  {
    JsRound(x * 100.0) as real / 100.0
  }

  /** `Math.round(x * 10) / 10`. */
  function Round1(x: real): (y: real)
    ensures x - 0.05 < y <= x + 0.05
  {
    JsRound(x * 10.0) as real / 10.0
  }

  /** `Math.round(x)` as a number. */
  function Round0(x: real): (y: real)
    ensures x - 0.5 < y <= x + 0.5
  {
    JsRound(x) as real
  }

  /** A number with at most two decimals, which `Round2` leaves alone. */
  predicate IsCents(x: real) {
    (x * 100.0).Floor as real == x * 100.0
  }

  /** A number with at most one decimal, which `Round1` leaves alone. */
  predicate IsTenths(x: real) {
    (x * 10.0).Floor as real == x * 10.0
  }

  lemma JsRoundMonotone(x: real, y: real)
    requires x <= y
    ensures JsRound(x) <= JsRound(y)
  {
    assert x + 0.5 <= y + 0.5;
  }

  /** Two arguments at least 1 apart round to different integers, in the same order. */
  lemma JsRoundSeparates(x: real, y: real)
    requires x + 1.0 <= y
    ensures JsRound(x) < JsRound(y)
  {
  }

  lemma JsRoundInteger(k: int)
    ensures JsRound(k as real) == k
  {
  }

  lemma Round2Monotone(x: real, y: real)
    requires x <= y
    ensures Round2(x) <= Round2(y)
  {
    JsRoundMonotone(x * 100.0, y * 100.0);
  }

  lemma Round1Monotone(x: real, y: real)
    requires x <= y
    ensures Round1(x) <= Round1(y)
  {
    JsRoundMonotone(x * 10.0, y * 10.0);
  }

  lemma Round2KeepsCents(x: real)
    requires IsCents(x)
    ensures Round2(x) == x
  {
    JsRoundInteger((x * 100.0).Floor);
  }

  lemma Round1KeepsTenths(x: real)
    requires IsTenths(x)
    ensures Round1(x) == x
  {
    JsRoundInteger((x * 10.0).Floor);
  }

  /** Whatever `Round1` returns has at most one decimal. */
  lemma Round1IsTenths(x: real)
    ensures IsTenths(Round1(x))
  {
    var k := JsRound(x * 10.0);
    assert Round1(x) * 10.0 == k as real;
  }

  /** Values at least 0.1 apart stay strictly ordered after rounding to one decimal. */
  lemma Round1Separates(x: real, y: real)
    requires x + 0.1 <= y
    ensures Round1(x) < Round1(y)
  {
    JsRoundSeparates(x * 10.0, y * 10.0);
  }

  /** A value rounded to two decimals inside a range stays inside the rounded range. */
  lemma Round2InRange(x: real, lo: real, hi: real)
    ensures lo <= x <= hi ==> Round2(lo) <= Round2(x) <= Round2(hi)
  {
    if lo <= x <= hi {
      Round2Monotone(lo, x);
      Round2Monotone(x, hi);
    }
  }

  // ---------------------------------------------------------------------------
  // Clamping and classification

  /** `Math.max(lo, Math.min(hi, v))`. */
  function Clamp(v: real, lo: real, hi: real): (c: real)
    ensures lo <= hi ==> lo <= c <= hi
    ensures lo <= v <= hi ==> c == v
    ensures lo <= hi && v < lo ==> c == lo
    ensures lo <= hi && hi < v ==> c == hi
    ensures hi < lo ==> c == lo
  {
    var upper := if v < hi then v else hi;
    if upper > lo then upper else lo
  }

  /** Clamping a nudged in-range value moves it no further from where it started than the nudge. */
  lemma ClampStaysNear(v: real, d: real, lo: real, hi: real, bound: real)
    requires lo <= v <= hi && -bound <= d <= bound
    ensures -bound <= Clamp(v + d, lo, hi) - v <= bound
  {
  }

  /**
   * The band rule: critical within 5% of the range from either end, warning within 15%,
   * normal otherwise (the comparisons are inclusive).
   */
  function Classify(value: real, lo: real, hi: real): (st: SensorStatus)
    ensures value == lo || value == hi ==> st == Critical
    ensures lo < hi && value == (lo + hi) / 2.0 ==> st == Normal
  {
    var range := hi - lo;
    var lowerWarning := lo + range * WarningBand;
    var upperWarning := hi - range * WarningBand;
    var lowerCritical := lo + range * CriticalBand;
    var upperCritical := hi - range * CriticalBand;
    if value <= lowerCritical || value >= upperCritical then Critical
    else if value <= lowerWarning || value >= upperWarning then Warning
    else Normal
  }

  /** How far `value` lies from the nearer end of `[lo, hi]` (negative outside the range). */
  function EdgeDistance(value: real, lo: real, hi: real): real {
    if value - lo <= hi - value then value - lo else hi - value
  }

  /** The band a distance from the nearer end falls into, for a range of width `range`. */
  function BandOf(distance: real, range: real): SensorStatus {
    if distance <= range * CriticalBand then Critical
    else if distance <= range * WarningBand then Warning
    else Normal
  }

  /**
   * The status is determined by the distance to the nearer end of the range alone:
   * critical iff that distance is at most 5% of the range, warning iff it is more than
   * 5% but at most 15%, normal otherwise.
   */
  lemma ClassifyByEdgeDistance(value: real, lo: real, hi: real)
    ensures Classify(value, lo, hi) == BandOf(EdgeDistance(value, lo, hi), hi - lo)
  {
  }

  /** The rule treats both ends alike: mirrored values get the same status. */
  lemma ClassifyMirror(d: real, lo: real, hi: real)
    ensures Classify(lo + d, lo, hi) == Classify(hi - d, lo, hi)
  {
    ClassifyByEdgeDistance(lo + d, lo, hi);
    ClassifyByEdgeDistance(hi - d, lo, hi);
  }

  /** An empty range (`min == max`) always classifies as critical. */
  lemma ClassifyEmptyRange(value: real, bound: real)
    ensures Classify(value, bound, bound) == Critical
  {
  }

  /** The status only gets better, never worse, as the value moves in from the low end to the middle. */
  lemma ClassifyImprovesTowardsMiddle(v: real, w: real, lo: real, hi: real)
    requires lo <= hi
    requires v <= w <= (lo + hi) / 2.0
    ensures Classify(v, lo, hi) == Normal ==> Classify(w, lo, hi) == Normal
    ensures Classify(w, lo, hi) == Critical ==> Classify(v, lo, hi) == Critical
  {
  }

  /** Sensor at 50 on [0, 100] is normal; at 4 it is critical; at 12 it is warning. */
  lemma ClassifyExamples()
    ensures Classify(50.0, 0.0, 100.0) == Normal
    ensures Classify(4.0, 0.0, 100.0) == Critical
    ensures Classify(12.0, 0.0, 100.0) == Warning
    ensures Classify(95.0, 0.0, 100.0) == Critical
    ensures Classify(85.0, 0.0, 100.0) == Warning
  {
  }
}
