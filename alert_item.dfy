/**
 * The alert row's two pieces of logic: how long ago an alert was raised, bucketed into
 * minutes, hours or days by nested floor divisions, and the status colour of an alert type.
 */
module AlertItem {
  import opened RigTypes

  const MinuteMs: int := 60000
  const HourMs: int := 60 * MinuteMs
  const DayMs: int := 24 * HourMs

  /** The four shapes of the relative-time text. */
  datatype RelativeTime = JustNow | MinutesAgo(minutes: nat) | HoursAgo(hours: nat) | DaysAgo(days: nat)

  /**
   * The bucket for an age of `diffMs` milliseconds: whole minutes below one (including
   * future timestamps) are "just now", then minutes below 60, hours below 24, else days.
   */
  function RelativeTimeOf(diffMs: int): (r: RelativeTime)
    ensures r == JustNow <==> diffMs < MinuteMs
    ensures r.MinutesAgo? <==> MinuteMs <= diffMs < HourMs
    ensures r.HoursAgo? <==> HourMs <= diffMs < DayMs
    ensures r.DaysAgo? <==> DayMs <= diffMs
  {
    var diffMins := diffMs / 60000;
    if diffMins < 1 then JustNow
    else if diffMins < 60 then MinutesAgo(diffMins)
    else
      var diffHours := diffMins / 60;
      if diffHours < 24 then HoursAgo(diffHours)
      else
        var diffDays := diffHours / 24;
        DaysAgo(diffDays)
  }

  /** Each bucket counts whole units of its own size: the nested floors equal one floor. */
  lemma RelativeTimeCounts(diffMs: int)
    ensures var r := RelativeTimeOf(diffMs);
      && (r.MinutesAgo? ==> r.minutes == diffMs / MinuteMs && 1 <= r.minutes < 60)
      && (r.HoursAgo? ==> r.hours == diffMs / HourMs && 1 <= r.hours < 24)
      && (r.DaysAgo? ==> r.days == diffMs / DayMs && r.days >= 1)
  {
    if diffMs >= HourMs {
      NestedFloor(diffMs, 60000, 60);
      if diffMs >= DayMs {
        NestedFloor(diffMs, 3600000, 24);
        NestedFloor(diffMs / 60000, 60, 24);
      }
    }
  }

  /** For a non-negative count, dividing by `a` and then by `b` is dividing by `a * b`. */
  lemma NestedFloor(x: int, a: int, b: int)
    requires x >= 0 && a > 0 && b > 0
    ensures x / a / b == x / (a * b)
  {
    var q := x / a;
    var r := x % a;
    var q2 := q / b;
    var r2 := q % b;
    assert x == a * q + r;
    assert q == b * q2 + r2;
    assert x == (a * b) * q2 + (a * r2 + r) by {
      assert a * q == a * (b * q2 + r2);
      assert a * (b * q2 + r2) == (a * b) * q2 + a * r2;
    }
    assert 0 <= a * r2 + r < a * b by {
      assert a * r2 <= a * (b - 1) by {
        MulMonotone(a, r2, b - 1);
      }
      assert a * (b - 1) == a * b - a;
    }
    DivUnique(x, a * b, q2, a * r2 + r);
  }

  lemma MulMonotone(a: int, x: int, y: int)
    requires a >= 0 && x <= y
    ensures a * x <= a * y
  {
    assert a * y - a * x == a * (y - x);
  }

  /** Euclidean division is the unique quotient with a remainder in `[0, d)`. */
  lemma DivUnique(x: int, d: int, q: int, r: int)
    requires d > 0 && x == d * q + r && 0 <= r < d
    ensures x / d == q
  {
    var q0 := x / d;
    var r0 := x % d;
    assert x == d * q0 + r0;
    if q0 < q {
      MulMonotone(d, q0 + 1, q);
    } else if q0 > q {
      MulMonotone(d, q + 1, q0);
    }
  }

  /** The decimal digits of `n`, most significant first. */
  function NatToString(n: nat): (s: string)
    ensures |s| >= 1
    ensures forall i :: 0 <= i < |s| ==> '0' <= s[i] <= '9'
    decreases n
  {
    var digit := ['0' + (n % 10) as char];
    if n < 10 then digit else NatToString(n / 10) + digit
  }

  /** Reads a string of decimal digits back as a number. */
  function ParseDigits(s: string): nat
    requires forall i :: 0 <= i < |s| ==> '0' <= s[i] <= '9'
  {
    if |s| == 0 then 0 else ParseDigits(s[..|s| - 1]) * 10 + (s[|s| - 1] - '0') as nat
  }

  /** The rendered number reads back as the number. */
  lemma {:induction false} ParseNatToString(n: nat)
    ensures ParseDigits(NatToString(n)) == n
    decreases n
  {
    var s := NatToString(n);
    if n >= 10 {
      ParseNatToString(n / 10);
      assert s[..|s| - 1] == NatToString(n / 10);
    }
  }

  /** The text shown for a bucket. */
  function Render(r: RelativeTime): string {
    match r
    case JustNow => "Just now"
    case MinutesAgo(m) => NatToString(m) + "m ago"
    case HoursAgo(h) => NatToString(h) + "h ago"
    case DaysAgo(d) => NatToString(d) + "d ago"
  }

  /** `formatRelativeTime`: the text for an alert raised at `timestamp`, seen at `now`. */
  function FormatRelativeTime(timestamp: int, now: int): string {
    Render(RelativeTimeOf(now - timestamp))
  }

  /** The number a bucket shows. */
  function Count(r: RelativeTime): nat {
    match r
    case JustNow => 0
    case MinutesAgo(m) => m
    case HoursAgo(h) => h
    case DaysAgo(d) => d
  }

  /** The unit letter a bucket shows. */
  function Unit(r: RelativeTime): char {
    match r
    case JustNow => ' '
    case MinutesAgo(_) => 'm'
    case HoursAgo(_) => 'h'
    case DaysAgo(_) => 'd'
  }

  /** The bucket can be read back from the text: its count from the digits, then its unit letter. */
  lemma RenderReadsBack(r: RelativeTime)
    requires !r.JustNow?
    ensures var s := Render(r);
      && |s| >= 6 && s[|s| - 5..] == [Unit(r)] + " ago"
      && (forall i :: 0 <= i < |s| - 5 ==> '0' <= s[i] <= '9')
      && ParseDigits(s[..|s| - 5]) == Count(r)
  {
    var digits := NatToString(Count(r));
    ParseNatToString(Count(r));
    assert Render(r) == digits + ([Unit(r)] + " ago");
    SuffixSplit(digits, Unit(r));
  }

  lemma SuffixSplit(digits: string, unit: char)
    ensures var s := digits + ([unit] + " ago");
      |s| == |digits| + 5 && s[..|s| - 5] == digits && s[|s| - 5..] == [unit] + " ago"
  {
  }

  /** The minute-to-hour boundary of `formatRelativeTime`: 59 minutes read "59m ago", 60 minutes "1h ago". */
  lemma FormatHourBoundary(now: int)
    ensures FormatRelativeTime(now - 59 * MinuteMs, now) == "59m ago"
    ensures FormatRelativeTime(now - 60 * MinuteMs, now) == "1h ago"
  {
    assert RelativeTimeOf(59 * MinuteMs) == MinutesAgo(59);
    assert RelativeTimeOf(60 * MinuteMs) == HoursAgo(1);
    assert NatToString(59) == NatToString(5) + "9";
  }

  /** The hour-to-day boundary of `formatRelativeTime`: 1439 minutes read "23h ago", 1440 minutes "1d ago". */
  lemma FormatDayBoundary(now: int)
    ensures FormatRelativeTime(now - 1439 * MinuteMs, now) == "23h ago"
    ensures FormatRelativeTime(now - 1440 * MinuteMs, now) == "1d ago"
  {
    assert RelativeTimeOf(1439 * MinuteMs) == HoursAgo(23);
    assert RelativeTimeOf(1440 * MinuteMs) == DaysAgo(1);
    assert NatToString(23) == NatToString(2) + "3";
  }

  /** Less than a whole minute ago, or in the future, is "Just now". */
  lemma FormatJustNow(now: int)
    ensures FormatRelativeTime(now + 5 * MinuteMs, now) == "Just now"
    ensures FormatRelativeTime(now - 59999, now) == "Just now"
  {
  }

  /** The status colours of the palette an alert row uses. */
  datatype StatusColor = DangerColor | WarningColor | InfoColor

  /** `getAlertColor`: critical is danger, warning is warning, info is info. */
  function AlertColor(kind: AlertType): (c: StatusColor)
    ensures c == DangerColor <==> kind == AlertType.Critical
    ensures c == WarningColor <==> kind == AlertType.Warning
    ensures c == InfoColor <==> kind == Info
  {
    match kind
    case Critical => DangerColor
    case Warning => WarningColor
    case Info => InfoColor
  }

  /** The colour identifies the type: distinct types never share a colour. */
  lemma AlertColorInjective(a: AlertType, b: AlertType)
    ensures AlertColor(a) == AlertColor(b) ==> a == b
  {
  }
}
