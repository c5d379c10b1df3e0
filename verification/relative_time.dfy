/** Instants as integer milliseconds since the epoch, and the relative-age
    label the display client shows for each sale (`formatTimeForTrmnl`). */
module RelativeTime {
  import opened Wrappers
  import opened Text

  const MsPerMinute: int := 60000
  const MsPerHour: int := 3600000
  const MsPerDay: int := 86400000

  /** The largest distance from the epoch, in ms, a JavaScript Date can hold;
      beyond it the Date is invalid (TimeClip in the ECMAScript standard). */
  const MaxTimeValue: int := 8_640_000_000_000_000

  /** `new Date(ms)` for an integral `ms`: the instant, or None for an
      Invalid Date. */
  function DateFromMs(ms: int): Option<int> {
    if -MaxTimeValue <= ms <= MaxTimeValue then Some(ms) else None
  }

  /** `Math.floor(a / d)` for a positive divisor: the greatest `q` with
      `q * d <= a`, also for negative `a`. */
  function FloorDiv(a: int, d: int): (q: int)
    requires d > 0
    ensures q * d <= a < q * d + d
  {
    a / d
  }

  /** How the platform renders absolute times: `hourMinute` is
      `toLocaleTimeString([], {hour: '2-digit', minute: '2-digit'})` and
      `timeOfDay` is `toLocaleTimeString()`, both of a valid instant. */
  datatype TimeLocale = TimeLocale(hourMinute: int -> string, timeOfDay: int -> string)

  /** Which of the formatter's branches an age falls in. */
  datatype Age =
    | MinutesAgo(minutes: int)
    | HoursAgo(hours: int)
    | AtClock(instant: int)
    | InvalidDate

  /** The branch `formatTimeForTrmnl` takes for `time` seen at `now`. An
      Invalid Date makes both comparisons false (they compare NaN), so it
      falls through to the absolute-time branch. */
  function Classify(now: int, time: Option<int>): Age {
    match time
    case None => InvalidDate
    case Some(t) =>
      var diffMs := now - t;
      var diffMins := FloorDiv(diffMs, MsPerMinute);
      var diffHours := FloorDiv(diffMs, MsPerHour);
      if diffMins < 60 then MinutesAgo(diffMins)
      else if diffHours < 24 then HoursAgo(diffHours)
      else AtClock(t)
  }

  const MinutesSuffix := "m ago"
  const HoursSuffix := "h ago"
  /** What `toLocaleTimeString` returns for an Invalid Date. */
  const InvalidDateText := "Invalid Date"

  function Render(age: Age, hourMinute: int -> string): string {
    match age
    case MinutesAgo(m) => IntToString(m) + MinutesSuffix
    case HoursAgo(h) => IntToString(h) + HoursSuffix
    case AtClock(t) => hourMinute(t)
    case InvalidDate => InvalidDateText
  }

  /** Reads the count in front of a relative label such as "42m ago". */
  function LabelCount(s: string, suffix: string): Option<int> {
    if EndsWith(s, suffix) then ParseInt(s[..|s| - |suffix|]) else None
  }

  /** `formatTimeForTrmnl(date)` evaluated at instant `now`. The label reads
      back as the whole minutes (under an hour, including the future) or the
      whole hours (under a day) elapsed; older sales show the clock time. */
  function FormatTimeForTrmnl(now: int, time: Option<int>, hourMinute: int -> string): (r: string)
    ensures time.None? ==> r == InvalidDateText
    ensures time.Some? && now - time.value < MsPerHour ==>
      LabelCount(r, MinutesSuffix) == Some(FloorDiv(now - time.value, MsPerMinute))
    ensures time.Some? && MsPerHour <= now - time.value < MsPerDay ==>
      LabelCount(r, HoursSuffix) == Some(FloorDiv(now - time.value, MsPerHour))
    ensures time.Some? && MsPerDay <= now - time.value ==> r == hourMinute(time.value)
  {
    var age := Classify(now, time);
    match age
    case MinutesAgo(m) =>
      LabelReadsBack(m, MinutesSuffix);
      Render(age, hourMinute)
    case HoursAgo(h) =>
      LabelReadsBack(h, HoursSuffix);
      Render(age, hourMinute)
    case _ => Render(age, hourMinute)
  }

  lemma LabelReadsBack(n: int, suffix: string)
    ensures LabelCount(IntToString(n) + suffix, suffix) == Some(n)
  {
    var s := IntToString(n) + suffix;
    assert s[|s| - |suffix|..] == suffix;
    assert s[..|s| - |suffix|] == IntToString(n);
    IntRoundTrip(n);
  }

  /** Exactly one branch fires, and which one is fixed by the elapsed time
      alone: a label of n minutes means n whole minutes have passed and less
      than an hour; n hours means n whole hours and less than a day;
      otherwise at least a day has passed. */
  lemma ClassifyByElapsed(now: int, t: int, n: int)
    ensures Classify(now, Some(t)) == MinutesAgo(n) <==>
      now - t < MsPerHour && n * MsPerMinute <= now - t < n * MsPerMinute + MsPerMinute
    ensures Classify(now, Some(t)) == HoursAgo(n) <==>
      MsPerHour <= now - t < MsPerDay && n * MsPerHour <= now - t < n * MsPerHour + MsPerHour
    ensures Classify(now, Some(t)).AtClock? <==> MsPerDay <= now - t
    ensures Classify(now, Some(t)).AtClock? ==> Classify(now, Some(t)).instant == t
  {
  }

  /** A sale between one and twenty-four whole hours old is labelled with
      exactly that many hours. */
  lemma HoursLabel(now: int, t: int, h: int, hourMinute: int -> string)
    requires 1 <= h < 24
    requires h * MsPerHour <= now - t < h * MsPerHour + MsPerHour
    ensures FormatTimeForTrmnl(now, Some(t), hourMinute) == IntToString(h) + HoursSuffix
  {
  }

  /** Worked examples: five minutes ago and ninety minutes ago. */
  lemma FormatExamples(now: int, hourMinute: int -> string)
    ensures FormatTimeForTrmnl(now, Some(now - 5 * MsPerMinute), hourMinute) == "5m ago"
    ensures FormatTimeForTrmnl(now, Some(now - 90 * MsPerMinute), hourMinute) == "1h ago"
  {
    ClassifyByElapsed(now, now - 5 * MsPerMinute, 5);
    assert IntToString(5) == "5";
    ClassifyByElapsed(now, now - 90 * MsPerMinute, 1);
    assert IntToString(1) == "1";
  }

  /** Edge examples: thirty hours ago shows the clock, one millisecond in
      the future floors to -1 minute, and an Invalid Date prints as such. */
  lemma FormatEdgeExamples(now: int, hourMinute: int -> string)
    ensures FormatTimeForTrmnl(now, Some(now - 30 * MsPerHour), hourMinute) == hourMinute(now - 30 * MsPerHour)
    ensures FormatTimeForTrmnl(now, Some(now + 1), hourMinute) == "-1m ago"
    ensures FormatTimeForTrmnl(now, None, hourMinute) == "Invalid Date"
  {
    ClassifyByElapsed(now, now - 30 * MsPerHour, 0);
    ClassifyByElapsed(now, now + 1, -1);
    assert IntToString(-1) == "-" + "1";
  }
}
