/**
 * The `formatTime` helper written out identically in the calls dashboard
 * (`src/app/dashboard/calls/page.tsx`) and the audit log
 * (`src/app/admin/audit/page.tsx`): the age of a timestamp as "Just now",
 * whole minutes, whole hours, or, from one day on, the date itself. The
 * pages differ only in how they print that date, which is an input here.
 */
module RelativeTime {
  import opened Strings

  const MinuteMs := 60000
  const HourMs := 3600000
  const DayMs := 86400000

  datatype Age = JustNow | MinutesAgo(minutes: nat) | HoursAgo(hours: nat) | Absolute

  /** The thresholds of `formatTime` on `diff = now - then` in milliseconds, with floor division. */
  function Classify(diffMs: int): (a: Age)
    ensures a == JustNow <==> diffMs < MinuteMs
    ensures a.MinutesAgo? <==> MinuteMs <= diffMs < HourMs
    ensures a.HoursAgo? <==> HourMs <= diffMs < DayMs
    ensures a == Absolute <==> DayMs <= diffMs
    ensures a.MinutesAgo? ==> 1 <= a.minutes < 60 && a.minutes * MinuteMs <= diffMs < (a.minutes + 1) * MinuteMs
    ensures a.HoursAgo? ==> 1 <= a.hours < 24 && a.hours * HourMs <= diffMs < (a.hours + 1) * HourMs
  {
    if diffMs < MinuteMs then JustNow
    else if diffMs < HourMs then MinutesAgo(diffMs / MinuteMs)
    else if diffMs < DayMs then HoursAgo(diffMs / HourMs)
    else Absolute
  }

  /** The text shown: `${n}m ago`, `${n}h ago`, or the page's own date rendering. */
  function Render(a: Age, dateText: string): string {
    match a
    case JustNow => "Just now"
    case MinutesAgo(n) => NatToString(n) + "m ago"
    case HoursAgo(n) => NatToString(n) + "h ago"
    case Absolute => dateText
  }

  function FormatTime(nowMs: int, thenMs: int, dateText: string): string {
    Render(Classify(nowMs - thenMs), dateText)
  }

  /** How coarse a label is; a larger age never gets a finer label. */
  function Coarseness(a: Age): (c: nat)
    ensures c <= 3
  {
    match a
    case JustNow => 0
    case MinutesAgo(_) => 1
    case HoursAgo(_) => 2
    case Absolute => 3
  }

  /** Labels never go back as time passes: coarser or the same, and a larger count within a unit. */
  lemma ClassifyMonotone(d1: int, d2: int)
    requires d1 <= d2
    ensures Coarseness(Classify(d1)) <= Coarseness(Classify(d2))
    ensures Classify(d1).MinutesAgo? && Classify(d2).MinutesAgo? ==> Classify(d1).minutes <= Classify(d2).minutes
    ensures Classify(d1).HoursAgo? && Classify(d2).HoursAgo? ==> Classify(d1).hours <= Classify(d2).hours
  {
  }

  /** The minute count can be read back from the text: `${n}m ago` carries exactly n. */
  lemma MinutesTextReadsBack(diffMs: int, dateText: string)
    requires MinuteMs <= diffMs < HourMs
    ensures var t := Render(Classify(diffMs), dateText);
      var n := Classify(diffMs).minutes;
      |t| > 5 && t[|t| - 5..] == "m ago" && AllDigits(t[..|t| - 5]) && ParseNat(t[..|t| - 5]) == n
  {
    var n := Classify(diffMs).minutes;
    var t := Render(Classify(diffMs), dateText);
    assert t[..|t| - 5] == NatToString(n);
    assert t[|t| - 5..] == "m ago";
    ParseNatToString(n);
  }

  lemma FormatTimeExamples(now: int, date: string)
    ensures FormatTime(now, now, date) == "Just now"
    ensures FormatTime(now, now + 5000, date) == "Just now"
    ensures FormatTime(now, now - 59999, date) == "Just now"
    ensures Classify(90000) == MinutesAgo(1)
    ensures Classify(HourMs) == HoursAgo(1)
    ensures FormatTime(now, now - DayMs, date) == date
  {
  }
}
