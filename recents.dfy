// The recents page's relative timestamps and counts. The current time is a
// parameter: `diffMs` is the clock's now minus the record's creation time,
// in milliseconds, and `localeDate` is what toLocaleDateString gives for it.
module Recents {
  import Text

  const MsPerMinute := 60000
  const MsPerHour := 3600000
  const MsPerDay := 86400000

  /** Which branch of formatDate a difference falls in. */
  datatype Age = JustNow | MinutesAgo(m: nat) | HoursAgo(h: nat) | DaysAgo(d: nat) | OnDate

  /** The order of the buckets, from newest to oldest. */
  function Rank(a: Age): nat
  {
    match a
    case JustNow => 0
    case MinutesAgo(_) => 1
    case HoursAgo(_) => 2
    case DaysAgo(_) => 3
    case OnDate => 4
  }

  /** The whole minutes, hours and days, rounded down as Math.floor does:
    * Dafny's division by a positive divisor is already the floor. */
  function Minutes(diffMs: int): int { diffMs / MsPerMinute }
  function Hours(diffMs: int): int { diffMs / MsPerHour }
  function Days(diffMs: int): int { diffMs / MsPerDay }

  /** The tests of formatDate, in their order: the first that holds decides,
    * so a timestamp in the future reads as "Just now". */
  function AgeOf(diffMs: int): (a: Age)
    ensures a == JustNow <==> diffMs < MsPerMinute
    ensures a.MinutesAgo? <==> MsPerMinute <= diffMs < MsPerHour
    ensures a.HoursAgo? <==> MsPerHour <= diffMs < MsPerDay
    ensures a.DaysAgo? <==> MsPerDay <= diffMs < 7 * MsPerDay
    ensures a == OnDate <==> 7 * MsPerDay <= diffMs
    ensures a.MinutesAgo? ==> 1 <= a.m < 60 && a.m * MsPerMinute <= diffMs < (a.m + 1) * MsPerMinute
    ensures a.HoursAgo? ==> 1 <= a.h < 24 && a.h * MsPerHour <= diffMs < (a.h + 1) * MsPerHour
    ensures a.DaysAgo? ==> 1 <= a.d < 7 && a.d * MsPerDay <= diffMs < (a.d + 1) * MsPerDay
  {
    if Minutes(diffMs) < 1 then JustNow
    else if Minutes(diffMs) < 60 then MinutesAgo(Minutes(diffMs))
    else if Hours(diffMs) < 24 then HoursAgo(Hours(diffMs))
    else if Days(diffMs) < 7 then DaysAgo(Days(diffMs))
    else OnDate
  }

  /** formatDate's text. */
  function FormatDate(diffMs: int, localeDate: string): (s: string)
    ensures AgeOf(diffMs) == OnDate ==> s == localeDate
    ensures AgeOf(diffMs).MinutesAgo? ==> s == Text.NatToString(AgeOf(diffMs).m) + "m ago"
    ensures AgeOf(diffMs).HoursAgo? ==> s == Text.NatToString(AgeOf(diffMs).h) + "h ago"
    ensures AgeOf(diffMs).DaysAgo? ==> s == Text.NatToString(AgeOf(diffMs).d) + "d ago"
  {
    match AgeOf(diffMs)
    case JustNow => "Just now"
    case MinutesAgo(m) => Text.NatToString(m) + "m ago"
    case HoursAgo(h) => Text.NatToString(h) + "h ago"
    case DaysAgo(d) => Text.NatToString(d) + "d ago"
    case OnDate => localeDate
  }

  /** An older record never lands in a newer bucket, and within a bucket the
    * count never goes down. */
  lemma AgeMonotone(a: int, b: int)
    requires a <= b
    ensures Rank(AgeOf(a)) <= Rank(AgeOf(b))
    ensures AgeOf(a).MinutesAgo? && AgeOf(b).MinutesAgo? ==> AgeOf(a).m <= AgeOf(b).m
    ensures AgeOf(a).HoursAgo? && AgeOf(b).HoursAgo? ==> AgeOf(a).h <= AgeOf(b).h
    ensures AgeOf(a).DaysAgo? && AgeOf(b).DaysAgo? ==> AgeOf(a).d <= AgeOf(b).d
  {
  }

  /** The edges of the buckets, below the hour. */
  lemma MinuteBoundaries(localeDate: string)
    ensures FormatDate(-1, localeDate) == "Just now"
    ensures FormatDate(59999, localeDate) == "Just now"
    ensures FormatDate(MsPerMinute, localeDate) == "1m ago"
    ensures FormatDate(MsPerHour - 1, localeDate) == "59m ago"
  {
    assert AgeOf(MsPerHour - 1) == MinutesAgo(59);
    assert Text.NatToString(59) == "59";
  }

  /** The edges of the buckets, from the hour on. */
  lemma DayBoundaries(localeDate: string)
    ensures FormatDate(MsPerHour, localeDate) == "1h ago"
    ensures FormatDate(MsPerDay, localeDate) == "1d ago"
    ensures FormatDate(7 * MsPerDay - 1, localeDate) == "6d ago"
    ensures FormatDate(7 * MsPerDay, localeDate) == localeDate
  {
    assert AgeOf(MsPerHour) == HoursAgo(1);
    assert AgeOf(MsPerDay) == DaysAgo(1);
    assert AgeOf(7 * MsPerDay - 1) == DaysAgo(6);
  }

  /** A relative label names its bucket by the letter before " ago", and its
    * number, so two differences with the same label share the bucket and the
    * count. */
  lemma LabelDeterminesAge(x: int, y: int, localeDate: string)
    requires AgeOf(x) != OnDate && AgeOf(y) != OnDate
    requires FormatDate(x, localeDate) == FormatDate(y, localeDate)
    ensures AgeOf(x) == AgeOf(y)
  {
    var ax, ay := AgeOf(x), AgeOf(y);
    RelativeLabel(x, localeDate);
    RelativeLabel(y, localeDate);
    if ax != JustNow && ay != JustNow {
      LabelParts(Number(ax), Unit(ax), Number(ay), Unit(ay));
    }
  }

  /** The label of a relative bucket: "Just now", or the number, the unit
    * letter and " ago". */
  lemma RelativeLabel(x: int, localeDate: string)
    requires AgeOf(x) != OnDate
    ensures var s := FormatDate(x, localeDate);
            && (AgeOf(x) == JustNow ==> s == "Just now")
            && (AgeOf(x) != JustNow ==> s == Text.NatToString(Number(AgeOf(x))) + [Unit(AgeOf(x))] + " ago"
                                         && s[|s| - 1] == 'o')
  {
  }

  /** The number and the unit letter can be read back from a label. */
  lemma LabelParts(n: nat, u: char, m: nat, v: char)
    requires Text.NatToString(n) + [u] + " ago" == Text.NatToString(m) + [v] + " ago"
    ensures n == m && u == v
  {
    var s := Text.NatToString(n) + [u] + " ago";
    assert s[|s| - 5] == u;
    assert s[..|s| - 5] == Text.NatToString(n);
    var t := Text.NatToString(m) + [v] + " ago";
    assert t[|t| - 5] == v;
    assert t[..|t| - 5] == Text.NatToString(m);
    Text.NatToStringInjective(n, m);
  }

  function Number(a: Age): nat
  {
    match a
    case MinutesAgo(m) => m
    case HoursAgo(h) => h
    case DaysAgo(d) => d
    case _ => 0
  }

  function Unit(a: Age): char
  {
    match a
    case MinutesAgo(_) => 'm'
    case HoursAgo(_) => 'h'
    case DaysAgo(_) => 'd'
    case _ => ' '
  }

  /** The count, a space and the noun, plural unless the count is one. */
  function CountLabel(n: nat, noun: string): (s: string)
    ensures Text.StartsWith(s, Text.NatToString(n) + " " + noun)
    ensures n == 1 ==> s == "1 " + noun
    ensures |s| == |Text.NatToString(n)| + 1 + |noun| + (if n != 1 then 1 else 0)
    ensures |s| > 0 && (s[|s| - 1] == 's' <==> n != 1 || (noun != [] && noun[|noun| - 1] == 's'))
  {
    Text.NatToString(n) + " " + noun + (if n != 1 then "s" else "")
  }
}
