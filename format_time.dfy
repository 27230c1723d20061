/** The relative-time label of src/utils/formatTime.js. Times are milliseconds since the
    epoch; `tz` is the offset of local time from UTC in milliseconds, which decides the
    calendar day a time falls on; the phrase date-fns builds for a time of today is an
    input. */
module FormatTime {
  import opened Text

  const MsPerDay := 86400000

  /** The local calendar day a time falls on (days since the epoch, local time). */
  function LocalDay(t: int, tz: int): int {
    (t + tz) / MsPerDay
  }

  /** date-fns `isToday`. */
  predicate IsToday(now: int, date: int, tz: int) {
    LocalDay(date, tz) == LocalDay(now, tz)
  }

  /** date-fns `isYesterday`. */
  predicate IsYesterday(now: int, date: int, tz: int) {
    LocalDay(date, tz) == LocalDay(now, tz) - 1
  }

  /** `Math.floor((now - targetDate) / (1000 * 60 * 60 * 24))`: whole days elapsed. */
  function DaysDiff(now: int, date: int): (d: int)
    ensures d * MsPerDay <= now - date < (d + 1) * MsPerDay
  {
    (now - date) / MsPerDay
  }

  /** The bucket the label falls in, with its count. */
  datatype Ago =
    | Distance(phrase: string)
    | Yesterday
    | Days(days: int)
    | Weeks(weeks: int)
    | Months(months: int)
    | Years(years: int)

  /** The choice of bucket: today, yesterday, then at most a week in days, at most thirty
      days in weeks, at most a year in months, and years beyond. */
  function Bucket(now: int, date: int, tz: int, distance: string): (b: Ago)
    ensures IsToday(now, date, tz) ==> b == Distance(ReplaceFirst(distance, "about ", ""))
    ensures !IsToday(now, date, tz) && IsYesterday(now, date, tz) ==> b == Yesterday
    ensures b.Days? ==> b.days == DaysDiff(now, date) <= 7
    ensures b.Weeks? ==>
      && 8 <= DaysDiff(now, date) <= 30 && 1 <= b.weeks <= 4
      && b.weeks * 7 <= DaysDiff(now, date) < (b.weeks + 1) * 7
    ensures b.Months? ==>
      && 31 <= DaysDiff(now, date) <= 365 && 1 <= b.months <= 12
      && b.months * 30 <= DaysDiff(now, date) < (b.months + 1) * 30
    ensures b.Years? ==>
      && DaysDiff(now, date) > 365 && b.years >= 1
      && b.years * 365 <= DaysDiff(now, date) < (b.years + 1) * 365
    ensures !IsToday(now, date, tz) && !IsYesterday(now, date, tz) ==> !b.Distance? && !b.Yesterday?
  {
    if IsToday(now, date, tz) then Distance(ReplaceFirst(distance, "about ", ""))
    else if IsYesterday(now, date, tz) then Yesterday
    else
      var daysDiff := DaysDiff(now, date);
      if daysDiff <= 7 then Days(daysDiff)
      else if daysDiff <= 30 then Weeks(daysDiff / 7)
      else if daysDiff <= 365 then Months(daysDiff / 30)
      else Years(daysDiff / 365)
  }

  /** `${n} unit${n > 1 ? "s" : ""} ago` */
  function CountAgo(n: int, unit: string): string {
    IntToString(n) + " " + unit + (if n > 1 then "s" else "") + " ago"
  }

  /** The label as written: days are always "days", other units are plural above one. */
  function Render(b: Ago): string {
    match b
    case Distance(phrase) => phrase
    case Yesterday => "yesterday"
    case Days(n) => IntToString(n) + " days ago"
    case Weeks(n) => CountAgo(n, "week")
    case Months(n) => CountAgo(n, "month")
    case Years(n) => CountAgo(n, "year")
  }

  /** `formatTimeAgo(date)` at time `now`: today's phrase without "about ", "yesterday",
      then the whole days elapsed, always as "days", up to a week, and beyond it the floor
      count of weeks, thirty-day months or 365-day years (the counts are positive there,
      so Dafny's `/` is `Math.floor` of the quotient). */
  function FormatTimeAgo(now: int, date: int, tz: int, distance: string): (r: string)
    ensures IsToday(now, date, tz) ==> r == ReplaceFirst(distance, "about ", "")
    ensures !IsToday(now, date, tz) && IsYesterday(now, date, tz) ==> r == "yesterday"
    ensures !IsToday(now, date, tz) && !IsYesterday(now, date, tz) ==>
      var d := DaysDiff(now, date);
      && (d <= 7 ==> r == IntToString(d) + " days ago")
      && (7 < d <= 30 ==> r == CountAgo(d / 7, "week"))
      && (30 < d <= 365 ==> r == CountAgo(d / 30, "month"))
      && (365 < d ==> r == CountAgo(d / 365, "year"))
  {
    Render(Bucket(now, date, tz, distance))
  }

  /** A past time that is neither today nor yesterday is at least one whole day back. */
  lemma EarlierDaysElapsed(now: int, date: int, tz: int)
    requires date <= now && !IsToday(now, date, tz) && !IsYesterday(now, date, tz)
    ensures DaysDiff(now, date) >= 1
  {
    var a, b := LocalDay(now, tz), LocalDay(date, tz);
    assert a * MsPerDay <= now + tz < (a + 1) * MsPerDay;
    assert b * MsPerDay <= date + tz < (b + 1) * MsPerDay;
    assert b < a;
    assert b <= a - 2;
    assert (b + 1) * MsPerDay <= (a - 1) * MsPerDay;
    assert now - date > MsPerDay;
  }

  /** The discrepancy: a time on the day before yesterday, less than two days back, is
      labelled "1 days ago". */
  lemma OneDaysAgo()
    ensures var now, date := 2 * MsPerDay + 1000, MsPerDay - 1000;
      && !IsToday(now, date, 0) && !IsYesterday(now, date, 0)
      && FormatTimeAgo(now, date, 0, "") == "1 days ago"
  {
    var now, date := 2 * MsPerDay + 1000, MsPerDay - 1000;
    assert LocalDay(now, 0) == 2 && LocalDay(date, 0) == 0;
    assert DaysDiff(now, date) == 1;
    assert NatToString(1) == "1";
  }

  /** The label evidently intended: every unit, days included, singular for a count of one. */
  function RenderCorrected(b: Ago): string {
    match b
    case Distance(phrase) => phrase
    case Yesterday => "yesterday"
    case Days(n) => CountAgo(n, "day")
    case Weeks(n) => CountAgo(n, "week")
    case Months(n) => CountAgo(n, "month")
    case Years(n) => CountAgo(n, "year")
  }

  function FormatTimeAgoCorrected(now: int, date: int, tz: int, distance: string): string {
    RenderCorrected(Bucket(now, date, tz, distance))
  }

  /** With the correction, a past time that is neither today nor yesterday gets a count of
      at least one, with the unit in the singular exactly when the count is one. */
  lemma CorrectedCountAgrees(now: int, date: int, tz: int, distance: string)
    requires date <= now && !IsToday(now, date, tz) && !IsYesterday(now, date, tz)
    ensures var b := Bucket(now, date, tz, distance);
      var n := match b case Days(n) => n case Weeks(n) => n case Months(n) => n case Years(n) => n case _ => 0;
      var unit := match b case Days(_) => "day" case Weeks(_) => "week" case Months(_) => "month" case _ => "year";
      && n >= 1
      && FormatTimeAgoCorrected(now, date, tz, distance)
         == NatToString(n) + " " + unit + (if n == 1 then "" else "s") + " ago"
  {
    EarlierDaysElapsed(now, date, tz);
  }
}
