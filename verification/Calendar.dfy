/**
 What the scheduler asks of its date library. Times are integer seconds since
 1970-01-01 00:00 UTC, the local zone is a fixed offset of whole minutes, and the
 calendar is the proleptic Gregorian one. Sun and moon data are arbitrary functions.
 */
module Calendar {
  import opened Wrappers

  datatype Phase = Phase(angleDegrees: real, illumination: real)

  datatype Almanac = Almanac(
    offsetMinutes: int,
    sunrise: int -> Option<int>,
    sunset: int -> Option<int>,
    moonPhase: int -> Option<Phase>)

  const MINUTE := 60
  const DAY := 86400

  // ---------- Local time of day ----------

  /** Days since 1970-01-01 on the local wall calendar. */
  function LocalDay(a: Almanac, t: int): int { (t + MINUTE * a.offsetMinutes) / DAY }

  function StartOfDayLocal(a: Almanac, t: int): (start: int)
    ensures start <= t < start + DAY
    ensures LocalDay(a, start) == LocalDay(a, t)
  {
    LocalDay(a, t) * DAY - MINUTE * a.offsetMinutes
  }

  function MinuteOfDay(a: Almanac, t: int): (m: int)
    ensures 0 <= m < 1440
  {
    (t - StartOfDayLocal(a, t)) / MINUTE
  }

  function SetTimeOfDayLocal(a: Almanac, t: int, hour: int, minute: int): int {
    StartOfDayLocal(a, t) + hour * 3600 + minute * MINUTE
  }

  /** The first whole minute at or after t. */
  function RoundToNextMinute(t: int): (r: int)
    ensures t <= r < t + MINUTE && r % MINUTE == 0
  {
    var rounded := if t % MINUTE > 0 then t + MINUTE else t;
    rounded - rounded % MINUTE
  }

  // ---------- Gregorian dates ----------

  predicate IsLeap(y: int) { y % 4 == 0 && (y % 100 != 0 || y % 400 == 0) }

  function YearLength(y: int): int { if IsLeap(y) then 366 else 365 }

  /** Day number of 1 January of year y. */
  function YearStart(y: int): int
    decreases if y >= 1970 then y - 1970 else 1970 - y
  {
    if y == 1970 then 0
    else if y > 1970 then YearStart(y - 1) + YearLength(y - 1)
    else YearStart(y + 1) - YearLength(y)
  }

  lemma YearStep(y: int)
    ensures YearStart(y + 1) == YearStart(y) + YearLength(y)
  {
  }

  function YearUp(n: int, y: int): (r: int)
    requires YearStart(y) <= n
    ensures YearStart(r) <= n < YearStart(r + 1)
    decreases n - YearStart(y)
  {
    YearStep(y);
    if n < YearStart(y + 1) then y else YearUp(n, y + 1)
  }

  function YearDown(n: int, y: int): (r: int)
    requires n < YearStart(y + 1)
    ensures YearStart(r) <= n < YearStart(r + 1)
    decreases YearStart(y + 1) - n
  {
    YearStep(y);
    if YearStart(y) <= n then y else YearDown(n, y - 1)
  }

  function YearOf(n: int): (r: int)
    ensures YearStart(r) <= n < YearStart(r + 1)
  {
    if n >= 0 then YearUp(n, 1970) else YearDown(n, 1969)
  }

  /** Days of the year before month m (1..13). */
  function MonthStart(leap: bool, m: int): int
    requires 1 <= m <= 13
  {
    if m <= 2 then 31 * (m - 1) else 59 + (153 * (m - 3) + 2) / 5 + if leap then 1 else 0
  }

  function MonthLength(leap: bool, m: int): (days: int)
    requires 1 <= m <= 12
    ensures 28 <= days <= 31
  {
    MonthStart(leap, m + 1) - MonthStart(leap, m)
  }

  function MonthFrom(leap: bool, dayOfYear: int, m: int): (r: int)
    requires 1 <= m <= 12 && 0 <= dayOfYear < MonthStart(leap, m + 1)
    ensures 1 <= r <= 12 && MonthStart(leap, r) <= dayOfYear < MonthStart(leap, r + 1)
    decreases m
  {
    if dayOfYear >= MonthStart(leap, m) then m else MonthFrom(leap, dayOfYear, m - 1)
  }

  datatype Date = Date(year: int, month: int, day: int)

  function DateOf(n: int): (d: Date)
    ensures ValidDate(d) && DayNumber(d) == n
  {
    var y := YearOf(n);
    YearStep(y);
    var dayOfYear := n - YearStart(y);
    var m := MonthFrom(IsLeap(y), dayOfYear, 12);
    Date(y, m, dayOfYear - MonthStart(IsLeap(y), m) + 1)
  }

  predicate ValidDate(d: Date) {
    1 <= d.month <= 12 && 1 <= d.day <= MonthLength(IsLeap(d.year), d.month)
  }

  function DayNumber(d: Date): int
    requires ValidDate(d)
  {
    YearStart(d.year) + MonthStart(IsLeap(d.year), d.month) + d.day - 1
  }

  /** 0 is Sunday; 1970-01-01 was a Thursday. */
  function Weekday(n: int): (w: int)
    ensures 0 <= w <= 6
  {
    (n + 4) % 7
  }

  lemma {:induction false} YearsApart(y: int, z: int)
    requires y <= z
    ensures YearStart(z) >= YearStart(y) + 365 * (z - y)
    decreases z - y
  {
    if y < z {
      YearStep(z - 1);
      YearsApart(y, z - 1);
    }
  }

  lemma MonthsApart(leap: bool, m: int, n: int)
    requires 1 <= m < n <= 12
    ensures MonthStart(leap, m) + MonthLength(leap, m) <= MonthStart(leap, n)
  {
  }

  lemma DayInYear(d: Date)
    requires ValidDate(d)
    ensures YearStart(d.year) <= DayNumber(d) < YearStart(d.year + 1)
  {
    YearStep(d.year);
    if d.month < 12 {
      MonthsApart(IsLeap(d.year), d.month, 12);
    }
  }

  lemma SameDaySameYear(d: Date, e: Date)
    requires ValidDate(d) && ValidDate(e) && DayNumber(d) == DayNumber(e)
    ensures d.year == e.year
  {
    DayInYear(d);
    DayInYear(e);
    if d.year < e.year {
      YearsApart(d.year + 1, e.year);
    } else if e.year < d.year {
      YearsApart(e.year + 1, d.year);
    }
  }

  /** Every valid date names exactly one day, so DateOf inverts DayNumber. */
  lemma DateRoundTrip(d: Date)
    requires ValidDate(d)
    ensures DateOf(DayNumber(d)) == d
  {
    var e := DateOf(DayNumber(d));
    SameDaySameYear(d, e);
    if d.month < e.month {
      MonthsApart(IsLeap(d.year), d.month, e.month);
    } else if e.month < d.month {
      MonthsApart(IsLeap(d.year), e.month, d.month);
    }
  }

  /** The calendar is anchored: 1 January 1970 was day 0 and a Thursday, weekdays follow one another, and months
      have the lengths they have. */
  lemma CalendarAnchors(n: int, leap: bool)
    ensures DayNumber(Date(1970, 1, 1)) == 0 && Weekday(0) == 4 && Weekday(n + 1) == (Weekday(n) + 1) % 7
    ensures MonthLength(leap, 1) == 31 && MonthLength(leap, 2) == (if leap then 29 else 28)
    ensures MonthLength(leap, 3) == 31 && MonthLength(leap, 4) == 30 && MonthLength(leap, 5) == 31
    ensures MonthLength(leap, 6) == 30 && MonthLength(leap, 7) == 31 && MonthLength(leap, 8) == 31
    ensures MonthLength(leap, 9) == 30 && MonthLength(leap, 10) == 31 && MonthLength(leap, 11) == 30
    ensures MonthLength(leap, 12) == 31
  {
  }

  /** The day after a date is the next of its month, or the first of the next month or year. */
  lemma NextDay(d: Date)
    requires ValidDate(d)
    ensures var e := if d.day < MonthLength(IsLeap(d.year), d.month) then Date(d.year, d.month, d.day + 1)
              else if d.month < 12 then Date(d.year, d.month + 1, 1) else Date(d.year + 1, 1, 1);
      ValidDate(e) && DayNumber(e) == DayNumber(d) + 1
  {
    YearStep(d.year);
  }
}
