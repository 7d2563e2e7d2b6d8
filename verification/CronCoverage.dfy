/**
 Is a search window of 366 days enough (schedule/schedule_calculator.cpp)? For validated
 cron specifications: yes from every start time if and only if some admitted date is not
 29 February, and no shorter window would do.
 */
module CronCoverage {
  import opened Wrappers
  import opened Calendar
  import opened ScheduleFields
  import opened ScheduleCalculator

  /** The instant at which minute m of local day n begins. */
  function Instant(a: Almanac, n: int, m: int): int {
    n * DAY - MINUTE * a.offsetMinutes + MINUTE * m
  }

  lemma InstantFields(a: Almanac, n: int, m: int)
    requires 0 <= m < 1440
    ensures Instant(a, n, m) % MINUTE == 0
    ensures LocalDay(a, Instant(a, n, m)) == n && MinuteOfDay(a, Instant(a, n, m)) == m
  {
    var t := Instant(a, n, m);
    assert t == MINUTE * (n * 1440 - a.offsetMinutes + m);
    assert t + MINUTE * a.offsetMinutes == n * DAY + MINUTE * m;
    assert t - StartOfDayLocal(a, t) == MINUTE * m;
  }

  predicate LeapDay(n: int) { DateOf(n).month == 2 && DateOf(n).day == 29 }

  /** Some date other than 29 February satisfies the month and day rule. */
  ghost predicate AdmitsOrdinaryDate(spec: ScheduleSpec) {
    exists n :: DateOk(spec, n) && !LeapDay(n)
  }

  /** The date m/d exists in every year. */
  predicate Yearly(m: int, d: int) { 1 <= m <= 12 && 1 <= d <= MonthLength(false, m) }

  lemma YearlyValid(y: int, m: int, d: int)
    requires Yearly(m, d)
    ensures ValidDate(Date(y, m, d))
  {
  }

  /** A yearly date comes back after 365 or 366 days. */
  lemma YearlyGap(y: int, m: int, d: int)
    requires Yearly(m, d)
    ensures ValidDate(Date(y, m, d)) && ValidDate(Date(y + 1, m, d))
    ensures 365 <= DayNumber(Date(y + 1, m, d)) - DayNumber(Date(y, m, d)) <= 366
  {
    YearlyValid(y, m, d);
    YearlyValid(y + 1, m, d);
    YearStep(y);
    if IsLeap(y) {
      assert !IsLeap(y + 1);
    }
  }

  /** Every yearly date falls in any 366 consecutive days. */
  lemma YearlyDateComes(m: int, d: int, first: int) returns (date: Date)
    requires Yearly(m, d)
    ensures date.month == m && date.day == d && ValidDate(date)
    ensures first <= DayNumber(date) < first + 366
  {
    var y := YearOf(first);
    YearlyGap(y, m, d);
    YearStep(y);
    DayInYear(Date(y, m, d));
    DayInYear(Date(y + 1, m, d));
    date := if DayNumber(Date(y, m, d)) >= first then Date(y, m, d) else Date(y + 1, m, d);
  }

  lemma WithinWeek(n: int, w: int) returns (k: int)
    requires 0 <= w <= 6
    ensures n <= k <= n + 6 && Weekday(k) == w
  {
    k := n + (w - Weekday(n)) % 7;
  }

  /** Days later in the same month. */
  lemma SameMonth(date: Date, k: int)
    requires ValidDate(date) && 0 <= k && date.day + k <= 28
    ensures DateOf(DayNumber(date) + k) == Date(date.year, date.month, date.day + k)
  {
    DateRoundTrip(Date(date.year, date.month, date.day + k));
  }

  /** A weekday found among seven consecutive days of a month. */
  lemma WeekdayInMonth(date: Date, w: int) returns (n: int)
    requires ValidDate(date) && date.day <= 22 && 0 <= w <= 6
    ensures DayNumber(date) <= n <= DayNumber(date) + 6
    ensures DateOf(n).month == date.month && Weekday(n) == w
  {
    n := WithinWeek(DayNumber(date), w);
    SameMonth(date, n - DayNumber(date));
  }

  /** Every weekday of every month falls in any 366 consecutive days. */
  lemma WeekdayOfMonthComes(m: int, w: int, first: int) returns (n: int)
    requires 1 <= m <= 12 && 0 <= w <= 6
    ensures first <= n < first + 366 && DateOf(n).month == m && Weekday(n) == w
  {
    var date := YearlyDateComes(m, 1, first);
    if DayNumber(date) + 6 < first + 366 {
      n := WeekdayInMonth(date, w);
    } else {
      YearlyGap(date.year - 1, m, 1);
      n := WeekdayInMonth(Date(date.year - 1, m, 8), w);
    }
  }

  /** An admitted ordinary date is matched somewhere in any 366 consecutive days. */
  lemma DateComes(spec: ScheduleSpec, admitted: int, first: int) returns (n: int)
    requires DateOk(spec, admitted) && !LeapDay(admitted)
    ensures first <= n < first + 366 && DateOk(spec, n)
  {
    var d := DateOf(admitted);
    var byDate := Matches(spec.dayOfMonth, d.day) && (spec.dayOfWeek.isAny || !spec.dayOfMonth.isAny);
    if byDate {
      var date := YearlyDateComes(d.month, d.day, first);
      n := DayNumber(date);
      DateRoundTrip(date);
    } else {
      n := WeekdayOfMonthComes(d.month, Weekday(admitted), first);
    }
  }

  lemma ValidatedTime(spec: ScheduleSpec) returns (m: int)
    requires Validate(spec) && ResolvedKind(spec).Cron?
    ensures 0 <= m < 1440 && TimeOk(spec, m)
  {
    WithinRangeExact(spec.hour, 0, 23);
    WithinRangeExact(spec.minute, 0, 59);
    var h :| 0 <= h <= 23 && Matches(spec.hour, h);
    var k :| 0 <= k <= 59 && Matches(spec.minute, k);
    m := h * 60 + k;
    assert m / 60 == h && m % 60 == k;
  }

  /** The search window holds minute m of 366 consecutive local days. */
  lemma WindowDays(a: Almanac, from: int, m: int) returns (first: int)
    requires 0 <= m < 1440
    ensures forall n :: first <= n < first + 366 ==> RoundToNextMinute(from) <= Instant(a, n, m) < SearchLimit(from)
  {
    var start := RoundToNextMinute(from);
    var day := LocalDay(a, start);
    first := if Instant(a, day, m) >= start then day else day + 1;
    assert StartOfDayLocal(a, start) == Instant(a, day, 0);
    assert start <= Instant(a, first, m) < start + DAY;
  }

  /** 366 days suffice from any start time when an ordinary date is admitted. */
  lemma YearSuffices(a: Almanac, spec: ScheduleSpec, from: int)
    requires Validate(spec) && ResolvedKind(spec).Cron? && AdmitsOrdinaryDate(spec)
    ensures NextCron(a, spec, from).Some?
  {
    var m := ValidatedTime(spec);
    var first := WindowDays(a, from, m);
    var admitted :| DateOk(spec, admitted) && !LeapDay(admitted);
    var n := DateComes(spec, admitted, first);
    InstantFields(a, n, m);
    NextCronIsLeast(a, spec, from);
    assert Fires(a, spec)(Instant(a, n, m));
  }

  /** From 1 March 1972 a window of 366 days meets no 29 February. */
  lemma NoLeapDayAfterMarch1972(n: int)
    requires DayNumber(Date(1972, 3, 1)) <= n < DayNumber(Date(1972, 3, 1)) + 366
    ensures !LeapDay(n)
  {
    var d := DateOf(n);
    YearStep(1972);
    YearStep(1973);
    DayInYear(d);
    if d.year < 1972 {
      YearsApart(d.year + 1, 1972);
    } else if d.year > 1973 {
      YearsApart(1974, d.year);
    }
  }

  /** The exact condition: a validated cron specification always finds an occurrence iff it
      admits a date other than 29 February. */
  lemma AlwaysFoundExactly(a: Almanac, spec: ScheduleSpec)
    requires Validate(spec) && ResolvedKind(spec).Cron?
    ensures (forall from :: NextCron(a, spec, from).Some?) <==> AdmitsOrdinaryDate(spec)
  {
    if AdmitsOrdinaryDate(spec) {
      forall from
        ensures NextCron(a, spec, from).Some?
      {
        YearSuffices(a, spec, from);
      }
    } else {
      var from := Instant(a, DayNumber(Date(1972, 3, 1)), 0);
      OnlyLeapDaysMiss(a, spec);
      assert NextCron(a, spec, from).None?;
    }
  }

  lemma OnlyLeapDaysMiss(a: Almanac, spec: ScheduleSpec)
    requires !AdmitsOrdinaryDate(spec)
    ensures NextCron(a, spec, Instant(a, DayNumber(Date(1972, 3, 1)), 0)).None?
  {
    var march := DayNumber(Date(1972, 3, 1));
    var from := Instant(a, march, 0);
    NextCronIsLeast(a, spec, from);
    InstantFields(a, march, 0);
    var r := NextCron(a, spec, from);
    if r.Some? {
      assert CronMatch(a, spec, r.value);
      var n := LocalDay(a, r.value);
      assert march <= n < march + 366;
      NoLeapDayAfterMarch1972(n);
      assert false;
    }
  }

  /** The same condition on the fields alone: only a specification restricted by day of month, and not by day
      of week, can admit nothing but 29 February. */
  predicate FieldsAdmitOrdinaryDate(spec: ScheduleSpec) {
    spec.dayOfMonth.isAny || !spec.dayOfWeek.isAny ||
    exists m, d :: 1 <= m <= 12 && 1 <= d <= MonthLength(false, m) && Matches(spec.month, m) && Matches(spec.dayOfMonth, d)
  }

  lemma AdmittedByFields(spec: ScheduleSpec)
    requires Validate(spec) && ResolvedKind(spec).Cron?
    ensures AdmitsOrdinaryDate(spec) <==> FieldsAdmitOrdinaryDate(spec)
  {
    if AdmitsOrdinaryDate(spec) {
      var n :| DateOk(spec, n) && !LeapDay(n);
      OrdinaryFields(spec, n, DateOf(n));
    }
    if FieldsAdmitOrdinaryDate(spec) {
      FieldsFindDate(spec);
    }
  }

  lemma OrdinaryFields(spec: ScheduleSpec, n: int, date: Date)
    requires date == DateOf(n) && ValidDate(date) && DateOk(spec, n) && !LeapDay(n)
    ensures FieldsAdmitOrdinaryDate(spec)
  {
    var m, d := date.month, date.day;
    assert 1 <= m <= 12 && 1 <= d <= MonthLength(false, m);
  }

  /** The first days of a month, in some year. */
  lemma EarlyInMonth(m: int, w: int) returns (n: int)
    requires 1 <= m <= 12 && 0 <= w <= 6
    ensures DateOf(n).month == m && DateOf(n).day <= 7 && Weekday(n) == w
  {
    var date := YearlyDateComes(m, 1, 0);
    n := WithinWeek(DayNumber(date), w);
    SameMonth(date, n - DayNumber(date));
  }

  lemma FieldsFindDate(spec: ScheduleSpec)
    requires Validate(spec) && ResolvedKind(spec).Cron? && FieldsAdmitOrdinaryDate(spec)
    ensures AdmitsOrdinaryDate(spec)
  {
    WithinRangeExact(spec.month, 1, 12);
    WithinRangeExact(spec.dayOfWeek, 0, 6);
    if spec.dayOfMonth.isAny || !spec.dayOfWeek.isAny {
      var m :| 1 <= m <= 12 && Matches(spec.month, m);
      var w :| 0 <= w <= 6 && Matches(spec.dayOfWeek, w);
      var n := EarlyInMonth(m, w);
      assert DateOk(spec, n) && !LeapDay(n);
    } else {
      var m, d :| 1 <= m <= 12 && 1 <= d <= MonthLength(false, m) && Matches(spec.month, m) && Matches(spec.dayOfMonth, d);
      var date := YearlyDateComes(m, d, 0);
      DateRoundTrip(date);
      assert DateOk(spec, DayNumber(date)) && !LeapDay(DayNumber(date));
    }
  }

  /** Midnight of 1 March, every year. */
  ghost predicate MarchFirst(spec: ScheduleSpec) {
    spec.kind == Cron && !spec.isOneShot && spec.dayOfWeek.isAny && !spec.dayOfMonth.isAny &&
    (forall v :: Matches(spec.minute, v) <==> v == 0) &&
    (forall v :: Matches(spec.hour, v) <==> v == 0) &&
    (forall v :: Matches(spec.dayOfMonth, v) <==> v == 1) &&
    (forall v :: Matches(spec.month, v) <==> v == 3)
  }

  lemma MarchFirstValidates(spec: ScheduleSpec)
    requires MarchFirst(spec)
    ensures Validate(spec)
  {
    WithinRangeExact(spec.minute, 0, 59);
    WithinRangeExact(spec.hour, 0, 23);
    WithinRangeExact(spec.dayOfMonth, 1, 31);
    WithinRangeExact(spec.month, 1, 12);
    assert Matches(spec.minute, 0) && Matches(spec.hour, 0) && Matches(spec.dayOfMonth, 1) && Matches(spec.month, 3);
  }

  lemma MarchFirstAdmitted(spec: ScheduleSpec)
    requires MarchFirst(spec)
    ensures AdmitsOrdinaryDate(spec)
  {
    var n := MarchFirstComes();
    MarchFirstOk(spec, n);
  }

  lemma MarchFirstOk(spec: ScheduleSpec, n: int)
    requires MarchFirst(spec) && DateOf(n).month == 3 && DateOf(n).day == 1
    ensures DateOk(spec, n) && !LeapDay(n)
  {
  }

  lemma MarchFirstComes() returns (n: int)
    ensures DateOf(n).month == 3 && DateOf(n).day == 1
  {
    var date := YearlyDateComes(3, 1, 0);
    DateRoundTrip(date);
    n := DayNumber(date);
  }

  lemma FoundInWindow(a: Almanac, spec: ScheduleSpec, from: int) returns (t: int)
    requires MarchFirst(spec)
    ensures NextCron(a, spec, from) == Some(t) && RoundToNextMinute(from) <= t < SearchLimit(from) && CronMatch(a, spec, t)
  {
    MarchFirstValidates(spec);
    MarchFirstAdmitted(spec);
    YearSuffices(a, spec, from);
    NextCronIsLeast(a, spec, from);
    t := NextCron(a, spec, from).value;
    assert Fires(a, spec)(t);
  }

  lemma WholeMinuteWindow(a: Almanac, n: int)
    ensures var from := Instant(a, n, 1);
      RoundToNextMinute(from) == from && SearchLimit(from) == Instant(a, n + 366, 1)
  {
    InstantFields(a, n, 1);
  }

  /** The bound is tight: from just after 1 March to the next one across a leap day, the match is the very last
      minute searched. */
  lemma WindowIsTight(a: Almanac, spec: ScheduleSpec, date: Date, n: int, from: int)
    requires MarchFirst(spec) && ValidDate(date) && date.month == 3 && date.day == 1 && IsLeap(date.year + 1)
    requires n == DayNumber(date) && from == Instant(a, n, 1)
    ensures NextCron(a, spec, from) == Some(SearchLimit(from) - MINUTE)
  {
    TightFrom(a, spec, date, n);
    WholeMinuteWindow(a, n);
  }

  /** What the search from just after midnight of day n finds: midnight of a 1 March within the window. */
  lemma MarchFirstFound(a: Almanac, spec: ScheduleSpec, n: int) returns (e: Date, m: int)
    requires MarchFirst(spec)
    ensures ValidDate(e) && e.month == 3 && e.day == 1 && m == DayNumber(e)
    ensures NextCron(a, spec, Instant(a, n, 1)) == Some(Instant(a, m, 0))
    ensures Instant(a, n, 1) <= Instant(a, m, 0) < Instant(a, n + 366, 1)
  {
    var t := FoundInWindow(a, spec, Instant(a, n, 1));
    e, m := MarchFirstOf(a, spec, t);
    assert Instant(a, n, 1) <= t < Instant(a, n + 366, 1) by {
      WholeMinuteWindow(a, n);
    }
  }

  lemma TightFrom(a: Almanac, spec: ScheduleSpec, date: Date, n: int)
    requires MarchFirst(spec) && ValidDate(date) && date.month == 3 && date.day == 1 && IsLeap(date.year + 1)
    requires n == DayNumber(date)
    ensures NextCron(a, spec, Instant(a, n, 1)) == Some(Instant(a, n + 366, 1) - MINUTE)
  {
    var e, m := MarchFirstFound(a, spec, n);
    NextMarchFirst(a, date, n, e, m);
  }

  lemma MarchFirstOf(a: Almanac, spec: ScheduleSpec, t: int) returns (e: Date, m: int)
    requires MarchFirst(spec) && CronMatch(a, spec, t)
    ensures ValidDate(e) && e.month == 3 && e.day == 1 && m == DayNumber(e) && t == Instant(a, m, 0)
  {
    OnlyMarchFirst(a, spec, t);
    e, m := DateOf(LocalDay(a, t)), LocalDay(a, t);
  }

  lemma OnlyMarchFirst(a: Almanac, spec: ScheduleSpec, t: int)
    requires MarchFirst(spec) && CronMatch(a, spec, t)
    ensures DateOf(LocalDay(a, t)).month == 3 && DateOf(LocalDay(a, t)).day == 1
    ensures t == Instant(a, LocalDay(a, t), 0)
  {
    var m := MinuteOfDay(a, t);
    assert m / 60 == 0 && m % 60 == 0;
    WholeMinuteOfDay(a, t);
  }

  lemma NotBothLeap(y: int)
    requires IsLeap(y)
    ensures !IsLeap(y - 1) && !IsLeap(y + 1)
  {
  }

  lemma MarchFirstNumber(d: Date)
    requires ValidDate(d) && d.month == 3 && d.day == 1
    ensures DayNumber(d) == YearStart(d.year) + if IsLeap(d.year) then 60 else 59
  {
  }

  /** Years before or after the next one are too far away. */
  lemma FarYears(y: int, z: int)
    ensures z < y ==> YearStart(z) + 365 <= YearStart(y)
    ensures z > y + 1 ==> YearStart(y) + 730 <= YearStart(z)
  {
    YearStep(z);
    YearStep(y);
    YearStep(y + 1);
    if z < y {
      YearsApart(z + 1, y);
    } else if z > y + 1 {
      YearsApart(y + 2, z);
    }
  }

  lemma MarchFirstsApart(d: Date, e: Date)
    requires ValidDate(d) && ValidDate(e) && d.month == 3 == e.month && d.day == 1 == e.day && IsLeap(d.year + 1)
    requires DayNumber(d) < DayNumber(e) <= DayNumber(d) + 366
    ensures DayNumber(e) == DayNumber(d) + 366
  {
    NotBothLeap(d.year + 1);
    MarchFirstNumber(d);
    MarchFirstNumber(e);
    YearStep(d.year);
    FarYears(d.year, e.year);
  }

  lemma NextMarchFirst(a: Almanac, date: Date, n: int, e: Date, m: int)
    requires ValidDate(date) && date.month == 3 && date.day == 1 && IsLeap(date.year + 1) && n == DayNumber(date)
    requires ValidDate(e) && e.month == 3 && e.day == 1 && m == DayNumber(e)
    requires Instant(a, n, 1) <= Instant(a, m, 0) < Instant(a, n + 366, 1)
    ensures Instant(a, m, 0) == Instant(a, n + 366, 1) - MINUTE
  {
    assert n < m <= n + 366;
    MarchFirstsApart(date, e);
  }

  /** Midnight of every 29 February. */
  ghost predicate LeapMidnight(spec: ScheduleSpec) {
    spec.kind == Cron && !spec.isOneShot && spec.dayOfWeek.isAny && !spec.dayOfMonth.isAny &&
    (forall v :: Matches(spec.minute, v) <==> v == 0) &&
    (forall v :: Matches(spec.hour, v) <==> v == 0) &&
    (forall v :: Matches(spec.dayOfMonth, v) <==> v == 29) &&
    (forall v :: Matches(spec.month, v) <==> v == 2)
  }

  lemma LeapMidnightValid(spec: ScheduleSpec)
    requires LeapMidnight(spec)
    ensures Validate(spec)
  {
    WithinRangeExact(spec.minute, 0, 59);
    WithinRangeExact(spec.hour, 0, 23);
    WithinRangeExact(spec.dayOfMonth, 1, 31);
    WithinRangeExact(spec.month, 1, 12);
    assert Matches(spec.minute, 0) && Matches(spec.hour, 0) && Matches(spec.dayOfMonth, 29) && Matches(spec.month, 2);
  }

  lemma LeapDateNumber(d: Date)
    requires ValidDate(d) && d.month == 2 && d.day == 29
    ensures IsLeap(d.year) && DayNumber(d) == YearStart(d.year) + 59
  {
  }

  /** Two leap days are more than 366 days apart. */
  lemma LeapDatesApart(d: Date, e: Date)
    requires ValidDate(d) && ValidDate(e) && d.month == 2 == e.month && d.day == 29 == e.day
    requires DayNumber(d) < DayNumber(e)
    ensures DayNumber(d) + 366 < DayNumber(e)
  {
    LeapDateNumber(d);
    LeapDateNumber(e);
    NotBothLeap(d.year);
    FarYears(d.year, e.year);
  }

  lemma LeapDaysApart(n: int, m: int)
    requires LeapDay(n) && LeapDay(m) && n < m
    ensures n + 366 < m
  {
    LeapDatesApart(DateOf(n), DateOf(m));
  }

  lemma LeapMidnightFires(a: Almanac, spec: ScheduleSpec, n: int)
    requires LeapMidnight(spec) && LeapDay(n)
    ensures CronMatch(a, spec, Instant(a, n, 0))
  {
    InstantFields(a, n, 0);
  }

  lemma OnlyLeapMidnight(a: Almanac, spec: ScheduleSpec, t: int)
    requires LeapMidnight(spec) && CronMatch(a, spec, t)
    ensures LeapDay(LocalDay(a, t)) && t == Instant(a, LocalDay(a, t), 0)
  {
    var m := MinuteOfDay(a, t);
    assert m / 60 == 0 && m % 60 == 0;
    WholeMinuteOfDay(a, t);
  }

  /** Past its first minute, a 29 February has no successor in the window. */
  lemma NoLeapMidnightAfter(a: Almanac, spec: ScheduleSpec, n: int)
    requires LeapMidnight(spec) && LeapDay(n)
    ensures NextCron(a, spec, Instant(a, n, 1)).None?
  {
    WholeMinuteWindow(a, n);
    var from := Instant(a, n, 1);
    NextCronIsLeast(a, spec, from);
    var r := NextCron(a, spec, from);
    if r.Some? {
      assert Fires(a, spec)(r.value);
      OnlyLeapMidnight(a, spec, r.value);
      LeapDaysApart(n, LocalDay(a, r.value));
      assert false;
    }
  }

  lemma FoundAtOnce(a: Almanac, spec: ScheduleSpec, d: int)
    requires CronMatch(a, spec, d)
    ensures NextCron(a, spec, d) == Some(d)
  {
    assert Fires(a, spec)(d) && RoundToNextMinute(d) == d;
  }

  /** Midnight of a 29 February matches, and the search after it finds nothing. */
  lemma LeapMidnightRunsOut(a: Almanac, spec: ScheduleSpec, n: int)
    requires LeapMidnight(spec) && LeapDay(n)
    ensures Validate(spec) && NextCron(a, spec, Instant(a, n, 0)) == Some(Instant(a, n, 0))
    ensures NextCron(a, spec, Instant(a, n, 0) + MINUTE).None?
  {
    LeapMidnightValid(spec);
    LeapMidnightFires(a, spec, n);
    FoundAtOnce(a, spec, Instant(a, n, 0));
    assert Instant(a, n, 0) + MINUTE == Instant(a, n, 1);
    NoLeapMidnightAfter(a, spec, n);
  }

  // ---------- The day rule when both day fields are restricted ----------

  /** A year whose January starts `shift` days into the week, counted so that day d falls on d + shift. */
  lemma JanuaryYear(shift: int) returns (y: int)
    requires 0 <= shift <= 6
    ensures (YearStart(y) + 3) % 7 == shift
  {
    JanuaryFirsts();
    y := if shift == 3 then 1970 else if shift == 4 then 1971 else if shift == 5 then 1972 else if shift == 0 then 1973
         else if shift == 1 then 1974 else if shift == 2 then 1975 else 1978;
  }

  lemma JanuaryDay(y: int, d: int)
    requires 1 <= d <= 31
    ensures ValidDate(Date(y, 1, d)) && DayNumber(Date(y, 1, d)) == YearStart(y) + d - 1
  {
  }

  lemma SameWeekday(n: int, d: int, w: int)
    requires 0 <= w <= 6 && (n + 3) % 7 == (w - d) % 7
    ensures Weekday(n + d - 1) == w
  {
  }

  /** Every weekday falls on every day of a January. */
  lemma JanuaryWeekday(d: int, w: int) returns (date: Date)
    requires 1 <= d <= 31 && 0 <= w <= 6
    ensures ValidDate(date) && date.day == d && Weekday(DayNumber(date)) == w
  {
    var y := JanuaryYear((w - d) % 7);
    date := Date(y, 1, d);
    JanuaryDay(y, d);
    SameWeekday(YearStart(y), d, w);
  }

  lemma JanuaryFirsts()
    ensures YearStart(1970) == 0 && YearStart(1971) == 365 && YearStart(1972) == 730 && YearStart(1973) == 1096
    ensures YearStart(1974) == 1461 && YearStart(1975) == 1826 && YearStart(1978) == 2922
  {
    YearStep(1970);
    YearStep(1971);
    YearStep(1972);
    YearStep(1973);
    YearStep(1974);
    YearStep(1975);
    YearStep(1976);
    YearStep(1977);
  }

  /** With both day fields restricted the rule admits every day exactly when one of the fields matches all its
      values; a field that is not any() but matches everything, as every(1) does, cancels the other. */
  lemma DayRuleVacuousIff(spec: ScheduleSpec)
    requires !spec.dayOfMonth.isAny && !spec.dayOfWeek.isAny
    ensures (forall n :: DayOk(spec, DateOf(n).day, Weekday(n))) <==>
      (forall d :: 1 <= d <= 31 ==> Matches(spec.dayOfMonth, d)) || (forall w :: 0 <= w <= 6 ==> Matches(spec.dayOfWeek, w))
  {
    if d, w :| 1 <= d <= 31 && !Matches(spec.dayOfMonth, d) && 0 <= w <= 6 && !Matches(spec.dayOfWeek, w) {
      var date := JanuaryWeekday(d, w);
      DateRoundTrip(date);
      assert !DayOk(spec, DateOf(DayNumber(date)).day, Weekday(DayNumber(date)));
    } else {
      forall n
        ensures (forall d :: 1 <= d <= 31 ==> Matches(spec.dayOfMonth, d)) || (forall w :: 0 <= w <= 6 ==> Matches(spec.dayOfWeek, w)) ==>
          DayOk(spec, DateOf(n).day, Weekday(n))
      {
        assert ValidDate(DateOf(n));
      }
    }
  }
}
