/** Validation and next-occurrence search (schedule/schedule_calculator.cpp). */
module ScheduleCalculator {
  import opened Wrappers
  import opened Calendar
  import opened ScheduleFields
  import opened PeriodicWindow

  datatype Kind = Cron | OneShotUtc | Sunrise | Sunset | MoonPhaseAngle | MoonIlluminationPercent

  datatype ScheduleSpec = ScheduleSpec(
    kind: Kind,
    isOneShot: bool,
    onceAt: int,
    minute: ScheduleField,
    hour: ScheduleField,
    dayOfMonth: ScheduleField,
    month: ScheduleField,
    dayOfWeek: ScheduleField,
    sunOffsetMinutes: int,
    moonAngle: int,
    moonTolerance: int,
    illuminationTarget: real,
    illuminationTolerance: real)

  const MAX_SEARCH_MINUTES := 366 * 24 * 60
  const MAX_SUN_SEARCH_DAYS := 732
  const MAX_MOON_SEARCH_MINUTES := 62 * 24 * 60

  function ResolvedKind(spec: ScheduleSpec): Kind {
    if spec.kind.Cron? && spec.isOneShot then OneShotUtc else spec.kind
  }

  predicate Validate(spec: ScheduleSpec) {
    match ResolvedKind(spec)
    case OneShotUtc => true
    case Cron =>
      WithinRange(spec.minute, 0, 59) && WithinRange(spec.hour, 0, 23) &&
      WithinRange(spec.dayOfMonth, 1, 31) && WithinRange(spec.month, 1, 12) &&
      WithinRange(spec.dayOfWeek, 0, 6)
    case Sunrise => -1440 <= spec.sunOffsetMinutes <= 1440
    case Sunset => -1440 <= spec.sunOffsetMinutes <= 1440
    case MoonPhaseAngle => 0 <= spec.moonAngle <= 359 && 0 <= spec.moonTolerance <= 30
    case MoonIlluminationPercent =>
      0.0 <= spec.illuminationTarget <= 100.0 && 0.0 < spec.illuminationTolerance <= 50.0
  }

  // ---------- Cron ----------

  /** The day rule: a restricted day of month or a restricted day of week suffices. */
  predicate DayOk(spec: ScheduleSpec, dayOfMonth: int, dayOfWeek: int) {
    var domOk := Matches(spec.dayOfMonth, dayOfMonth);
    var dowOk := Matches(spec.dayOfWeek, dayOfWeek);
    if spec.dayOfMonth.isAny && spec.dayOfWeek.isAny then true
    else if spec.dayOfMonth.isAny then dowOk
    else if spec.dayOfWeek.isAny then domOk
    else domOk || dowOk
  }

  /** Day n of the local calendar satisfies the month and the day rule. */
  predicate DateOk(spec: ScheduleSpec, n: int) {
    Matches(spec.month, DateOf(n).month) && DayOk(spec, DateOf(n).day, Weekday(n))
  }

  predicate TimeOk(spec: ScheduleSpec, minuteOfDay: int) {
    Matches(spec.hour, minuteOfDay / 60) && Matches(spec.minute, minuteOfDay % 60)
  }

  /** The cron specification fires at t: what the search is for, with no mention of a search. */
  predicate CronMatch(a: Almanac, spec: ScheduleSpec, t: int) {
    t % MINUTE == 0 && DateOk(spec, LocalDay(a, t)) && TimeOk(spec, MinuteOfDay(a, t))
  }

  /** The first of cursor, cursor + 1 minute, ... before `limit` that satisfies p. */
  ghost function FirstHit(p: int -> bool, cursor: int, limit: int): Option<int>
    decreases limit - cursor
  {
    if cursor >= limit then None
    else if p(cursor) then Some(cursor)
    else FirstHit(p, cursor + MINUTE, limit)
  }

  /** r is the least whole minute of [from, limit) that satisfies p, None when there is none. */
  ghost predicate LeastHit(p: int -> bool, from: int, limit: int, r: Option<int>) {
    match r
    case Some(t) =>
      from <= t < limit && t % MINUTE == 0 && p(t) &&
      forall u :: from <= u < t && u % MINUTE == 0 ==> !p(u)
    case None => forall u :: from <= u < limit && u % MINUTE == 0 ==> !p(u)
  }

  lemma {:induction false} FirstHitIsLeast(p: int -> bool, cursor: int, limit: int)
    requires cursor % MINUTE == 0
    ensures LeastHit(p, cursor, limit, FirstHit(p, cursor, limit))
    decreases limit - cursor
  {
    if cursor < limit && !p(cursor) {
      FirstHitIsLeast(p, cursor + MINUTE, limit);
    }
  }

  function Fires(a: Almanac, spec: ScheduleSpec): int -> bool {
    t => CronMatch(a, spec, t)
  }

  /** End of the window searched from `from`. */
  function SearchLimit(from: int): int {
    RoundToNextMinute(from) + MINUTE * MAX_SEARCH_MINUTES
  }

  ghost function NextCron(a: Almanac, spec: ScheduleSpec, from: int): Option<int> {
    FirstHit(Fires(a, spec), RoundToNextMinute(from), SearchLimit(from))
  }

  /** Rebuilding a whole minute from its local hour and minute gives it back. */
  lemma WholeMinuteOfDay(a: Almanac, t: int)
    requires t % MINUTE == 0
    ensures SetTimeOfDayLocal(a, t, MinuteOfDay(a, t) / 60, MinuteOfDay(a, t) % 60) == t
  {
    var q := t / MINUTE - 1440 * LocalDay(a, t) + a.offsetMinutes;
    assert t - StartOfDayLocal(a, t) == MINUTE * q;
    assert MinuteOfDay(a, t) == q;
  }

  /** Cron search is exact: its answer is the least matching minute of the whole window. */
  lemma NextCronIsLeast(a: Almanac, spec: ScheduleSpec, from: int)
    ensures LeastHit(Fires(a, spec), RoundToNextMinute(from), SearchLimit(from), NextCron(a, spec, from))
  {
    FirstHitIsLeast(Fires(a, spec), RoundToNextMinute(from), SearchLimit(from));
  }

  /** The loop of the cron search: test the cursor, advance one minute, at most `count` times. */
  method SearchMinutes(p: int -> bool, start: int, count: nat) returns (r: Option<int>)
    ensures r == FirstHit(p, start, start + MINUTE * count)
  {
    ghost var limit := start + MINUTE * count;
    var cursor := start;
    var minuteIndex := 0;
    while minuteIndex < count
      invariant 0 <= minuteIndex <= count
      invariant cursor == start + MINUTE * minuteIndex
      invariant FirstHit(p, cursor, limit) == FirstHit(p, start, limit)
    {
      if p(cursor) {
        return Some(cursor);
      }
      cursor := cursor + MINUTE;
      minuteIndex := minuteIndex + 1;
    }
    return None;
  }

  method ComputeNextCron(a: Almanac, spec: ScheduleSpec, from: int) returns (r: Option<int>)
    ensures r == NextCron(a, spec, from)
  {
    r := SearchMinutes(Fires(a, spec), RoundToNextMinute(from), MAX_SEARCH_MINUTES);
    if r.Some? {
      NextCronIsLeast(a, spec, from);
      WholeMinuteOfDay(a, r.value);
      var minutesIntoDay := MinuteOfDay(a, r.value);
      r := Some(SetTimeOfDayLocal(a, r.value, minutesIntoDay / 60, minutesIntoDay % 60));
    }
  }

  // ---------- Sun ----------

  /** The sun event of the day starting at `cursor`, with the configured offset. */
  function SunCandidate(a: Almanac, spec: ScheduleSpec, rising: bool, cursor: int): Option<int> {
    match if rising then a.sunrise(cursor) else a.sunset(cursor)
    case None => None
    case Some(t) => Some(t + MINUTE * spec.sunOffsetMinutes)
  }

  ghost predicate SunHit(a: Almanac, spec: ScheduleSpec, rising: bool, rounded: int, cursor: int) {
    var c := SunCandidate(a, spec, rising, cursor);
    c.Some? && c.value >= rounded
  }

  /** The first of cursor, cursor + 1 day, ... before `limit` that satisfies p. */
  ghost function FirstDay(p: int -> bool, cursor: int, limit: int): Option<int>
    decreases limit - cursor
  {
    if cursor >= limit then None
    else if p(cursor) then Some(cursor)
    else FirstDay(p, cursor + DAY, limit)
  }

  /** r is the first day start from `from` on, before `limit`, that satisfies p. */
  ghost predicate LeastDay(p: int -> bool, from: int, limit: int, r: Option<int>) {
    match r
    case Some(c) =>
      from <= c < limit && p(c) && forall u :: from <= u < c && (u - from) % DAY == 0 ==> !p(u)
    case None => forall u :: from <= u < limit && (u - from) % DAY == 0 ==> !p(u)
  }

  lemma {:induction false} FirstDayIsLeast(p: int -> bool, cursor: int, limit: int)
    ensures LeastDay(p, cursor, limit, FirstDay(p, cursor, limit))
    decreases limit - cursor
  {
    if cursor < limit && !p(cursor) {
      FirstDayIsLeast(p, cursor + DAY, limit);
      assert forall u {:trigger p(u)} ::
        cursor < u && (u - cursor) % DAY == 0 ==> u >= cursor + DAY && (u - (cursor + DAY)) % DAY == 0;
    }
  }

  /** The days, by their start, whose event is at or after `rounded`. */
  ghost function SunDays(a: Almanac, spec: ScheduleSpec, rising: bool, rounded: int): int -> bool {
    cursor => SunHit(a, spec, rising, rounded, cursor)
  }

  /** The day whose event answers a search from `from`. */
  ghost function SunDay(a: Almanac, spec: ScheduleSpec, from: int, rising: bool): Option<int> {
    var rounded := RoundToNextMinute(from);
    var start := StartOfDayLocal(a, rounded);
    FirstDay(SunDays(a, spec, rising, rounded), start, start + DAY * MAX_SUN_SEARCH_DAYS)
  }

  ghost function NextSun(a: Almanac, spec: ScheduleSpec, from: int, rising: bool): Option<int> {
    match SunDay(a, spec, from, rising)
    case None => None
    case Some(day) => SunCandidate(a, spec, rising, day)
  }

  /** The sun search answers for the first local day, from the day of `from` on, whose event is not
      already past, and never with a past event. */
  lemma NextSunIsFirst(a: Almanac, spec: ScheduleSpec, from: int, rising: bool)
    ensures var rounded := RoundToNextMinute(from);
      var start := StartOfDayLocal(a, rounded);
      LeastDay(SunDays(a, spec, rising, rounded), start, start + DAY * MAX_SUN_SEARCH_DAYS,
               SunDay(a, spec, from, rising))
    ensures NextSun(a, spec, from, rising).Some? <==> SunDay(a, spec, from, rising).Some?
    ensures NextSun(a, spec, from, rising).Some? ==> NextSun(a, spec, from, rising).value >= from
  {
    var rounded := RoundToNextMinute(from);
    var start := StartOfDayLocal(a, rounded);
    FirstDayIsLeast(SunDays(a, spec, rising, rounded), start, start + DAY * MAX_SUN_SEARCH_DAYS);
  }

  method ComputeNextSun(a: Almanac, spec: ScheduleSpec, from: int, rising: bool) returns (r: Option<int>)
    ensures r == NextSun(a, spec, from, rising)
  {
    var rounded := RoundToNextMinute(from);
    var startOfDay := StartOfDayLocal(a, rounded);
    var dayOffset := 0;
    ghost var p, limit := SunDays(a, spec, rising, rounded), startOfDay + DAY * MAX_SUN_SEARCH_DAYS;
    while dayOffset < MAX_SUN_SEARCH_DAYS
      invariant 0 <= dayOffset <= MAX_SUN_SEARCH_DAYS
      invariant FirstDay(p, startOfDay, limit) == FirstDay(p, startOfDay + DAY * dayOffset, limit)
    {
      var cursor := startOfDay + DAY * dayOffset;
      var cycle := if rising then a.sunrise(cursor) else a.sunset(cursor);
      if cycle.Some? {
        var candidate := cycle.value + MINUTE * spec.sunOffsetMinutes;
        if candidate >= rounded {
          return Some(candidate);
        }
      }
      dayOffset := dayOffset + 1;
    }
    return None;
  }

  // ---------- Moon ----------

  /** End of the window of a moon search from `from`. */
  function MoonLimit(from: int): int {
    RoundToNextMinute(from) + MINUTE * MAX_MOON_SEARCH_MINUTES
  }

  /** The phase enters its window between two unwrapped samples. */
  ghost predicate PhaseCrossed(spec: ScheduleSpec, previous: real, current: real) {
    !InWindow(previous, spec.moonAngle as real, spec.moonTolerance as real) &&
    MeetsWindow(previous, current, spec.moonAngle as real, spec.moonTolerance as real)
  }

  ghost function FirstPhase(
    a: Almanac, spec: ScheduleSpec, previous: real, current: int, limit: int): Option<int>
    decreases limit - current
  {
    if current >= limit || a.moonPhase(current).None? then None
    else
      var unwrapped := UnwrapAngle(previous, a.moonPhase(current).value.angleDegrees);
      if PhaseCrossed(spec, previous, unwrapped) then Some(current)
      else FirstPhase(a, spec, unwrapped, current + MINUTE, limit)
  }

  ghost predicate SampledFrom(a: Almanac, start: int, n: nat) {
    forall i: nat :: i <= n ==> a.moonPhase(start + MINUTE * i).Some?
  }

  /** The unwrapped angle after following n samples beyond `start`. */
  ghost function Unwrapped(a: Almanac, start: int, n: nat): real
    requires SampledFrom(a, start, n)
  {
    if n == 0 then
      assert start + MINUTE * 0 == start;
      a.moonPhase(start).value.angleDegrees
    else
      UnwrapAngle(Unwrapped(a, start, n - 1), a.moonPhase(start + MINUTE * n).value.angleDegrees)
  }

  /** However long the search runs, the unwrapped angle is the sampled angle up to whole turns,
      so the periodic window sees the moon itself. */
  lemma {:induction false} UnwrappedIsSampled(a: Almanac, start: int, n: nat, center: real, tolerance: real)
    requires SampledFrom(a, start, n)
    ensures var sample := a.moonPhase(start + MINUTE * n).value.angleDegrees;
      SameAngle(Unwrapped(a, start, n), sample) &&
      (InWindow(Unwrapped(a, start, n), center, tolerance) <==> InWindow(sample, center, tolerance))
  {
    var sample := a.moonPhase(start + MINUTE * n).value.angleDegrees;
    if n == 0 {
      assert sample - sample == Turns(0);
    } else {
      UnwrapFollows(Unwrapped(a, start, n - 1), sample);
    }
    WindowIsPeriodic(Unwrapped(a, start, n), sample, center, tolerance);
  }

  /** The unwrapped phase enters its window between samples k and k + 1. */
  ghost predicate CrossingAt(a: Almanac, spec: ScheduleSpec, start: int, k: nat) {
    SampledFrom(a, start, k + 1) &&
    PhaseCrossed(spec, Unwrapped(a, start, k), Unwrapped(a, start, k + 1))
  }

  /** The search answers with the first sample at which the unwrapped phase enters its window. */
  lemma {:induction false} FirstPhaseIsFirst(a: Almanac, spec: ScheduleSpec, start: int, i: nat, limit: int)
    returns (k: nat)
    requires SampledFrom(a, start, i)
    requires FirstPhase(a, spec, Unwrapped(a, start, i), start + MINUTE * (i + 1), limit).Some?
    ensures i <= k && start + MINUTE * (k + 1) < limit && CrossingAt(a, spec, start, k)
    ensures FirstPhase(a, spec, Unwrapped(a, start, i), start + MINUTE * (i + 1), limit) == Some(start + MINUTE * (k + 1))
    ensures forall j: nat :: i <= j < k ==> !CrossingAt(a, spec, start, j)
    decreases limit - start - MINUTE * i
  {
    SampledOneMore(a, start, i);
    if CrossingAt(a, spec, start, i) {
      k := i;
    } else {
      assert start + MINUTE * (i + 1) + MINUTE == start + MINUTE * (i + 2);
      k := FirstPhaseIsFirst(a, spec, start, i + 1, limit);
    }
  }

  /** No answer means no such sample in the window, as far as the phase is known without a gap. */
  lemma {:induction false} NoPhaseMissed(a: Almanac, spec: ScheduleSpec, start: int, i: nat, limit: int)
    requires SampledFrom(a, start, i)
    requires FirstPhase(a, spec, Unwrapped(a, start, i), start + MINUTE * (i + 1), limit).None?
    ensures forall k: nat :: i <= k && start + MINUTE * (k + 1) < limit ==> !CrossingAt(a, spec, start, k)
    decreases limit - start - MINUTE * i
  {
    var next := start + MINUTE * (i + 1);
    if next < limit && a.moonPhase(next).Some? {
      SampledOneMore(a, start, i);
      assert !CrossingAt(a, spec, start, i);
      assert next + MINUTE == start + MINUTE * (i + 2);
      NoPhaseMissed(a, spec, start, i + 1, limit);
    }
  }

  lemma SampledOneMore(a: Almanac, start: int, i: nat)
    requires SampledFrom(a, start, i) && a.moonPhase(start + MINUTE * (i + 1)).Some?
    ensures SampledFrom(a, start, i + 1)
  {
  }

  method ComputeNextMoonPhase(a: Almanac, spec: ScheduleSpec, from: int) returns (r: Option<int>)
    ensures r == NextMoonPhase(a, spec, from)
  {
    var current := RoundToNextMinute(from);
    var previousPhase := a.moonPhase(current - MINUTE);
    if previousPhase.None? {
      return None;
    }
    var previousUnwrapped := previousPhase.value.angleDegrees;
    var center, tolerance := spec.moonAngle as real, spec.moonTolerance as real;
    var minuteIndex := 0;
    while minuteIndex < MAX_MOON_SEARCH_MINUTES
      invariant 0 <= minuteIndex <= MAX_MOON_SEARCH_MINUTES
      invariant current == RoundToNextMinute(from) + MINUTE * minuteIndex
      invariant FirstPhase(a, spec, previousUnwrapped, current, MoonLimit(from)) ==
                NextMoonPhase(a, spec, from)
    {
      var currentPhase := a.moonPhase(current);
      if currentPhase.None? {
        return None;
      }
      var currentUnwrapped := UnwrapAngle(previousUnwrapped, currentPhase.value.angleDegrees);
      ValueWindowExact(previousUnwrapped, center, tolerance);
      var meets := SegmentIntersectsPeriodicWindow(previousUnwrapped, currentUnwrapped, center, tolerance);
      if !ValueWithinPeriodicWindow(previousUnwrapped, center, tolerance) && meets {
        return Some(current);
      }
      previousUnwrapped := currentUnwrapped;
      current := current + MINUTE;
      minuteIndex := minuteIndex + 1;
    }
    return None;
  }

  ghost function NextMoonPhase(a: Almanac, spec: ScheduleSpec, from: int): Option<int> {
    var rounded := RoundToNextMinute(from);
    if a.moonPhase(rounded - MINUTE).None? then None
    else FirstPhase(a, spec, a.moonPhase(rounded - MINUTE).value.angleDegrees, rounded, MoonLimit(from))
  }

  /** r is the first sample after `start`, before limit, at which the unwrapped phase enters its window, as far
      as the phase is known without a gap; None when there is none. */
  ghost predicate FirstCrossing(a: Almanac, spec: ScheduleSpec, start: int, limit: int, r: Option<int>) {
    match r
    case Some(t) => exists k: nat :: CrossingFirstAt(a, spec, start, k) && t == start + MINUTE * (k + 1) < limit
    case None => forall k: nat :: start + MINUTE * (k + 1) < limit ==> !CrossingAt(a, spec, start, k)
  }

  ghost predicate CrossingFirstAt(a: Almanac, spec: ScheduleSpec, start: int, k: nat) {
    CrossingAt(a, spec, start, k) && forall j: nat :: j < k ==> !CrossingAt(a, spec, start, j)
  }

  /** The moon-phase search is exact over its window. */
  lemma NextMoonPhaseIsFirst(a: Almanac, spec: ScheduleSpec, from: int)
    ensures FirstCrossing(a, spec, RoundToNextMinute(from) - MINUTE, MoonLimit(from), NextMoonPhase(a, spec, from))
  {
    var start, limit := RoundToNextMinute(from) - MINUTE, MoonLimit(from);
    if a.moonPhase(start).Some? {
      assert SampledFrom(a, start, 0);
      assert start + MINUTE * (0 + 1) == RoundToNextMinute(from);
      if NextMoonPhase(a, spec, from).Some? {
        var k := FirstPhaseIsFirst(a, spec, start, 0, limit);
        assert CrossingFirstAt(a, spec, start, k);
      } else {
        NoPhaseMissed(a, spec, start, 0, limit);
      }
    } else {
      NeverSampled(a, start);
    }
  }

  lemma NeverSampled(a: Almanac, start: int)
    requires a.moonPhase(start).None?
    ensures forall n: nat :: !SampledFrom(a, start, n)
  {
    forall n: nat
      ensures !SampledFrom(a, start, n)
    {
      assert start + MINUTE * 0 == start;
    }
  }

  /** The illumination percentage enters its window between two samples. */
  predicate IlluminationCrossed(spec: ScheduleSpec, previous: real, current: real) {
    var low := spec.illuminationTarget - spec.illuminationTolerance;
    var high := spec.illuminationTarget + spec.illuminationTolerance;
    !(previous >= low - EPSILON && previous <= high + EPSILON) &&
    SegmentIntersectsRange(previous, current, low, high)
  }

  ghost function FirstIllumination(
    a: Almanac, spec: ScheduleSpec, previous: real, current: int, limit: int): Option<int>
    decreases limit - current
  {
    if current >= limit || a.moonPhase(current).None? then None
    else
      var illumination := a.moonPhase(current).value.illumination * 100.0;
      if IlluminationCrossed(spec, previous, illumination) then Some(current)
      else FirstIllumination(a, spec, illumination, current + MINUTE, limit)
  }

  ghost function NextMoonIllumination(a: Almanac, spec: ScheduleSpec, from: int): Option<int> {
    var rounded := RoundToNextMinute(from);
    if a.moonPhase(rounded - MINUTE).None? then None
    else
      FirstIllumination(a, spec, a.moonPhase(rounded - MINUTE).value.illumination * 100.0, rounded,
                        MoonLimit(from))
  }

  /** The illumination enters its window between the samples at t - 1 minute and t. */
  ghost predicate LightCrossing(a: Almanac, spec: ScheduleSpec, t: int) {
    a.moonPhase(t - MINUTE).Some? && a.moonPhase(t).Some? &&
    IlluminationCrossed(spec, a.moonPhase(t - MINUTE).value.illumination * 100.0, a.moonPhase(t).value.illumination * 100.0)
  }

  ghost predicate SampledThrough(a: Almanac, from: int, to: int) {
    forall u :: from <= u <= to && (u - from) % MINUTE == 0 ==> a.moonPhase(u).Some?
  }

  /** r is the first crossing of [from, limit) that the samples reach without a gap. */
  ghost predicate FirstLight(a: Almanac, spec: ScheduleSpec, from: int, limit: int, r: Option<int>) {
    match r
    case Some(t) =>
      from <= t < limit && (t - from) % MINUTE == 0 && SampledThrough(a, from, t) && LightCrossing(a, spec, t) &&
      forall u :: from <= u < t && (u - from) % MINUTE == 0 ==> !LightCrossing(a, spec, u)
    case None =>
      forall u :: from <= u < limit && (u - from) % MINUTE == 0 && SampledThrough(a, from, u) ==> !LightCrossing(a, spec, u)
  }

  lemma {:induction false} FirstIlluminationIsFirst(a: Almanac, spec: ScheduleSpec, current: int, limit: int)
    requires a.moonPhase(current - MINUTE).Some?
    ensures FirstLight(a, spec, current, limit,
              FirstIllumination(a, spec, a.moonPhase(current - MINUTE).value.illumination * 100.0, current, limit))
    decreases limit - current
  {
    if current < limit && a.moonPhase(current).None? {
      assert (current - current) % MINUTE == 0;
      assert forall u :: current <= u ==> !SampledThrough(a, current, u);
    } else if current < limit && !LightCrossing(a, spec, current) {
      var next := current + MINUTE;
      FirstIlluminationIsFirst(a, spec, next, limit);
      Aligned(a, current);
    }
  }

  lemma Aligned(a: Almanac, current: int)
    ensures forall u :: current + MINUTE <= u && SampledThrough(a, current, u) ==> SampledThrough(a, current + MINUTE, u)
    ensures forall u ::
      a.moonPhase(current).Some? && SampledThrough(a, current + MINUTE, u) ==> SampledThrough(a, current, u)
  {
  }

  method ComputeNextMoonIllumination(a: Almanac, spec: ScheduleSpec, from: int) returns (r: Option<int>)
    ensures r == NextMoonIllumination(a, spec, from)
  {
    var current := RoundToNextMinute(from);
    var previousPhase := a.moonPhase(current - MINUTE);
    if previousPhase.None? {
      return None;
    }
    var previous := previousPhase.value.illumination * 100.0;
    var minuteIndex := 0;
    while minuteIndex < MAX_MOON_SEARCH_MINUTES
      invariant 0 <= minuteIndex <= MAX_MOON_SEARCH_MINUTES
      invariant current == RoundToNextMinute(from) + MINUTE * minuteIndex
      invariant FirstIllumination(a, spec, previous, current, MoonLimit(from)) ==
                NextMoonIllumination(a, spec, from)
    {
      var currentPhase := a.moonPhase(current);
      if currentPhase.None? {
        return None;
      }
      var illumination := currentPhase.value.illumination * 100.0;
      if IlluminationCrossed(spec, previous, illumination) {
        return Some(current);
      }
      previous := illumination;
      current := current + MINUTE;
      minuteIndex := minuteIndex + 1;
    }
    return None;
  }

  // ---------- All kinds ----------

  ghost function Next(a: Almanac, spec: ScheduleSpec, from: int): Option<int> {
    match ResolvedKind(spec)
    case OneShotUtc => Some(spec.onceAt)
    case Cron => NextCron(a, spec, from)
    case Sunrise => NextSun(a, spec, from, true)
    case Sunset => NextSun(a, spec, from, false)
    case MoonPhaseAngle => NextMoonPhase(a, spec, from)
    case MoonIlluminationPercent => NextMoonIllumination(a, spec, from)
  }

  // ---------- What an answer means ----------

  /** The sun event of the day starting at `day`, moved by the offset, is at or after `rounded`. */
  predicate EventAfter(event: int -> Option<int>, offsetMinutes: int, rounded: int, day: int) {
    event(day).Some? && event(day).value + 60 * offsetMinutes >= rounded
  }

  /** r is that event for the first of the days start, start + 1 day, ... before limit; None when there is none. */
  ghost predicate FirstEvent(
    event: int -> Option<int>, offsetMinutes: int, rounded: int, start: int, limit: int, r: Option<int>)
  {
    match r
    case Some(t) => exists day :: EventOn(event, offsetMinutes, rounded, start, limit, t, day)
    case None => forall u :: start <= u < limit && (u - start) % 86400 == 0 ==> !EventAfter(event, offsetMinutes, rounded, u)
  }

  ghost predicate EventOn(
    event: int -> Option<int>, offsetMinutes: int, rounded: int, start: int, limit: int, t: int, day: int)
  {
    start <= day < limit && EventAfter(event, offsetMinutes, rounded, day) && t == event(day).value + 60 * offsetMinutes &&
    forall u :: start <= u < day && (u - start) % 86400 == 0 ==> !EventAfter(event, offsetMinutes, rounded, u)
  }

  /** The moon's illumination is known a minute before, and r is the first crossing from then on; else no answer. */
  ghost predicate FirstLightFrom(a: Almanac, spec: ScheduleSpec, rounded: int, limit: int, r: Option<int>) {
    if a.moonPhase(rounded - 60).Some? then FirstLight(a, spec, rounded, limit, r) else r.None?
  }

  /** What the answer to a schedule of each kind is, from the almanac and the specification alone. */
  ghost predicate Answers(a: Almanac, spec: ScheduleSpec, from: int, r: Option<int>) {
    var rounded := RoundToNextMinute(from);
    var today := StartOfDayLocal(a, rounded);
    match spec.kind
    case OneShotUtc => r == Some(spec.onceAt)
    case Cron =>
      if spec.isOneShot then r == Some(spec.onceAt)
      else LeastHit(Fires(a, spec), rounded, rounded + 60 * 527040, r)
    case Sunrise => FirstEvent(a.sunrise, spec.sunOffsetMinutes, rounded, today, today + 86400 * 732, r)
    case Sunset => FirstEvent(a.sunset, spec.sunOffsetMinutes, rounded, today, today + 86400 * 732, r)
    case MoonPhaseAngle => FirstCrossing(a, spec, rounded - 60, rounded + 60 * 89280, r)
    case MoonIlluminationPercent => FirstLightFrom(a, spec, rounded, rounded + 60 * 89280, r)
  }

  lemma SunAnswers(a: Almanac, spec: ScheduleSpec, from: int, rising: bool)
    ensures var rounded := RoundToNextMinute(from);
      var today := StartOfDayLocal(a, rounded);
      FirstEvent(if rising then a.sunrise else a.sunset, spec.sunOffsetMinutes, rounded, today, today + 86400 * 732,
                 NextSun(a, spec, from, rising))
  {
    var rounded := RoundToNextMinute(from);
    var today, event := StartOfDayLocal(a, rounded), if rising then a.sunrise else a.sunset;
    NextSunIsFirst(a, spec, from, rising);
    var p, day := SunDays(a, spec, rising, rounded), SunDay(a, spec, from, rising);
    assert forall u :: p(u) <==> EventAfter(event, spec.sunOffsetMinutes, rounded, u);
    if day.Some? {
      assert EventOn(event, spec.sunOffsetMinutes, rounded, today, today + 86400 * 732,
                     NextSun(a, spec, from, rising).value, day.value);
    }
  }

  lemma LightAnswers(a: Almanac, spec: ScheduleSpec, from: int)
    ensures var rounded := RoundToNextMinute(from);
      FirstLightFrom(a, spec, rounded, rounded + 60 * 89280, NextMoonIllumination(a, spec, from))
  {
    var rounded := RoundToNextMinute(from);
    if a.moonPhase(rounded - MINUTE).Some? {
      FirstIlluminationIsFirst(a, spec, rounded, MoonLimit(from));
    }
  }

  /** Every kind of schedule is answered as described, by the search that belongs to it. */
  lemma NextAnswers(a: Almanac, spec: ScheduleSpec, from: int)
    ensures Answers(a, spec, from, Next(a, spec, from))
  {
    match spec.kind
    case OneShotUtc =>
    case Cron => NextCronIsLeast(a, spec, from);
    case Sunrise => SunAnswers(a, spec, from, true);
    case Sunset => SunAnswers(a, spec, from, false);
    case MoonPhaseAngle => NextMoonPhaseIsFirst(a, spec, from);
    case MoonIlluminationPercent => LightAnswers(a, spec, from);
  }

  method ComputeNext(a: Almanac, spec: ScheduleSpec, from: int) returns (r: Option<int>)
    ensures r == Next(a, spec, from) && Answers(a, spec, from, r)
  {
    NextAnswers(a, spec, from);
    match ResolvedKind(spec)
    case OneShotUtc => r := Some(spec.onceAt);
    case Cron => r := ComputeNextCron(a, spec, from);
    case Sunrise => r := ComputeNextSun(a, spec, from, true);
    case Sunset => r := ComputeNextSun(a, spec, from, false);
    case MoonPhaseAngle => r := ComputeNextMoonPhase(a, spec, from);
    case MoonIlluminationPercent => r := ComputeNextMoonIllumination(a, spec, from);
  }

  lemma {:induction false} FirstPhaseNotBefore(
    a: Almanac, spec: ScheduleSpec, previous: real, current: int, limit: int)
    ensures var r := FirstPhase(a, spec, previous, current, limit); r.Some? ==> r.value >= current
    decreases limit - current
  {
    if current < limit && a.moonPhase(current).Some? {
      var unwrapped := UnwrapAngle(previous, a.moonPhase(current).value.angleDegrees);
      FirstPhaseNotBefore(a, spec, unwrapped, current + MINUTE, limit);
    }
  }

  lemma {:induction false} FirstIlluminationNotBefore(
    a: Almanac, spec: ScheduleSpec, previous: real, current: int, limit: int)
    ensures var r := FirstIllumination(a, spec, previous, current, limit); r.Some? ==> r.value >= current
    decreases limit - current
  {
    if current < limit && a.moonPhase(current).Some? {
      var illumination := a.moonPhase(current).value.illumination * 100.0;
      FirstIlluminationNotBefore(a, spec, illumination, current + MINUTE, limit);
    }
  }

  /** No recurring search, of any kind and over any sky, answers with a time before its start. */
  lemma NextNotBefore(a: Almanac, spec: ScheduleSpec, from: int)
    requires !ResolvedKind(spec).OneShotUtc?
    ensures var r := Next(a, spec, from); r.Some? ==> r.value >= from
  {
    var rounded := RoundToNextMinute(from);
    match ResolvedKind(spec)
    case Cron => NextCronIsLeast(a, spec, from);
    case Sunrise => NextSunIsFirst(a, spec, from, true);
    case Sunset => NextSunIsFirst(a, spec, from, false);
    case MoonPhaseAngle =>
      if a.moonPhase(rounded - MINUTE).Some? {
        FirstPhaseNotBefore(a, spec, a.moonPhase(rounded - MINUTE).value.angleDegrees, rounded, MoonLimit(from));
      }
    case MoonIlluminationPercent =>
      if a.moonPhase(rounded - MINUTE).Some? {
        FirstIlluminationNotBefore(a, spec, a.moonPhase(rounded - MINUTE).value.illumination * 100.0, rounded,
                                   MoonLimit(from));
      }
  }

  /** The next occurrence of a schedule at or after a time, as the scheduler core sees it. */
  type Calculator = (ScheduleSpec, int) -> Option<int>

  ghost function CalculatorOf(a: Almanac): Calculator {
    (spec, from) => Next(a, spec, from)
  }

  ghost predicate NeverEarly(when: Calculator) {
    forall spec, from ::
      !ResolvedKind(spec).OneShotUtc? && when(spec, from).Some? ==> when(spec, from).value >= from
  }

  lemma CalculatorNeverEarly(a: Almanac)
    ensures NeverEarly(CalculatorOf(a))
  {
    forall spec, from | !ResolvedKind(spec).OneShotUtc? && CalculatorOf(a)(spec, from).Some?
      ensures CalculatorOf(a)(spec, from).value >= from
    {
      NextNotBefore(a, spec, from);
    }
  }

  // ---------- The rules spelled out ----------

  /** A cron specification fires exactly at the whole local minutes whose month, hour and minute match and whose
      day satisfies the day rule: both day fields if one of them is unrestricted, either of them otherwise. */
  lemma CronMatchExact(a: Almanac, spec: ScheduleSpec, d: Date, hour: int, minute: int)
    requires ValidDate(d) && 0 <= hour < 24 && 0 <= minute < 60
    ensures var n := DayNumber(d);
      var t := 86400 * n + 3600 * hour + 60 * minute - 60 * a.offsetMinutes;
      var dom, dow := Matches(spec.dayOfMonth, d.day), Matches(spec.dayOfWeek, (n + 4) % 7);
      CronMatch(a, spec, t) <==>
        Matches(spec.month, d.month) && Matches(spec.hour, hour) && Matches(spec.minute, minute) &&
        if spec.dayOfMonth.isAny || spec.dayOfWeek.isAny then dom && dow else dom || dow
  {
    var n := DayNumber(d);
    LocalFields(a, n, hour, minute);
    DateRoundTrip(d);
  }

  lemma LocalFields(a: Almanac, n: int, hour: int, minute: int)
    requires 0 <= hour < 24 && 0 <= minute < 60
    ensures var t := 86400 * n + 3600 * hour + 60 * minute - 60 * a.offsetMinutes;
      t % MINUTE == 0 && LocalDay(a, t) == n && MinuteOfDay(a, t) / 60 == hour && MinuteOfDay(a, t) % 60 == minute
  {
    var t := 86400 * n + 3600 * hour + 60 * minute - 60 * a.offsetMinutes;
    var q := 60 * hour + minute;
    assert t == 60 * (1440 * n + q - a.offsetMinutes);
    assert t + MINUTE * a.offsetMinutes == n * DAY + 60 * q;
    assert t - StartOfDayLocal(a, t) == 60 * q;
    assert MinuteOfDay(a, t) == q;
  }

  /** Validation accepts exactly: one-shot jobs; cron fields that each match some value of their range; a sun offset
      of at most a day; and moon windows within their bounds. */
  lemma ValidateExact(spec: ScheduleSpec)
    ensures Validate(spec) <==>
      match spec.kind
      case OneShotUtc => true
      case Cron =>
        spec.isOneShot ||
        ((exists v :: 0 <= v <= 59 && Matches(spec.minute, v)) && (exists v :: 0 <= v <= 23 && Matches(spec.hour, v)) &&
         (exists v :: 1 <= v <= 31 && Matches(spec.dayOfMonth, v)) && (exists v :: 1 <= v <= 12 && Matches(spec.month, v)) &&
         (exists v :: 0 <= v <= 6 && Matches(spec.dayOfWeek, v)))
      case Sunrise => -1440 <= spec.sunOffsetMinutes <= 1440
      case Sunset => -1440 <= spec.sunOffsetMinutes <= 1440
      case MoonPhaseAngle => 0 <= spec.moonAngle < 360 && 0 <= spec.moonTolerance <= 30
      case MoonIlluminationPercent =>
        0.0 <= spec.illuminationTarget <= 100.0 && 0.0 < spec.illuminationTolerance <= 50.0
  {
    WithinRangeExact(spec.minute, 0, 59);
    WithinRangeExact(spec.hour, 0, 23);
    WithinRangeExact(spec.dayOfMonth, 1, 31);
    WithinRangeExact(spec.month, 1, 12);
    WithinRangeExact(spec.dayOfWeek, 0, 6);
  }

  /** The percentage x lies in the window around the target. */
  predicate Lit(spec: ScheduleSpec, x: real) {
    -spec.illuminationTolerance - EPSILON <= x - spec.illuminationTarget <= spec.illuminationTolerance + EPSILON
  }

  /** Illumination crosses between two samples exactly when the first is outside the window and some value on the
      way to the second is inside. */
  lemma IlluminationCrossedIff(spec: ScheduleSpec, previous: real, current: real)
    requires spec.illuminationTolerance > 0.0
    ensures IlluminationCrossed(spec, previous, current) <==>
      !Lit(spec, previous) && exists x :: (previous <= x <= current || current <= x <= previous) && Lit(spec, x)
  {
    var low := spec.illuminationTarget - spec.illuminationTolerance - EPSILON;
    var high := spec.illuminationTarget + spec.illuminationTolerance + EPSILON;
    if IlluminationCrossed(spec, previous, current) {
      var x := if low <= current <= high then current else if previous < low then low else high;
      assert (previous <= x <= current || current <= x <= previous) && Lit(spec, x);
    }
  }
}
