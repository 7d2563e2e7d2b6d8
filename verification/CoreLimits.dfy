/**
 Promises a reader of core/scheduler_core.cpp might expect and that the code keeps only
 under a condition: for each, the exact condition and a run that breaks the promise.
 */
module CoreLimits {
  import opened Wrappers
  import opened Calendar
  import opened ScheduleCalculator
  import opened CoreModel
  import opened CoreInvariant
  import opened CronPass
  import opened CronCoverage
  import opened OneJob
  import opened DispatchPass

  // ---------- "A refreshed job has no next run before the refresh" ----------

  lemma DrainedTwice(when: Calculator, r: JobRecord)
    ensures DrainedRecord(when, DrainedRecord(when, r)) == DrainedRecord(when, r)
  {
  }

  /** t is s after the last n entries of its pending list were drained. */
  ghost predicate DrainedBy(when: Calculator, s: Core, t: Core, n: nat) {
    n <= |s.pending| && |t.jobs| == |s.jobs| && t.pending == s.pending[..|s.pending| - n] && t.minValid == s.minValid &&
    forall k :: 0 <= k < |s.jobs| ==>
      t.jobs[k] == if k in s.pending[|s.pending| - n..] then DrainedRecord(when, s.jobs[k]) else s.jobs[k]
  }

  lemma DrainedByNext(when: Calculator, s: Core, t: Core, n: nat)
    requires DrainedBy(when, s, t, n) && n < |s.pending| && PendingOk(s)
    ensures DrainedBy(when, s, DrainLast(when, t, true), n + 1)
  {
    var m := |s.pending| - n - 1;
    DrainLastJobs(when, t);
    assert s.pending[m..] == [s.pending[m]] + s.pending[m + 1..];
    DrainedTwice(when, s.jobs[s.pending[m]]);
  }

  /** Drained entry by entry by any step function that drains one entry at a time. */
  lemma {:induction false} DrainLoop(
    when: Calculator, s: Core, now: int, env: nat -> Env, n: nat, step: (Core, Label) -> Core, run: seq<Label> -> Core)
    requires n <= |s.pending| && (forall i :: env(i).push) && run([]) == s
    requires forall t: seq<Label>, l: Label :: run(t + [l]) == step(run(t), l)
    requires forall t, m: nat ::
      DrainedBy(when, s, t, m) && m < |s.pending| ==> DrainedBy(when, s, step(t, Drain(now, true)), m + 1)
    ensures DrainedBy(when, s, run(DrainLabels(now, env, n)), n)
  {
    if n > 0 {
      DrainLoop(when, s, now, env, n - 1, step, run);
    }
  }

  lemma DrainAll(when: Calculator, s: Core, now: int, env: nat -> Env)
    requires PendingOk(s) && ClockValid(s, now) && forall i :: env(i).push
    ensures DrainedBy(when, s, Run(when, s, DrainLabels(now, env, |s.pending|)), |s.pending|)
  {
    var run: seq<Label> -> Core := t => Run(when, s, t);
    var step: (Core, Label) -> Core := (t, l) => Step(when, t, l);
    forall t: seq<Label>, l: Label
      ensures run(t + [l]) == step(run(t), l)
    {
      RunAppend(when, s, t, l);
    }
    forall t, m: nat | DrainedBy(when, s, t, m) && m < |s.pending|
      ensures DrainedBy(when, s, step(t, Drain(now, true)), m + 1)
    {
      DrainStep(when, s, t, now, m);
    }
    DrainLoop(when, s, now, env, |s.pending|, step, run);
  }

  lemma DrainStep(when: Calculator, s: Core, t: Core, now: int, n: nat)
    requires DrainedBy(when, s, t, n) && n < |s.pending| && PendingOk(s) && ClockValid(s, now)
    ensures DrainedBy(when, s, Step(when, t, Drain(now, true)), n + 1)
  {
    assert Enabled(t, Drain(now, true));
    DrainedByNext(when, s, t, n);
  }

  /** After a refresh at now and the drain that follows, a job has a next run before now exactly when it was
      still listed as pending, is idle, and has an occurrence before now from the time it was listed with. */
  lemma StaleStartIff(when: Calculator, s: Core, k: nat, now: int, env: nat -> Env)
    requires Inv(s) && NeverEarly(when) && ClockValid(s, now) && k < |s.jobs| && Refreshable(s.jobs[k])
    requires forall i :: env(i).push
    ensures var s1 := RefreshSlot(when, s, k, now, true);
      var t := Run(when, s1, DrainLabels(now, env, |s1.pending|));
      var r, next := s.jobs[k], when(s.jobs[k].job.schedule, s.jobs[k].scheduleFrom);
      k < |t.jobs| &&
      ((t.jobs[k].hasNext && t.jobs[k].nextRun < now) <==>
        (k in s.pending && r.running == 0 && next.Some? && next.value < now))
  {
    var s1 := RefreshSlot(when, s, k, now, true);
    RefreshKeepsList(when, s, k, now);
    DrainAll(when, s1, now, env);
    var n := |s1.pending|;
    assert s1.pending[n - n..] == s1.pending;
    RefreshedThenDrained(when, s.jobs[k], now);
  }

  lemma RefreshKeepsList(when: Calculator, s: Core, k: nat, now: int)
    requires k < |s.jobs| && Refreshable(s.jobs[k]) && PendingOk(s)
    ensures var t := RefreshSlot(when, s, k, now, true);
      t.pending == s.pending && t.minValid == s.minValid && PendingOk(t) &&
      t.jobs == s.jobs[k := RefreshedRecord(when, s.jobs[k], now, true)]
  {
    RefreshedSlot(when, s, k, now, true);
  }

  lemma RefreshedThenDrained(when: Calculator, r: JobRecord, now: int)
    requires NeverEarly(when) && Refreshable(r)
    ensures var q := RefreshedRecord(when, r, now, true);
      (q.hasNext ==> q.nextRun >= now) &&
      var d, next := DrainedRecord(when, q), when(r.job.schedule, r.scheduleFrom);
      (d.hasNext && d.nextRun < now <==> r.running == 0 && next.Some? && next.value < now)
  {
  }

  // ---------- "A failed submit only delays" ----------

  /** The executor refuses the job of r, or accepts it. */
  predicate Refuses(r: JobRecord, env: Env) {
    if r.job.dispatch.Inline? then !env.inlineExecutor || !env.submit else CannotSubmit(r, env)
  }

  /** t is s with the job in slot k put off to the retry time. */
  ghost predicate PutOff(s: Core, t: Core, k: nat, now: int)
    requires k < |s.jobs|
  {
    |t.jobs| == |s.jobs| && t.log == s.log && t.jobs[k].hasNext && t.jobs[k].nextRun == now + RETRY_DELAY_SECONDS &&
    Continued(s.jobs[k], t.jobs[k])
  }

  predicate Continued(r: JobRecord, q: JobRecord) {
    Live(q) == Live(r) && q.paused == r.paused && q.job == r.job && q.id == r.id && q.running == r.running &&
    (r.refreshPending || !q.refreshPending)
  }

  lemma RetryPutsOff(s: Core, k: nat, now: int)
    requires k < |s.jobs| && Live(s.jobs[k])
    ensures PutOff(s, Retry(s, k, now, true), k, now)
  {
  }

  lemma ScheduleContinues(when: Calculator, s: Core, k: nat, from: int, push: bool)
    requires k < |s.jobs|
    ensures var t := Schedule(when, s, k, from, push);
      |t.jobs| == |s.jobs| && t.log == s.log && Continued(s.jobs[k], t.jobs[k])
  {
    var r := Search(when, s.jobs[k], from);
    assert Continued(s.jobs[k], r) && Continued(s.jobs[k], r.(hasNext := false));
  }

  lemma AdvanceContinues(when: Calculator, s: Core, k: nat, due: int, stop: bool, push: bool)
    requires k < |s.jobs|
    ensures var t := Advance(when, s, k, due, stop, push);
      |t.jobs| == |s.jobs| && t.log == s.log && Continued(s.jobs[k], t.jobs[k])
  {
    if !stop {
      ScheduleContinues(when, s, k, due + MINUTE, push);
    }
  }

  lemma RefusedIsPutOff(when: Calculator, s: Core, k: nat, now: int, env: Env)
    requires k < |s.jobs| && Live(s.jobs[k]) && !s.jobs[k].paused && Refuses(s.jobs[k], env) && env.retryPush
    ensures PutOff(s, DispatchOne(when, s, k, now, env, false), k, now)
  {
    var r := s.jobs[k];
    RetryPutsOff(s, k, now);
    if r.job.dispatch.Inline? && env.inlineExecutor {
      AdvanceContinues(when, s, k, r.nextRun, OneShot(r.job), env.push);
      RetryPutsOff(Advance(when, s, k, r.nextRun, OneShot(r.job), env.push), k, now);
    }
  }

  /** t is s after the job in slot k was submitted for its due time and armed for its next occurrence. */
  ghost predicate MovedOn(when: Calculator, s: Core, t: Core, k: nat, now: int)
    requires k < |s.jobs|
  {
    var r := s.jobs[k];
    var next := when(r.job.schedule, r.nextRun + MINUTE);
    |t.jobs| == |s.jobs| && t.log == s.log + [Submission(r.id, r.job, r.nextRun, now)] &&
    (t.jobs[k].hasNext <==> next.Some?) && (next.Some? ==> t.jobs[k].nextRun == next.value)
  }

  lemma InlineMovesOn(when: Calculator, s: Core, k: nat, now: int, env: Env)
    requires k < |s.jobs| && Live(s.jobs[k]) && !s.jobs[k].paused && !OneShot(s.jobs[k].job) && s.jobs[k].running == 0
    requires env.inlineExecutor && env.submit && env.push
    ensures MovedOn(when, s, DispatchInline(when, s, k, now, env), k, now)
  {
    var r := s.jobs[k];
    var s1 := Advance(when, s, k, r.nextRun, false, true);
    ScheduledNext(when, s, k, r.nextRun + MINUTE);
    assert s1 == Schedule(when, s, k, r.nextRun + MINUTE, true);
    SettledNext(s1, k, r.nextRun, now, env);
    InlineIsSettled(when, s, k, now, env);
  }

  lemma ScheduledNext(when: Calculator, s: Core, k: nat, from: int)
    requires k < |s.jobs| && Live(s.jobs[k]) && !s.jobs[k].paused && !OneShot(s.jobs[k].job)
    ensures var t, next := Schedule(when, s, k, from, true), when(s.jobs[k].job.schedule, from);
      |t.jobs| == |s.jobs| && t.log == s.log && Continued(s.jobs[k], t.jobs[k]) && !t.jobs[k].refreshPending &&
      (t.jobs[k].hasNext <==> next.Some?) && (next.Some? ==> t.jobs[k].nextRun == next.value)
  {
  }

  lemma SettledNext(s: Core, k: nat, due: int, now: int, env: Env)
    requires k < |s.jobs| && Live(s.jobs[k]) && !s.jobs[k].paused && !OneShot(s.jobs[k].job) && s.jobs[k].running == 0
    requires !s.jobs[k].refreshPending
    ensures var t := Settle(Finished(Submitted(s, k, due, now), k), k, now, env);
      |t.jobs| == |s.jobs| && t.log == s.log + [Submission(s.jobs[k].id, s.jobs[k].job, due, now)] &&
      t.jobs[k].hasNext == s.jobs[k].hasNext && t.jobs[k].nextRun == s.jobs[k].nextRun
  {
    var s2 := Finished(Submitted(s, k, due, now), k);
    assert s2.jobs[k] == s.jobs[k];
  }

  lemma AsyncMovesOn(when: Calculator, s: Core, k: nat, now: int, env: Env)
    requires k < |s.jobs| && Live(s.jobs[k]) && !s.jobs[k].paused && !OneShot(s.jobs[k].job)
    requires !CannotSubmit(s.jobs[k], env) && env.push
    ensures MovedOn(when, s, DispatchAsync(when, s, k, now, env, false), k, now)
  {
    var r, s1 := s.jobs[k], Submitted(s, k, s.jobs[k].nextRun, now);
    assert s1.jobs[k] == r.(running := r.running + 1);
    ScheduledNext(when, s1, k, r.nextRun + MINUTE);
    assert DispatchAsync(when, s, k, now, env, false) == Schedule(when, s1, k, r.nextRun + MINUTE, true);
  }

  /** A refused dispatch followed by an accepted one, for any calculator. */
  lemma RefusedThenAccepted(when: Calculator, s: Core, k: nat, now: int, bad: Env, later: int, good: Env)
    requires k < |s.jobs| && Live(s.jobs[k]) && !s.jobs[k].paused && !OneShot(s.jobs[k].job)
    requires s.jobs[k].job.dispatch.Inline? ==> s.jobs[k].running == 0
    requires Refuses(s.jobs[k], bad) && bad.retryPush && !Refuses(s.jobs[k], good) && good.push
    ensures var t := DispatchOne(when, s, k, now, bad, false);
      PutOff(s, t, k, now) && MovedOn(when, t, DispatchOne(when, t, k, later, good, false), k, later)
  {
    RefusedIsPutOff(when, s, k, now, bad);
    var t := DispatchOne(when, s, k, now, bad, false);
    if s.jobs[k].job.dispatch.Inline? {
      InlineMovesOn(when, t, k, later, good);
    } else {
      AsyncMovesOn(when, t, k, later, good);
    }
  }

  /** Where the search that follows a retry ends: the new next run, or the end of its window. */
  ghost function Reach(r: JobRecord, retry: int): int {
    if r.hasNext then r.nextRun else SearchLimit(retry + MINUTE)
  }

  /** An occurrence after d and before `end`, which the job is never dispatched for. */
  ghost predicate Skips(p: int -> bool, d: int, end: int) {
    exists m :: d < m < end && m % MINUTE == 0 && p(m)
  }

  lemma RoundIsNext(from: int, m: int)
    requires from <= m && m % MINUTE == 0
    ensures RoundToNextMinute(from) <= m
  {
  }

  /** The search from `from` jumps over the occurrences before that, and over no other. */
  lemma JumpsOver(p: int -> bool, d: int, from: int, next: Option<int>)
    requires LeastHit(p, RoundToNextMinute(from), SearchLimit(from), next) && d < from
    ensures var end := if next.Some? then next.value else SearchLimit(from);
      from <= end && (Skips(p, d, end) <==> Skips(p, d, from)) &&
      forall m :: from <= m < end && m % MINUTE == 0 ==> !p(m)
  {
    var end := if next.Some? then next.value else SearchLimit(from);
    forall m | from <= m < end && m % MINUTE == 0
      ensures !p(m)
    {
      RoundIsNext(from, m);
    }
    if Skips(p, d, end) {
      var m :| d < m < end && m % MINUTE == 0 && p(m);
      assert m < from;
    }
    if Skips(p, d, from) {
      var m :| d < m < from && m % MINUTE == 0 && p(m);
      assert d < m < end;
    }
  }

  /** What the retry skips: exactly the occurrences between the due time and the retry time plus a minute. */
  ghost predicate SkipsExactly(p: int -> bool, s: Core, t: Core, u: Core, k: nat, now: int)
    requires k < |s.jobs| && k < |t.jobs| && k < |u.jobs|
  {
    var d, from, end := s.jobs[k].nextRun, now + 1 + MINUTE, Reach(u.jobs[k], now + 1);
    (Skips(p, d, end) <==> Skips(p, d, from)) && forall m :: from <= m < end && m % MINUTE == 0 ==> !p(m)
  }

  lemma RetrySkips(when: Calculator, p: int -> bool, s: Core, t: Core, u: Core, k: nat, now: int, later: int)
    requires k < |s.jobs| && Describes(when, s.jobs[k].job.schedule, p) && s.jobs[k].nextRun <= now
    requires PutOff(s, t, k, now) && MovedOn(when, t, u, k, later)
    ensures SkipsExactly(p, s, t, u, k, now)
  {
    var from := now + 1 + MINUTE;
    FirstHitIsLeast(p, RoundToNextMinute(from), SearchLimit(from));
    JumpsOver(p, s.jobs[k].nextRun, from, when(s.jobs[k].job.schedule, from));
  }

  /** A dispatch for d refused at now and accepted later is logged for the retry time, and skips occurrences
      exactly when one lies between d and the retry time plus a minute. */
  lemma FailedSubmitSkipsIff(
    when: Calculator, p: int -> bool, s: Core, k: nat, now: int, bad: Env, later: int, good: Env)
    requires Inv(s) && k < |s.jobs| && Live(s.jobs[k]) && s.jobs[k].hasNext && !OneShot(s.jobs[k].job)
    requires Describes(when, s.jobs[k].job.schedule, p) && s.jobs[k].nextRun <= now
    requires Refuses(s.jobs[k], bad) && bad.retryPush && !Refuses(s.jobs[k], good) && good.push
    ensures var t := DispatchOne(when, s, k, now, bad, false);
      PutOff(s, t, k, now) &&
      var u := DispatchOne(when, t, k, later, good, false);
      MovedOn(when, t, u, k, later) && SkipsExactly(p, s, t, u, k, now)
  {
    assert SlotOk(s, k);
    RefusedThenAccepted(when, s, k, now, bad, later, good);
    var t := DispatchOne(when, s, k, now, bad, false);
    RetrySkips(when, p, s, t, DispatchOne(when, t, k, later, good, false), k, now, later);
  }

  // ---------- Runs that break the promises, with the real calculator ----------

  /** A job added on an invalid clock and refreshed before it was drained gets a next run in the past. */
  lemma StaleStartHappens(a: Almanac, when: Calculator, job: Job, early: int, now: int)
    requires when == CalculatorOf(a) && job == EveryMinute() && RoundToNextMinute(early) < now
    ensures var t := Step(when, Step(when, Added(when, now, job, early), Refresh(0, now, true)), Drain(now, true));
      |t.jobs| == 1 && t.jobs[0].hasNext && t.jobs[0].nextRun == RoundToNextMinute(early) < now
  {
    EveryMinuteIsCron();
    AnyNext(a, early);
    LateJob(when, job, early, now);
    StaleRun(when, Added(when, now, job, early), early, now);
  }

  lemma LateJob(when: Calculator, job: Job, early: int, now: int)
    requires Validate(job.schedule) && !OneShot(job) && early < now
    ensures var s := Added(when, now, job, early);
      s.jobs == [FreshRecord(1, 1, job, false).(scheduleFrom := early, pending := true)] && s.pending == [0] && s.minValid == now
  {
  }

  lemma StaleRun(when: Calculator, s: Core, early: int, now: int)
    requires |s.jobs| == 1 && s.pending == [0] && s.minValid == now && Refreshable(s.jobs[0]) && s.jobs[0].running == 0
    requires s.jobs[0].scheduleFrom == early && when(s.jobs[0].job.schedule, early).Some?
    ensures var t := Step(when, Step(when, s, Refresh(0, now, true)), Drain(now, true));
      |t.jobs| == 1 && t.jobs[0].hasNext && t.jobs[0].nextRun == when(s.jobs[0].job.schedule, early).value
  {
    var s1 := RefreshSlot(when, s, 0, now, true);
    RefreshKeepsList(when, s, 0, now);
    assert Enabled(s, Refresh(0, now, true));
    DrainLastJobs(when, s1);
    assert Enabled(s1, Drain(now, true));
  }

  /** Added at d, refused at d, accepted a second later: the only submission is for d + 1, and the next run is
      two minutes after d. */
  ghost predicate LosesMinute(when: Calculator, job: Job, d: int) {
    var s := Added(when, d, job, d);
    var t := Ticked(when, s, FirstRecord(job, d), d, REFUSES);
    var u := Ticked(when, t, FirstRecord(job, d + 1), d + 1, ACCEPTS);
    u.jobs == [FirstRecord(job, d + 2 * MINUTE)] && u.log == [Submission(1, job, d + 1, d + 1)]
  }

  lemma SkipRun(when: Calculator, job: Job, d: int)
    requires Validate(job.schedule) && !OneShot(job) && job.dispatch.Inline? && d % MINUTE == 0
    requires when(job.schedule, d) == Some(d) && when(job.schedule, d + MINUTE) == Some(d + MINUTE)
    requires when(job.schedule, d + 1 + MINUTE) == Some(d + 2 * MINUTE)
    ensures LosesMinute(when, job, d)
  {
    var r := FirstRecord(job, d);
    AloneAdded(when, d, job, d, d);
    var s := Added(when, d, job, d);
    AloneRefused(when, s, r, d);
    var t := Ticked(when, s, r, d, REFUSES);
    AloneDispatched(when, t, FirstRecord(job, d + 1), d + 1, d + 2 * MINUTE);
  }

  /** A refused submit makes an every-minute job lose the next minute, which it matches. */
  lemma EveryMinuteSkips(a: Almanac, when: Calculator, job: Job, d: int)
    requires when == CalculatorOf(a) && job == EveryMinute() && d % MINUTE == 0
    ensures LosesMinute(when, job, d) && CronMatch(a, job.schedule, d + MINUTE)
  {
    EveryMinuteIsCron();
    RoundAfterRetry(d);
    AnyMatches(a, d + MINUTE);
    MinuteAfterRetry(a, d);
    assert EachMinute(when, job.schedule) by {
      AnyIsEachMinute(a);
    }
    SkipRun(when, job, d);
  }

  lemma RoundAfterRetry(d: int)
    requires d % MINUTE == 0
    ensures RoundToNextMinute(d + 1 + MINUTE) == d + 2 * MINUTE && (d + MINUTE) % MINUTE == 0
  {
  }

  lemma MinuteAfterRetry(a: Almanac, d: int)
    requires d % MINUTE == 0
    ensures CalculatorOf(a)(ANY_SPEC(), d + 1 + MINUTE) == Some(d + 2 * MINUTE)
  {
    AnyNext(a, d + 1 + MINUTE);
    assert RoundToNextMinute(d + 1 + MINUTE) == d + 2 * MINUTE by {
      RoundAfterRetry(d);
    }
  }

  // ---------- "The service wakes for every live job" ----------

  /** A run that leaves a live job pending, which nothing wakes for: midnight of 29 February, dispatched on its
      day, has no occurrence in the search window that follows. */
  lemma RunsOutHappens(a: Almanac, when: Calculator, job: Job, n: int)
    requires when == CalculatorOf(a) && LeapMidnight(job.schedule) && job.dispatch.Inline? && LeapDay(n)
    ensures RunsOut(when, job, Instant(a, n, 0))
  {
    var d := Instant(a, n, 0);
    LeapMidnightRunsOut(a, job.schedule, n);
    assert when(job.schedule, d) == Some(d) && when(job.schedule, d + MINUTE).None?;
    RunOutRun(when, job, d);
  }

  /** Added and dispatched at d, the only job is left pending, with no entry in the heap. */
  ghost predicate RunsOut(when: Calculator, job: Job, d: int) {
    var t := Ticked(when, Added(when, d, job, d), FirstRecord(job, d), d, ACCEPTS);
    t.pending == [0] && t.heap == multiset{} && |t.jobs| == 1 && Exhausted(when, t.jobs[0], d)
  }

  lemma RunOutRun(when: Calculator, job: Job, d: int)
    requires Validate(job.schedule) && !OneShot(job) && job.dispatch.Inline?
    requires when(job.schedule, d) == Some(d) && when(job.schedule, d + MINUTE).None?
    ensures RunsOut(when, job, d)
  {
    AloneAdded(when, d, job, d, d);
    AloneRunsOut(when, Added(when, d, job, d), FirstRecord(job, d), d);
  }
}
