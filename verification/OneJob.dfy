/**
 A scheduler whose only job is alone in the table: the runs that show a promise broken are
 put together from these steps.
 */
module OneJob {
  import opened Wrappers
  import opened Calendar
  import opened ScheduleCalculator
  import opened DueHeaps
  import opened CoreModel

  const ACCEPTS := Env(true, true, true, true, true, true, true)
  const REFUSES := Env(true, true, false, true, true, true, true)
  const ALLOCATES := AddEnv(true, true, true, true, true)

  /** The job in a table of one, armed for its next run. */
  ghost predicate Alone(s: Core, r: JobRecord) {
    s.jobs == [r] && Live(r) && r.hasNext && !r.paused && r.running == 0 && !r.pending && !r.refreshPending && !r.queued &&
    r.job.dispatch.Inline? && !OneShot(r.job) && s.pending == []
  }

  /** The calculator answers every whole minute with itself. */
  ghost predicate EachMinute(when: Calculator, spec: ScheduleSpec) {
    forall d :: d % MINUTE == 0 ==> when(spec, d) == Some(d)
  }

  ghost function Added(when: Calculator, minValid: int, job: Job, now: int): Core {
    Step(when, Init(minValid), Add(job, false, true, now, ALLOCATES))
  }

  ghost function FirstRecord(job: Job, due: int): JobRecord {
    FreshRecord(1, 1, job, false).(nextRun := due, hasNext := true)
  }

  lemma AloneAdded(when: Calculator, minValid: int, job: Job, now: int, due: int)
    requires Validate(job.schedule) && !OneShot(job) && job.dispatch.Inline? && minValid <= now
    requires when(job.schedule, now) == Some(due)
    ensures var s, r := Added(when, minValid, job, now), FirstRecord(job, due);
      Alone(s, r) && s.heap == multiset{EntryOf(r, 0)} && s.log == [] && s.minValid == minValid
  {
  }

  ghost function Ticked(when: Calculator, s: Core, r: JobRecord, now: int, env: Env): Core {
    Step(when, s, Dispatch(EntryOf(r, 0), now, env))
  }

  lemma TickIsInline(when: Calculator, s: Core, r: JobRecord, now: int, env: Env)
    requires Alone(s, r) && Minimal(EntryOf(r, 0), s.heap) && r.nextRun <= now && s.minValid <= now
    ensures Ticked(when, s, r, now, env) == DispatchInline(when, PopEntry(s, EntryOf(r, 0)), 0, now, env)
  {
    assert Enabled(s, Dispatch(EntryOf(r, 0), now, env));
  }

  /** Dispatched and armed again. */
  lemma AloneDispatched(when: Calculator, s: Core, r: JobRecord, now: int, next: int)
    requires Alone(s, r) && Minimal(EntryOf(r, 0), s.heap) && r.nextRun <= now && s.minValid <= now
    requires when(r.job.schedule, r.nextRun + MINUTE) == Some(next)
    ensures var t, q := Ticked(when, s, r, now, ACCEPTS), r.(nextRun := next);
      Alone(t, q) && t.log == s.log + [Submission(r.id, r.job, r.nextRun, now)] && t.minValid == s.minValid &&
      t.heap == s.heap - multiset{EntryOf(r, 0)} + multiset{EntryOf(q, 0)}
  {
    TickIsInline(when, s, r, now, ACCEPTS);
    AloneInline(when, PopEntry(s, EntryOf(r, 0)), r, now, next);
  }

  lemma AloneInline(when: Calculator, s: Core, r: JobRecord, now: int, next: int)
    requires Alone(s, r) && when(r.job.schedule, r.nextRun + MINUTE) == Some(next)
    ensures var t, q := DispatchInline(when, s, 0, now, ACCEPTS), r.(nextRun := next);
      Alone(t, q) && t.log == s.log + [Submission(r.id, r.job, r.nextRun, now)] && t.minValid == s.minValid &&
      t.heap == s.heap + multiset{EntryOf(q, 0)}
  {
    var s2 := Advance(when, s, 0, r.nextRun, false, true);
    assert s2.jobs == [r.(nextRun := next)];
    var s3 := Finished(Submitted(s2, 0, r.nextRun, now), 0);
    assert s3.jobs == s2.jobs;
    assert Settle(s3, 0, now, ACCEPTS) == s3;
  }

  /** Refused, and armed for a second later. */
  lemma AloneRefused(when: Calculator, s: Core, r: JobRecord, now: int)
    requires Alone(s, r) && Minimal(EntryOf(r, 0), s.heap) && r.nextRun <= now && s.minValid <= now
    requires when(r.job.schedule, r.nextRun + MINUTE).Some?
    ensures var t, q := Ticked(when, s, r, now, REFUSES), r.(nextRun := now + 1);
      Alone(t, q) && t.log == s.log && t.minValid == s.minValid &&
      t.heap == s.heap - multiset{EntryOf(r, 0)} +
        multiset{EntryOf(r.(nextRun := when(r.job.schedule, r.nextRun + MINUTE).value), 0)} + multiset{EntryOf(q, 0)}
  {
    TickIsInline(when, s, r, now, REFUSES);
    InlineRefused(when, PopEntry(s, EntryOf(r, 0)), r, now);
  }

  lemma InlineRefused(when: Calculator, s: Core, r: JobRecord, now: int)
    requires Alone(s, r) && when(r.job.schedule, r.nextRun + MINUTE).Some?
    ensures var t, q := DispatchInline(when, s, 0, now, REFUSES), r.(nextRun := now + 1);
      Alone(t, q) && t.log == s.log && t.minValid == s.minValid &&
      t.heap == s.heap + multiset{EntryOf(r.(nextRun := when(r.job.schedule, r.nextRun + MINUTE).value), 0)} +
        multiset{EntryOf(q, 0)}
  {
    var s2 := Advance(when, s, 0, r.nextRun, false, true);
    var n := r.(nextRun := when(r.job.schedule, r.nextRun + MINUTE).value);
    assert s2.jobs == [n];
    assert [n][0 := r.(nextRun := now + 1)] == [r.(nextRun := now + 1)];
  }

  /** Dispatched for the last time in its search window: it ends up pending. */
  lemma AloneRunsOut(when: Calculator, s: Core, r: JobRecord, now: int)
    requires Alone(s, r) && Minimal(EntryOf(r, 0), s.heap) && r.nextRun <= now && s.minValid <= now
    requires when(r.job.schedule, r.nextRun + MINUTE).None?
    ensures var t := Ticked(when, s, r, now, ACCEPTS);
      t.jobs == [r.(hasNext := false, pending := true, scheduleFrom := now)] && t.pending == [0] &&
      t.heap == s.heap - multiset{EntryOf(r, 0)} && t.log == s.log + [Submission(r.id, r.job, r.nextRun, now)]
  {
    TickIsInline(when, s, r, now, ACCEPTS);
    InlineRunsOut(when, PopEntry(s, EntryOf(r, 0)), r, now);
  }

  lemma InlineRunsOut(when: Calculator, s: Core, r: JobRecord, now: int)
    requires Alone(s, r) && when(r.job.schedule, r.nextRun + MINUTE).None?
    ensures var t := DispatchInline(when, s, 0, now, ACCEPTS);
      t.jobs == [r.(hasNext := false, pending := true, scheduleFrom := now)] && t.pending == [0] &&
      t.heap == s.heap && t.log == s.log + [Submission(r.id, r.job, r.nextRun, now)]
  {
    var s2 := Advance(when, s, 0, r.nextRun, false, true);
    assert s2.jobs == [r.(hasNext := false)];
    var s3 := Finished(Submitted(s2, 0, r.nextRun, now), 0);
    assert s3.jobs == s2.jobs && s3.pending + [0] == [0];
    QueuedLast(s3, s2.jobs[0], now);
  }

  lemma QueuedLast(s: Core, r: JobRecord, now: int)
    requires s.jobs == [r] && Live(r) && !r.paused && r.running == 0 && !r.refreshPending && !r.hasNext && !r.pending
    requires !OneShot(r.job)
    ensures Settle(s, 0, now, ACCEPTS) ==
      s.(jobs := [r.(pending := true, scheduleFrom := now)], pending := s.pending + [0])
  {
    assert Settle(s, 0, now, ACCEPTS) == QueueScheduling(s, 0, now, true);
  }

  lemma AloneRefreshed(when: Calculator, s: Core, r: JobRecord, now: int)
    requires Alone(s, r) && when(r.job.schedule, now) == Some(now)
    ensures var t, q := Step(when, s, Refresh(0, now, true)), r.(nextRun := now);
      Alone(t, q) && t.heap == s.heap + multiset{EntryOf(q, 0)} && t.log == s.log && t.minValid == s.minValid
  {
    RefreshedSlot(when, s, 0, now, true);
    assert Enabled(s, Refresh(0, now, true));
  }

  /** Paused, resumed and drained at the same time. */
  ghost function Resumed(when: Calculator, s: Core, now: int): Core {
    Step(when, Step(when, Step(when, s, Pause(0)), Resume(0, now, true)), Drain(now, true))
  }

  lemma AloneResumed(when: Calculator, s: Core, r: JobRecord, now: int)
    requires Alone(s, r) && when(r.job.schedule, now) == Some(now) && s.minValid <= now
    ensures var t, q := Resumed(when, s, now), r.(nextRun := now, scheduleFrom := now);
      Alone(t, q) && t.heap == s.heap + multiset{EntryOf(q, 0)} && t.log == s.log && t.minValid == s.minValid
  {
    var s1 := Step(when, s, Pause(0));
    var p := r.(paused := true, hasNext := false);
    assert s1 == s.(jobs := [p]) by {
      assert Enabled(s, Pause(0)) && s.jobs[0 := p] == [p];
    }
    var s2 := Step(when, s1, Resume(0, now, true));
    var q := r.(hasNext := false, pending := true, scheduleFrom := now);
    assert s2 == s.(jobs := [q], pending := [0]) by {
      QueuedAlone(s1, p, now);
      assert Enabled(s1, Resume(0, now, true));
    }
    DrainedAlone(when, s2, q, now);
    assert Enabled(s2, Drain(now, true));
  }

  lemma QueuedAlone(s: Core, p: JobRecord, now: int)
    requires s.jobs == [p] && Live(p) && p.paused && p.running == 0 && !p.pending && !p.queued && s.pending == []
    ensures ResumeSlot(s, 0, now, true) ==
      s.(jobs := [p.(paused := false, hasNext := false, pending := true, scheduleFrom := now)], pending := [0])
  {
    assert s.pending + [0] == [0];
  }

  lemma DrainedAlone(when: Calculator, s: Core, q: JobRecord, now: int)
    requires s.jobs == [q] && s.pending == [0] && Live(q) && !q.paused && q.running == 0 && !q.refreshPending
    requires !OneShot(q.job) && q.scheduleFrom == now && when(q.job.schedule, now) == Some(now)
    ensures var t, r := DrainLast(when, s, true), q.(pending := false, hasNext := true, nextRun := now);
      t.jobs == [r] && t.pending == [] && t.heap == s.heap + multiset{EntryOf(r, 0)} && t.log == s.log &&
      t.minValid == s.minValid
  {
    assert s.pending[..0] == [];
    var s1 := Put(s.(pending := []), 0, q.(pending := false));
    assert s1.jobs == [q.(pending := false)];
  }

  // ---------- The every-minute job ----------

  function EveryMinute(): Job { Job(ANY_SPEC(), Inline, SkipIfRunning, 0, false) }

  lemma EveryMinuteIsCron()
    ensures EveryMinute().schedule == ANY_SPEC() && Validate(ANY_SPEC()) && !OneShot(EveryMinute())
    ensures EveryMinute().dispatch.Inline?
  {
  }

  lemma AnyMatches(a: Almanac, t: int)
    requires t % MINUTE == 0
    ensures CronMatch(a, ANY_SPEC(), t)
  {
  }

  lemma AnyNext(a: Almanac, from: int)
    ensures CalculatorOf(a)(ANY_SPEC(), from) == Some(RoundToNextMinute(from))
  {
    var start := RoundToNextMinute(from);
    AnyMatches(a, start);
    assert Fires(a, ANY_SPEC())(start);
    assert FirstHit(Fires(a, ANY_SPEC()), start, SearchLimit(from)) == Some(start);
  }

  lemma AnyIsEachMinute(a: Almanac)
    ensures EachMinute(CalculatorOf(a), ANY_SPEC())
  {
    forall d | d % MINUTE == 0
      ensures CalculatorOf(a)(ANY_SPEC(), d) == Some(d)
    {
      AnyNext(a, d);
    }
  }
}
