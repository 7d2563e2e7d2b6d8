/**
 What one step of the scheduler core does, case by case, in terms of the records, lists and
 submissions a caller could observe (core/scheduler_core.cpp); and what follows over whole
 runs for a queued run and for a job that its completion leaves idle.
 */
module CoreBehaviour {
  import opened Wrappers
  import opened ScheduleCalculator
  import opened DueHeaps
  import opened CoreModel
  import opened CoreInvariant
  import opened CoreSteps
  import opened CoreHistory
  import opened CronPass
  import opened DueOrder

  // ---------- Observations ----------

  /** The next run a search from `from` should give the job: its own time if it runs once, else its schedule's. */
  ghost function NextFor(when: Calculator, j: Job, from: int): Option<int> {
    if j.schedule.isOneShot || j.schedule.kind == OneShotUtc then Some(j.schedule.onceAt) else when(j.schedule, from)
  }

  /** The executor takes the job: inline jobs need the inline executor; a job with its own task options needs
      the dedicated one. */
  predicate Takes(j: Job, env: Env) {
    env.submit &&
    if j.dispatch == Inline then env.inlineExecutor else env.executor && (j.hasDedicatedTask ==> j.executorId == 1)
  }

  /** Slot k is armed for exactly `next`, with the heap entry that goes with it. */
  ghost predicate ArmedFor(t: Core, k: nat, next: Option<int>) {
    k < |t.jobs| && t.jobs[k].hasNext == next.Some? &&
    (next.Some? ==>
      t.jobs[k].nextRun == next.value && DueEntry(next.value, k, t.jobs[k].generation) in t.heap)
  }

  /** Slot k waits in the pending list to be searched from `from`. */
  predicate WaitsFrom(t: Core, k: nat, from: int) {
    k < |t.jobs| && t.jobs[k].pending && t.jobs[k].scheduleFrom == from && !t.jobs[k].hasNext && k in t.pending
  }

  /** Slot k still holds the same job, live or not, with the given count of invocations. */
  predicate Holds(s: Core, t: Core, k: nat, running: int)
    requires k < |s.jobs|
  {
    k < |t.jobs| && t.jobs[k].occupied && t.jobs[k].id == s.jobs[k].id && t.jobs[k].job == s.jobs[k].job &&
    t.jobs[k].generation == s.jobs[k].generation && t.jobs[k].canceled == s.jobs[k].canceled &&
    t.jobs[k].paused == s.jobs[k].paused && t.jobs[k].running == running
  }

  /** Exactly one invocation was submitted, for `due`, at `now`. */
  predicate SubmittedOne(s: Core, t: Core, k: nat, due: int, now: int)
    requires k < |s.jobs|
  {
    t.log == s.log + [Submission(s.jobs[k].id, s.jobs[k].job, due, now)]
  }

  predicate NothingSubmitted(s: Core, t: Core) { t.log == s.log && t.inflight == s.inflight }

  /** A job that may be dispatched. */
  predicate Ready(r: JobRecord) { r.occupied && !r.canceled && !r.paused }

  predicate Recurring(j: Job) { !j.schedule.isOneShot && j.schedule.kind != OneShotUtc }

  lemma NamesAgree(r: JobRecord, env: Env)
    ensures Takes(r.job, env) <==> !RefusedBy(r, env)
    ensures Recurring(r.job) <==> !OneShot(r.job)
    ensures Ready(r) <==> Live(r) && !r.paused
  {
  }

  /** The answers under which the model retries. */
  predicate RefusedBy(r: JobRecord, env: Env) {
    if r.job.dispatch.Inline? then !env.inlineExecutor || !env.submit else CannotSubmit(r, env)
  }

  // ---------- Searching and arming ----------

  lemma SearchArms(when: Calculator, s: Core, k: nat, from: int)
    requires k < |s.jobs| && Ready(s.jobs[k])
    ensures var t := Schedule(when, s, k, from, true);
      ArmedFor(t, k, NextFor(when, s.jobs[k].job, from)) && Holds(s, t, k, s.jobs[k].running) && NothingSubmitted(s, t)
  {
    assert EntryOf(Search(when, s.jobs[k], from), k).slot == k;
  }

  /** On a refused push the job has no next run. */
  lemma SearchUnpushed(when: Calculator, s: Core, k: nat, from: int)
    requires k < |s.jobs| && Ready(s.jobs[k])
    ensures var t := Schedule(when, s, k, from, false); k < |t.jobs| && !t.jobs[k].hasNext && t.heap == s.heap
  {
  }

  /** Queueing a ready job records the start time even if it is queued already. */
  lemma QueueWaits(s: Core, k: nat, from: int, pend: bool)
    requires k < |s.jobs| && Ready(s.jobs[k]) && (s.jobs[k].pending ==> k in s.pending) && (pend || s.jobs[k].pending)
    ensures var t := QueueScheduling(s, k, from, pend);
      WaitsFrom(t, k, from) && Holds(s, t, k, s.jobs[k].running) && NothingSubmitted(s, t) && t.heap == s.heap
  {
  }

  // ---------- addJob ----------

  /** The new record holds the given job under a fresh id, idle and paused as asked. */
  lemma AddStoresJob(when: Calculator, s: Core, add: Label)
    requires Inv(s) && add.Add? && AddSucceeds(s, add.job, add.startPaused, add.callback, add.now, add.add)
    ensures var t, k := Step(when, s, add), AddSlot(s);
      k < |t.jobs| && t.jobs[k].occupied && !t.jobs[k].canceled && t.jobs[k].job == add.job && t.jobs[k].id == s.nextId &&
      t.jobs[k].paused == add.startPaused && t.jobs[k].running == 0 && !t.jobs[k].queued && t.nextId == s.nextId + 1 &&
      NothingSubmitted(s, t) && s.nextId in t.index && t.index[s.nextId] == k
  {
    PlacedStores(s, add.job, add.startPaused);
    AddFlags(when, s, add);
    var p, k := Placed(s, add.job, add.startPaused), AddSlot(s);
    SearchKeeps(when, p, k, add.now, add.add.push);
    QueueKeepsJob(p, k, add.now, add.add.pend);
  }

  predicate SameJobAndIndex(s: Core, t: Core, k: nat)
    requires k < |s.jobs|
  {
    Holds(s, t, k, s.jobs[k].running) && t.jobs[k].queued == s.jobs[k].queued && NothingSubmitted(s, t) &&
    t.index == s.index && t.nextId == s.nextId
  }

  predicate SameJob(r: JobRecord, q: JobRecord) {
    q.id == r.id && q.generation == r.generation && q.occupied == r.occupied && q.job == r.job && q.canceled == r.canceled &&
    q.paused == r.paused && q.running == r.running && q.queued == r.queued
  }

  lemma SearchedSameJob(when: Calculator, r: JobRecord, from: int)
    ensures SameJob(r, Search(when, r, from)) && SameJob(r, Search(when, r, from).(hasNext := false))
  {
  }

  lemma SearchKeeps(when: Calculator, s: Core, k: nat, from: int, push: bool)
    requires k < |s.jobs| && s.jobs[k].occupied
    ensures SameJobAndIndex(s, Schedule(when, s, k, from, push), k)
  {
    SearchedSameJob(when, s.jobs[k], from);
    ArmKeeps(s.(missed := MissedAfter(when, s.missed, s.jobs[k], from)), k, Search(when, s.jobs[k], from), push);
  }

  lemma ArmKeeps(s: Core, k: nat, q: JobRecord, push: bool)
    requires k < |s.jobs| && s.jobs[k].occupied && SameJob(s.jobs[k], q) && SameJob(s.jobs[k], q.(hasNext := false))
    ensures SameJobAndIndex(s, Arm(s, k, q, push), k)
  {
  }

  lemma QueueKeepsJob(s: Core, k: nat, from: int, pend: bool)
    requires k < |s.jobs| && s.jobs[k].occupied
    ensures SameJobAndIndex(s, QueueScheduling(s, k, from, pend), k)
  {
  }

  lemma PlacedStores(s: Core, job: Job, paused: bool)
    requires FreeOk(s)
    ensures var t, k := Placed(s, job, paused), AddSlot(s);
      k < |t.jobs| && t.jobs[k] == FreshRecord(s.nextId, t.jobs[k].generation, job, paused) && t.log == s.log &&
      t.inflight == s.inflight && t.index == s.index[s.nextId := k] && t.nextId == s.nextId + 1 && t.heap == s.heap &&
      t.pending == s.pending && t.minValid == s.minValid
  {
  }

  lemma AddFlags(when: Calculator, s: Core, add: Label)
    requires Inv(s) && add.Add? && AddSucceeds(s, add.job, add.startPaused, add.callback, add.now, add.add)
    ensures var t, k, p := Step(when, s, add), AddSlot(s), Placed(s, add.job, add.startPaused);
      t == if add.startPaused then p
           else if add.now >= s.minValid then Schedule(when, p, k, add.now, add.add.push)
           else QueueScheduling(p, k, add.now, add.add.pend)
  {
  }

  /** An unpaused job added on a valid clock is armed from now: a one-shot job for its own time. */
  lemma AddArms(when: Calculator, s: Core, add: Label)
    requires Inv(s) && add.Add? && AddSucceeds(s, add.job, add.startPaused, add.callback, add.now, add.add)
    requires !add.startPaused && add.now >= s.minValid && add.add.push
    ensures ArmedFor(Step(when, s, add), AddSlot(s), NextFor(when, add.job, add.now))
  {
    AddFlags(when, s, add);
    PlacedStores(s, add.job, false);
    SearchArms(when, Placed(s, add.job, false), AddSlot(s), add.now);
  }

  /** On an invalid clock it waits to be searched from now; a paused one has neither. */
  lemma AddWaits(when: Calculator, s: Core, add: Label)
    requires Inv(s) && add.Add? && AddSucceeds(s, add.job, add.startPaused, add.callback, add.now, add.add)
    ensures !add.startPaused && add.now < s.minValid ==> WaitsFrom(Step(when, s, add), AddSlot(s), add.now)
    ensures add.startPaused ==>
      var t, k := Step(when, s, add), AddSlot(s); k < |t.jobs| && !t.jobs[k].hasNext && !t.jobs[k].pending
  {
    AddFlags(when, s, add);
    PlacedStores(s, add.job, add.startPaused);
    if !add.startPaused && add.now < s.minValid {
      QueueWaits(Placed(s, add.job, false), AddSlot(s), add.now, add.add.pend);
    }
  }

  // ---------- cancelJob, pauseJob, resumeJob, refreshAllSchedules ----------

  /** An idle job's slot is free at once and one generation on; a running one only loses its runs to come. */
  lemma CancelFreesIdle(when: Calculator, s: Core, k: nat, grow: bool)
    requires Inv(s) && k < |s.jobs| && Live(s.jobs[k])
    ensures var t, r := Step(when, s, Cancel(k, grow)), s.jobs[k];
      k < |t.jobs| && NothingSubmitted(s, t) &&
      if r.running == 0 then
        !t.jobs[k].occupied && t.jobs[k].generation == r.generation + 1 && r.id !in t.index && (grow ==> k in t.free)
      else
        t.jobs[k].occupied && t.jobs[k].canceled && t.jobs[k].id == r.id && t.jobs[k].running == r.running &&
        !t.jobs[k].hasNext && !t.jobs[k].pending && !t.jobs[k].queued && t.index == s.index && t.free == s.free
  {
  }

  /** Pausing takes away every run to come and leaves what is running alone. */
  lemma PauseStops(when: Calculator, s: Core, k: nat)
    requires k < |s.jobs| && Live(s.jobs[k])
    ensures var t, q := Step(when, s, Pause(k)), s.jobs[k];
      t.jobs == s.jobs[k := q.(paused := true, hasNext := false, pending := false, queued := false, refreshPending := false)] &&
      NothingSubmitted(s, t) && t.heap == s.heap && t.pending == s.pending
  {
    assert Enabled(s, Pause(k));
  }

  /** Resuming an idle job has it searched from now; a running job is only unpaused. */
  lemma ResumeWaits(when: Calculator, s: Core, k: nat, now: int, pend: bool)
    requires Inv(s) && k < |s.jobs| && Live(s.jobs[k])
    ensures var t, r := Step(when, s, Resume(k, now, pend)), s.jobs[k];
      k < |t.jobs| && t.jobs[k].occupied && t.jobs[k].id == r.id && t.jobs[k].job == r.job && !t.jobs[k].paused &&
      !t.jobs[k].queued && t.jobs[k].running == r.running && NothingSubmitted(s, t) &&
      (r.running == 0 && (pend || r.pending) ==> WaitsFrom(t, k, now)) &&
      (r.running > 0 ==> t.jobs[k].hasNext == r.hasNext && t.jobs[k].nextRun == r.nextRun)
  {
    assert SlotOk(s, k);
    assert Enabled(s, Resume(k, now, pend));
    var s1 := Put(s, k, s.jobs[k].(paused := false, queued := false));
    if s.jobs[k].running == 0 && (pend || s.jobs[k].pending) {
      QueueWaits(s1, k, now, pend);
    }
  }

  /** A refresh arms a recurring job that may run from now, and marks one that may not. */
  lemma RefreshArms(when: Calculator, s: Core, k: nat, now: int)
    requires Inv(s) && k < |s.jobs| && Ready(s.jobs[k]) && Recurring(s.jobs[k].job)
    ensures var t, r := Step(when, s, Refresh(k, now, true)), s.jobs[k];
      Holds(s, t, k, r.running) && NothingSubmitted(s, t) &&
      if r.running == 0 || r.job.overlap == AllowParallel then ArmedFor(t, k, when(r.job.schedule, now))
      else t.jobs[k].refreshPending && !t.jobs[k].hasNext && !t.jobs[k].queued
  {
    assert Enabled(s, Refresh(k, now, true));
    var r := s.jobs[k];
    if r.running == 0 || r.job.overlap == AllowParallel {
      SearchArms(when, Put(s, k, r.(pending := false, hasNext := false, nextRun := 0, refreshPending := false)), k, now);
    }
  }

  // ---------- drainPendingSchedules ----------

  /** Draining an idle ready job arms it from the start time it was queued with, a one-shot job for its own
      time; any other slot is left without a next run. */
  lemma DrainArms(when: Calculator, s: Core, now: int, k: nat)
    requires Inv(s) && |s.pending| > 0 && s.pending[|s.pending| - 1] == k && now >= s.minValid
    ensures var t := Step(when, s, Drain(now, true));
      k < |s.jobs| && NothingSubmitted(s, t) && t.pending == s.pending[..|s.pending| - 1] &&
      if Ready(s.jobs[k]) && s.jobs[k].running == 0 then
        ArmedFor(t, k, NextFor(when, s.jobs[k].job, s.jobs[k].scheduleFrom)) && Holds(s, t, k, 0) && !t.jobs[k].pending
      else k < |t.jobs| && t.jobs[k] == s.jobs[k].(pending := false, hasNext := false)
  {
    assert Enabled(s, Drain(now, true));
    var s1 := Put(s.(pending := s.pending[..|s.pending| - 1]), k, s.jobs[k].(pending := false));
    if Ready(s.jobs[k]) && s.jobs[k].running == 0 {
      SearchArms(when, s1, k, s.jobs[k].scheduleFrom);
      assert Step(when, s, Drain(now, true)) == Schedule(when, s1, k, s.jobs[k].scheduleFrom, true);
      SearchNotPending(when, s1, k, s.jobs[k].scheduleFrom);
    }
  }

  lemma SearchNotPending(when: Calculator, s: Core, k: nat, from: int)
    requires k < |s.jobs|
    ensures var t := Schedule(when, s, k, from, true);
      k < |t.jobs| && t.jobs[k].pending == s.jobs[k].pending && t.pending == s.pending
  {
  }

  // ---------- dispatchDue ----------

  /** The label dispatches the valid entry e at now. */
  ghost predicate Dispatches(s: Core, e: DueEntry, now: int) {
    Minimal(e, s.heap) && ValidEntry(s, e) && e.epoch <= now && now >= s.minValid
  }

  lemma DispatchStep(when: Calculator, s: Core, e: DueEntry, now: int, env: Env)
    requires Inv(s) && Dispatches(s, e, now)
    ensures Step(when, s, Dispatch(e, now, env)) == Processed(when, PopEntry(s, e), e.slot, now, env)
    ensures e.slot < |s.jobs| && Ready(s.jobs[e.slot]) && s.jobs[e.slot].hasNext && s.jobs[e.slot].nextRun == e.epoch
    ensures FlagsOk(s.jobs[e.slot])
  {
    assert SlotOk(s, e.slot);
    assert Enabled(s, Dispatch(e, now, env));
  }

  /** A due job that may not run in parallel with itself is not submitted: a QueueOne job is marked to run for
      this due time when it finishes, any other loses the run. */
  lemma BusyJobWaitsOrSkips(when: Calculator, s: Core, e: DueEntry, now: int, env: Env)
    requires Inv(s) && Dispatches(s, e, now)
    requires s.jobs[e.slot].running > 0 && s.jobs[e.slot].job.overlap != AllowParallel
    ensures var t, k := Step(when, s, Dispatch(e, now, env)), e.slot;
      Holds(s, t, k, s.jobs[k].running) && NothingSubmitted(s, t) && !t.jobs[k].hasNext && t.jobs[k].nextRun == e.epoch &&
      (t.jobs[k].queued <==> s.jobs[k].job.overlap == QueueOne) && t.jobs[k].pending == s.jobs[k].pending
  {
    DispatchStep(when, s, e, now, env);
  }

  /** An asynchronous job that may run and whose executor takes it is submitted once, for the entry's time; a
      recurring one is armed for what its schedule gives a minute later, a one-shot job for nothing. */
  lemma AsyncTaken(when: Calculator, s: Core, e: DueEntry, now: int, env: Env)
    requires Inv(s) && Dispatches(s, e, now) && s.jobs[e.slot].job.dispatch == Async
    requires s.jobs[e.slot].running == 0 || s.jobs[e.slot].job.overlap == AllowParallel
    requires env.submit && env.executor && (s.jobs[e.slot].job.hasDedicatedTask ==> s.jobs[e.slot].job.executorId == 1)
    requires env.push
    ensures Started(when, s, Step(when, s, Dispatch(e, now, env)), e.slot, e.epoch, now)
  {
    DispatchStep(when, s, e, now, env);
    AsyncStarts(when, PopEntry(s, e), e.slot, now, env);
    AsyncProcessed(when, PopEntry(s, e), e.slot, now, env);
    StartedBefore(when, s, PopEntry(s, e), DispatchAsync(when, PopEntry(s, e), e.slot, now, env, false), e.slot, e.epoch, now);
  }

  lemma AsyncProcessed(when: Calculator, s: Core, k: nat, now: int, env: Env)
    requires k < |s.jobs| && Ready(s.jobs[k]) && s.jobs[k].job.dispatch == Async
    requires s.jobs[k].running == 0 || s.jobs[k].job.overlap == AllowParallel
    ensures Processed(when, s, k, now, env) == DispatchAsync(when, s, k, now, env, false)
  {
  }

  lemma StartedBefore(when: Calculator, s: Core, s1: Core, t: Core, k: nat, due: int, now: int)
    requires k < |s.jobs| && s1.jobs == s.jobs && s1.log == s.log && s1.inflight == s.inflight
    requires Started(when, s1, t, k, due, now)
    ensures Started(when, s, t, k, due, now)
  {
  }

  /** One submission for `due`, one invocation more in flight, and the next run after `due` if there is one. */
  ghost predicate Started(when: Calculator, s: Core, t: Core, k: nat, due: int, now: int)
    requires k < |s.jobs|
  {
    var r := s.jobs[k];
    SubmittedOne(s, t, k, due, now) && t.inflight == s.inflight + multiset{Invocation(r.id, r.generation, k)} &&
    Holds(s, t, k, r.running + 1) && !t.jobs[k].queued &&
    ArmedFor(t, k, if Recurring(r.job) then when(r.job.schedule, due + 60) else None)
  }

  lemma AsyncStarts(when: Calculator, s: Core, k: nat, now: int, env: Env)
    requires k < |s.jobs| && Ready(s.jobs[k]) && !s.jobs[k].queued && env.push
    requires env.submit && env.executor && (s.jobs[k].job.hasDedicatedTask ==> s.jobs[k].job.executorId == 1)
    ensures Started(when, s, DispatchAsync(when, s, k, now, env, false), k, s.jobs[k].nextRun, now)
  {
    if Recurring(s.jobs[k].job) {
      RecurringStarts(when, s, k, now);
      RecurringAccepted(when, s, k, now, env);
    } else {
      OnceStarts(when, s, k, now);
      OnceAccepted(when, s, k, now, env);
    }
  }

  lemma RecurringStarts(when: Calculator, s: Core, k: nat, now: int)
    requires k < |s.jobs| && Ready(s.jobs[k]) && !s.jobs[k].queued && Recurring(s.jobs[k].job)
    ensures var r := s.jobs[k];
      Started(when, s, Schedule(when, Submitted(s, k, r.nextRun, now), k, r.nextRun + 60, true), k, r.nextRun, now)
  {
    var r := s.jobs[k];
    var s1 := Submitted(s, k, r.nextRun, now);
    assert s1.jobs[k] == r.(running := r.running + 1);
    SearchArms(when, s1, k, r.nextRun + 60);
    SearchKeeps(when, s1, k, r.nextRun + 60, true);
    StartedThrough(when, s, s1, Schedule(when, s1, k, r.nextRun + 60, true), k, now);
  }

  lemma StartedThrough(when: Calculator, s: Core, s1: Core, t: Core, k: nat, now: int)
    requires k < |s.jobs| && Recurring(s.jobs[k].job) && !s.jobs[k].queued && s.jobs[k].occupied
    requires s1 == Submitted(s, k, s.jobs[k].nextRun, now) && SameJobAndIndex(s1, t, k)
    requires ArmedFor(t, k, when(s.jobs[k].job.schedule, s.jobs[k].nextRun + 60))
    ensures Started(when, s, t, k, s.jobs[k].nextRun, now)
  {
  }

  lemma RecurringAccepted(when: Calculator, s: Core, k: nat, now: int, env: Env)
    requires k < |s.jobs| && Recurring(s.jobs[k].job) && env.push
    requires env.submit && env.executor && (s.jobs[k].job.hasDedicatedTask ==> s.jobs[k].job.executorId == 1)
    ensures var r, s1 := s.jobs[k], Submitted(s, k, s.jobs[k].nextRun, now);
      DispatchAsync(when, s, k, now, env, false) == Schedule(when, s1, k, r.nextRun + 60, true)
  {
  }

  lemma OnceAccepted(when: Calculator, s: Core, k: nat, now: int, env: Env)
    requires k < |s.jobs| && !Recurring(s.jobs[k].job)
    requires env.submit && env.executor && (s.jobs[k].job.hasDedicatedTask ==> s.jobs[k].job.executorId == 1)
    ensures DispatchAsync(when, s, k, now, env, false) == Stopped(s, k, now)
  {
  }

  lemma OnceStarts(when: Calculator, s: Core, k: nat, now: int)
    requires k < |s.jobs| && Ready(s.jobs[k]) && !s.jobs[k].queued && !Recurring(s.jobs[k].job)
    ensures Started(when, s, Stopped(s, k, now), k, s.jobs[k].nextRun, now)
  {
  }

  function Stopped(s: Core, k: nat, now: int): Core
    requires k < |s.jobs|
  {
    var s1 := Submitted(s, k, s.jobs[k].nextRun, now);
    Put(s1, k, s1.jobs[k].(hasNext := false))
  }

  /** An asynchronous job whose executor is missing, unsuitable or full is not submitted, and retried in a second. */
  lemma AsyncRefused(when: Calculator, s: Core, e: DueEntry, now: int, env: Env)
    requires Inv(s) && Dispatches(s, e, now) && s.jobs[e.slot].job.dispatch == Async
    requires s.jobs[e.slot].running == 0 || s.jobs[e.slot].job.overlap == AllowParallel
    requires !env.submit || !env.executor || (s.jobs[e.slot].job.hasDedicatedTask && s.jobs[e.slot].job.executorId != 1)
    ensures var t, k, r := Step(when, s, Dispatch(e, now, env)), e.slot, s.jobs[e.slot];
      NothingSubmitted(s, t) && Holds(s, t, k, r.running) && t.jobs[k].queued == r.queued &&
      ArmedFor(t, k, if env.retryPush then Some(now + 1) else None)
  {
    DispatchStep(when, s, e, now, env);
  }

  /** An inline job that its executor takes has run and finished when the step is over: a recurring one is armed
      for what its schedule gives a minute later, or waits from now if that is nothing; a one-shot job is gone. */
  lemma InlineTaken(when: Calculator, s: Core, e: DueEntry, now: int, env: Env)
    requires Inv(s) && Dispatches(s, e, now) && s.jobs[e.slot].job.dispatch == Inline
    requires env.submit && env.inlineExecutor && env.push && env.pend
    ensures Ran(when, s, Step(when, s, Dispatch(e, now, env)), e.slot, e.epoch, now)
  {
    DispatchStep(when, s, e, now, env);
    InlineRuns(when, PopEntry(s, e), e.slot, now, env);
    InlineProcessed(when, PopEntry(s, e), e.slot, now, env);
    RanBefore(when, s, PopEntry(s, e), DispatchInline(when, PopEntry(s, e), e.slot, now, env), e.slot, e.epoch, now);
  }

  lemma InlineProcessed(when: Calculator, s: Core, k: nat, now: int, env: Env)
    requires k < |s.jobs| && Ready(s.jobs[k]) && s.jobs[k].job.dispatch == Inline && s.jobs[k].running == 0
    ensures Processed(when, s, k, now, env) == DispatchInline(when, s, k, now, env)
  {
  }

  lemma RanBefore(when: Calculator, s: Core, s1: Core, t: Core, k: nat, due: int, now: int)
    requires k < |s.jobs| && s1.jobs == s.jobs && s1.log == s.log && s1.inflight == s.inflight
    requires Ran(when, s1, t, k, due, now)
    ensures Ran(when, s, t, k, due, now)
  {
  }

  /** One submission for `due`, nothing left in flight of it. */
  ghost predicate Ran(when: Calculator, s: Core, t: Core, k: nat, due: int, now: int)
    requires k < |s.jobs|
  {
    SubmittedOne(s, t, k, due, now) && t.inflight == s.inflight &&
    if Recurring(s.jobs[k].job) then RanOn(when, s, t, k, due, now)
    else k < |t.jobs| && !t.jobs[k].occupied && s.jobs[k].id !in t.index
  }

  ghost predicate RanOn(when: Calculator, s: Core, t: Core, k: nat, due: int, now: int)
    requires k < |s.jobs|
  {
    var next := when(s.jobs[k].job.schedule, due + 60);
    Holds(s, t, k, 0) && ArmedFor(t, k, next) && (next.None? ==> WaitsFrom(t, k, now))
  }

  lemma InlineRuns(when: Calculator, s: Core, k: nat, now: int, env: Env)
    requires k < |s.jobs| && Ready(s.jobs[k]) && FlagsOk(s.jobs[k]) && s.jobs[k].hasNext && s.jobs[k].job.dispatch == Inline
    requires env.submit && env.inlineExecutor && env.push && env.pend
    ensures Ran(when, s, DispatchInline(when, s, k, now, env), k, s.jobs[k].nextRun, now)
  {
    if Recurring(s.jobs[k].job) {
      RecurringRuns(when, s, k, now, env);
    } else {
      OnceFinishes(when, s, k, now, env);
    }
  }

  lemma RecurringRuns(when: Calculator, s: Core, k: nat, now: int, env: Env)
    requires k < |s.jobs| && Ready(s.jobs[k]) && s.jobs[k].running == 0 && !s.jobs[k].pending
    requires Recurring(s.jobs[k].job) && env.submit && env.inlineExecutor && env.push && env.pend
    ensures Ran(when, s, DispatchInline(when, s, k, now, env), k, s.jobs[k].nextRun, now)
  {
    InlineIsSettled(when, s, k, now, env);
    SearchedThenFinished(when, s, k, s.jobs[k].nextRun, now, env);
  }

  lemma SearchedThenFinished(when: Calculator, s: Core, k: nat, due: int, now: int, env: Env)
    requires k < |s.jobs| && Ready(s.jobs[k]) && s.jobs[k].running == 0 && !s.jobs[k].pending
    requires Recurring(s.jobs[k].job) && env.pend
    ensures var s1 := Advance(when, s, k, due, false, true);
      k < |s1.jobs| && Ran(when, s, Settle(Finished(Submitted(s1, k, due, now), k), k, now, env), k, due, now)
  {
    var s1 := Schedule(when, s, k, due + 60, true);
    SearchArms(when, s, k, due + 60);
    SearchLeaves(when, s, k, due + 60);
    InlineFinishes(s1, k, due, now, env);
    RanThrough(when, s, s1, Settle(Finished(Submitted(s1, k, due, now), k), k, now, env), k, due, now);
    assert s1 == Advance(when, s, k, due, false, true);
  }

  lemma RanThrough(when: Calculator, s: Core, s1: Core, t: Core, k: nat, due: int, now: int)
    requires k < |s.jobs| && k < |s1.jobs| && Recurring(s.jobs[k].job) && Holds(s, s1, k, 0) && NothingSubmitted(s, s1)
    requires ArmedFor(s1, k, when(s.jobs[k].job.schedule, due + 60))
    requires FinishedFrom(s1, t, k, due, now)
    ensures Ran(when, s, t, k, due, now)
  {
  }

  /** From s to t the job ran and finished, keeping its next run. */
  predicate FinishedFrom(s: Core, t: Core, k: nat, due: int, now: int)
    requires k < |s.jobs|
  {
    SubmittedOne(s, t, k, due, now) && t.inflight == s.inflight && Holds(s, t, k, 0) && t.heap == s.heap &&
    t.jobs[k].hasNext == s.jobs[k].hasNext && t.jobs[k].nextRun == s.jobs[k].nextRun &&
    (!s.jobs[k].hasNext ==> WaitsFrom(t, k, now))
  }

  lemma SearchLeaves(when: Calculator, s: Core, k: nat, from: int)
    requires k < |s.jobs| && Ready(s.jobs[k])
    ensures var t := Schedule(when, s, k, from, true);
      k < |t.jobs| && !t.jobs[k].refreshPending && t.jobs[k].pending == s.jobs[k].pending && t.pending == s.pending &&
      Ready(t.jobs[k])
  {
  }

  lemma InlineFinishes(s: Core, k: nat, due: int, now: int, env: Env)
    requires k < |s.jobs| && Ready(s.jobs[k]) && Recurring(s.jobs[k].job) && s.jobs[k].running == 0 && env.pend
    requires !s.jobs[k].refreshPending && !s.jobs[k].pending
    ensures FinishedFrom(s, Settle(Finished(Submitted(s, k, due, now), k), k, now, env), k, due, now)
  {
    var s2 := Finished(Submitted(s, k, due, now), k);
    assert s2.jobs[k] == s.jobs[k];
    assert s2.inflight == s.inflight;
  }

  lemma OnceFinishes(when: Calculator, s: Core, k: nat, now: int, env: Env)
    requires k < |s.jobs| && Ready(s.jobs[k]) && !Recurring(s.jobs[k].job) && s.jobs[k].running == 0
    requires env.submit && env.inlineExecutor && !s.jobs[k].refreshPending
    ensures var t, r := DispatchInline(when, s, k, now, env), s.jobs[k];
      SubmittedOne(s, t, k, r.nextRun, now) && t.inflight == s.inflight && k < |t.jobs| && !t.jobs[k].occupied &&
      r.id !in t.index
  {
    var r := s.jobs[k].(hasNext := false);
    var s2 := Finished(Submitted(Put(s, k, r), k, r.nextRun, now), k);
    assert s2.jobs[k] == r && s2.inflight == s.inflight;
    assert DispatchInline(when, s, k, now, env) == Retire(s2, k, env.grow);
  }

  /** A refused inline job is not submitted, and retried in a second. */
  lemma InlineRefused(when: Calculator, s: Core, e: DueEntry, now: int, env: Env)
    requires Inv(s) && Dispatches(s, e, now) && s.jobs[e.slot].job.dispatch == Inline
    requires (!env.submit || !env.inlineExecutor) && env.retryPush
    ensures var t, k := Step(when, s, Dispatch(e, now, env)), e.slot;
      NothingSubmitted(s, t) && Holds(s, t, k, 0) && ArmedFor(t, k, Some(now + 1))
  {
    DispatchStep(when, s, e, now, env);
    var s1, k := PopEntry(s, e), e.slot;
    if env.inlineExecutor {
      var stop := OneShot(s1.jobs[k].job);
      AdvanceKeepsJob(when, s1, k, e.epoch, stop, env.push);
      RetryArms(Advance(when, s1, k, e.epoch, stop, env.push), k, now);
    } else {
      RetryArms(s1, k, now);
    }
  }

  lemma AdvanceKeepsJob(when: Calculator, s: Core, k: nat, due: int, stop: bool, push: bool)
    requires k < |s.jobs| && Ready(s.jobs[k])
    ensures var t := Advance(when, s, k, due, stop, push);
      Holds(s, t, k, s.jobs[k].running) && NothingSubmitted(s, t)
  {
    if !stop {
      SearchKeeps(when, s, k, due + 60, push);
    }
  }

  lemma RetryArms(s: Core, k: nat, now: int)
    requires k < |s.jobs| && Ready(s.jobs[k])
    ensures var t := Retry(s, k, now, true);
      Holds(s, t, k, s.jobs[k].running) && NothingSubmitted(s, t) && ArmedFor(t, k, Some(now + 1))
  {
  }

  // ---------- handleCompletion ----------

  /** The completion of an invocation in flight is a step on the slot that still holds its job. */
  lemma FinishStep(when: Calculator, s: Core, v: Invocation, now: int, env: Env)
    requires Inv(s) && v in s.inflight
    ensures v.slot < |s.jobs| && s.jobs[v.slot].occupied && v == InvocationOf(s.jobs[v.slot], v.slot)
    ensures s.jobs[v.slot].running > 0 && FlagsOk(s.jobs[v.slot]) && !s.jobs[v.slot].pending
    ensures Step(when, s, Finish(v, now, env)) == Complete(when, s, v.slot, now, env)
  {
    assert SlotOk(s, v.slot);
    assert Enabled(s, Finish(v, now, env));
  }

  /** The invocation is no longer in flight and nothing new is. */
  predicate OnlyFinished(s: Core, t: Core, v: Invocation) {
    t.log == s.log && t.inflight == s.inflight - multiset{v}
  }

  lemma FinishedRecord(s: Core, k: nat)
    requires k < |s.jobs| && s.jobs[k].running > 0
    ensures var t, r := Finished(s, k), s.jobs[k];
      t.jobs == s.jobs[k := r.(running := r.running - 1)] && OnlyFinished(s, t, InvocationOf(r, k)) && t.heap == s.heap &&
      t.pending == s.pending && t.index == s.index && t.free == s.free
  {
  }

  /** With other invocations of the job in flight, or a next run already armed, the completion only counts down. */
  lemma CompletionCountsDown(when: Calculator, s: Core, v: Invocation, now: int, env: Env)
    requires Inv(s) && v in s.inflight
    requires s.jobs[v.slot].running > 1 || (s.jobs[v.slot].hasNext && !s.jobs[v.slot].canceled)
    ensures var t, k, r := Step(when, s, Finish(v, now, env)), v.slot, s.jobs[v.slot];
      r.running > 0 && t.jobs == s.jobs[k := r.(running := r.running - 1)] && OnlyFinished(s, t, v) &&
      t.pending == s.pending && t.heap == s.heap
  {
    FinishStep(when, s, v, now, env);
    FinishedRecord(s, v.slot);
  }

  /** The last completion of a canceled job frees its slot. */
  lemma CompletionFreesCanceled(when: Calculator, s: Core, v: Invocation, now: int, env: Env)
    requires Inv(s) && v in s.inflight && s.jobs[v.slot].canceled && s.jobs[v.slot].running == 1
    ensures var t, k := Step(when, s, Finish(v, now, env)), v.slot;
      k < |t.jobs| && OnlyFinished(s, t, v) && !t.jobs[k].occupied && t.jobs[k].generation == s.jobs[k].generation + 1 &&
      v.id !in t.index && (env.grow ==> k in t.free)
  {
    FinishStep(when, s, v, now, env);
    FinishedRecord(s, v.slot);
  }

  /** A queued run that its executor takes is submitted for the due time it was queued for, in the same step, and
      the job is left without a next run. */
  lemma QueuedRunTaken(when: Calculator, s: Core, v: Invocation, now: int, env: Env)
    requires Inv(s) && v in s.inflight && s.jobs[v.slot].queued && !s.jobs[v.slot].refreshPending
    requires env.submit && env.executor
    requires s.jobs[v.slot].job.hasDedicatedTask ==> s.jobs[v.slot].job.executorId == 1
    ensures var t, k := Step(when, s, Finish(v, now, env)), v.slot;
      SubmittedOne(s, t, k, s.jobs[k].nextRun, now) && t.inflight == s.inflight && Holds(s, t, k, 1) &&
      !t.jobs[k].queued && !t.jobs[k].hasNext && !t.jobs[k].pending
  {
    FinishStep(when, s, v, now, env);
    FinishedRecord(s, v.slot);
    var k, r := v.slot, s.jobs[v.slot];
    var s1 := Put(Finished(s, k), k, r.(running := 0, queued := false));
    assert Complete(when, s, k, now, env) == DispatchAsync(when, s1, k, now, env, true);
    DeferredStarts(when, s1, k, now, env);
    assert s.inflight - multiset{v} + multiset{v} == s.inflight;
  }

  lemma DeferredStarts(when: Calculator, s: Core, k: nat, now: int, env: Env)
    requires k < |s.jobs| && Ready(s.jobs[k]) && !s.jobs[k].queued
    requires env.submit && env.executor && (s.jobs[k].job.hasDedicatedTask ==> s.jobs[k].job.executorId == 1)
    ensures var t, r := DispatchAsync(when, s, k, now, env, true), s.jobs[k];
      t.log == s.log + [Submission(r.id, r.job, r.nextRun, now)] &&
      t.inflight == s.inflight + multiset{Invocation(r.id, r.generation, k)} &&
      t.jobs == s.jobs[k := r.(running := r.running + 1, hasNext := false)]
  {
    assert Submitted(s, k, s.jobs[k].nextRun, now).jobs[k] == s.jobs[k].(running := s.jobs[k].running + 1);
  }

  /** A queued run that is refused is retried in a second. */
  lemma QueuedRunRefused(when: Calculator, s: Core, v: Invocation, now: int, env: Env)
    requires Inv(s) && v in s.inflight && s.jobs[v.slot].queued && !s.jobs[v.slot].refreshPending && env.retryPush
    requires !env.submit || !env.executor || (s.jobs[v.slot].job.hasDedicatedTask && s.jobs[v.slot].job.executorId != 1)
    ensures var t, k := Step(when, s, Finish(v, now, env)), v.slot;
      OnlyFinished(s, t, v) && Holds(s, t, k, 0) && !t.jobs[k].queued && ArmedFor(t, k, Some(now + 1))
  {
    FinishStep(when, s, v, now, env);
    FinishedRecord(s, v.slot);
    var k, r := v.slot, s.jobs[v.slot];
    var s1 := Put(Finished(s, k), k, r.(running := 0, queued := false));
    assert Complete(when, s, k, now, env) == Retry(s1, k, now, true);
  }

  /** A completion that leaves a ready recurring job idle, unqueued and without a next run has it searched from
      the time of the completion: whether it was refreshed meanwhile or simply ran out. */
  lemma IdleJobWaits(when: Calculator, s: Core, v: Invocation, now: int, env: Env)
    requires Inv(s) && v in s.inflight && Ready(s.jobs[v.slot]) && Recurring(s.jobs[v.slot].job)
    requires s.jobs[v.slot].running == 1 && !s.jobs[v.slot].hasNext && env.pend
    requires s.jobs[v.slot].refreshPending || !s.jobs[v.slot].queued
    ensures var t, k := Step(when, s, Finish(v, now, env)), v.slot;
      WaitsFrom(t, k, now) && OnlyFinished(s, t, v) && Holds(s, t, k, 0) && !t.jobs[k].queued && !t.jobs[k].refreshPending &&
      t.heap == s.heap
  {
    FinishStep(when, s, v, now, env);
    FinishedRecord(s, v.slot);
    var k, s1 := v.slot, Finished(s, v.slot);
    var r := s1.jobs[k];
    if r.refreshPending {
      var s2 := Put(s1, k, r.(refreshPending := false, queued := false, hasNext := false));
      QueueWaits(s2, k, now, true);
      QueueClears(s2, k, now);
      assert Complete(when, s, k, now, env) == QueueScheduling(s2, k, now, true);
    } else {
      QueueWaits(s1, k, now, true);
      QueueClears(s1, k, now);
      assert Complete(when, s, k, now, env) == QueueScheduling(s1, k, now, true);
    }
  }

  lemma QueueClears(s: Core, k: nat, from: int)
    requires k < |s.jobs| && Ready(s.jobs[k])
    ensures var t := QueueScheduling(s, k, from, true);
      k < |t.jobs| && t.jobs[k].queued == s.jobs[k].queued && t.jobs[k].refreshPending == s.jobs[k].refreshPending
  {
  }

  // ---------- One slot at a time ----------

  /** The step works on slot k. */
  predicate WorksOn(s: Core, l: Label, k: nat) {
    match l
    case Add(_, _, _, _, _) => AddSlot(s) == k
    case Cancel(j, _) => j == k
    case Pause(j) => j == k
    case Resume(j, _, _) => j == k
    case Refresh(j, _, _) => j == k
    case SetMinValid(_) => false
    case Drain(_, _) => |s.pending| > 0 && s.pending[|s.pending| - 1] == k
    case Prune(_) => false
    case Dispatch(e, _, _) => e.slot == k
    case Finish(v, _, _) => v.slot == k
  }

  /** A step on one slot leaves every other job's record, and what was submitted for it, alone. */
  lemma OthersUntouched(when: Calculator, s: Core, l: Label, k: nat)
    requires Inv(s) && k < |s.jobs| && s.jobs[k].occupied && !WorksOn(s, l, k)
    ensures Untouched(s, Step(when, s, l), k)
  {
    if Enabled(s, l) {
      match l
      case Add(_, _, _, _, _) => AddUntouched(when, s, l, k);
      case Cancel(j, grow) =>
        var u, retired := CancelShape(s, j, grow);
        OtherSlotUntouched(s, u, j, retired, grow, k);
      case Pause(j) =>
        PutTame(s, j, Cleared(s.jobs[j]).(paused := true, queued := false));
        OtherSlotUntouched(s, PauseSlot(s, j), j, false, false, k);
      case Resume(j, now, pend) =>
        ResumeShape(s, j, now, pend);
        OtherSlotUntouched(s, ResumeSlot(s, j, now, pend), j, false, false, k);
      case Refresh(j, now, push) =>
        RefreshShape(when, s, j, now, push);
        OtherSlotUntouched(s, RefreshSlot(when, s, j, now, push), j, false, false, k);
      case SetMinValid(_) =>
      case Drain(now, push) => DrainOrderly(when, s, now, push, k); DrainElsewhere(when, s, push, k);
      case Prune(e) => PruneUntouched(s, e, k);
      case Dispatch(e, now, env) => OtherDispatch(when, s, e, now, env, k);
      case Finish(v, now, env) =>
        var u, retired := CompleteShape(when, s, v.slot, now, env);
        OtherSlotUntouched(s, u, v.slot, retired, env.grow, k);
    }
  }

  lemma DrainElsewhere(when: Calculator, s: Core, push: bool, k: nat)
    requires Inv(s) && |s.pending| > 0 && k < |s.jobs| && s.jobs[k].occupied && s.pending[|s.pending| - 1] != k
    ensures Untouched(s, DrainLast(when, s, push), k)
  {
    var j := s.pending[|s.pending| - 1];
    if s.jobs[j].occupied {
      DrainShape(when, s, push);
      OtherSlotUntouched(s, DrainLast(when, s, push), j, false, false, k);
    }
  }

  // ---------- A queued run is submitted ----------

  /** The QueueOne job of r in slot k runs once and is marked to run for `due` next. */
  predicate QueuedFor(s: Core, k: nat, r: JobRecord, due: int) {
    k < |s.jobs| && Ready(s.jobs[k]) && s.jobs[k].id == r.id && s.jobs[k].job == r.job &&
    s.jobs[k].generation == r.generation && s.jobs[k].queued && s.jobs[k].running == 1 && s.jobs[k].nextRun == due &&
    !s.jobs[k].refreshPending
  }

  /** The step pauses, resumes, refreshes or cancels slot k, or completes its invocation. */
  predicate Disturbs(l: Label, k: nat) {
    ((l.Cancel? || l.Pause? || l.Resume? || l.Refresh?) && l.slot == k) || (l.Finish? && l.event.slot == k)
  }

  lemma StaysQueued(when: Calculator, s: Core, l: Label, k: nat, r: JobRecord, due: int)
    requires Inv(s) && QueuedFor(s, k, r, due) && !Disturbs(l, k)
    ensures var t := Step(when, s, l);
      QueuedFor(t, k, r, due) && |s.log| <= |t.log| && forall i :: |s.log| <= i < |t.log| ==> t.log[i].id != r.id
  {
    assert SlotOk(s, k);
    if Enabled(s, l) {
      if WorksOn(s, l, k) {
        if l.Drain? {
          DrainLeavesBusy(when, s, l.push, k);
        } else {
          assert false;
        }
      } else {
        OthersUntouched(when, s, l, k);
      }
    }
  }

  lemma DrainLeavesBusy(when: Calculator, s: Core, push: bool, k: nat)
    requires |s.pending| > 0 && s.pending[|s.pending| - 1] == k < |s.jobs| && s.jobs[k].running > 0
    ensures var t := DrainLast(when, s, push);
      t.jobs == s.jobs[k := s.jobs[k].(pending := false, hasNext := false)] && t.log == s.log
  {
  }

  lemma {:induction false} RunStaysQueued(when: Calculator, s: Core, trace: seq<Label>, k: nat, r: JobRecord, due: int)
    requires Inv(s) && QueuedFor(s, k, r, due) && forall i :: 0 <= i < |trace| ==> !Disturbs(trace[i], k)
    ensures Inv(Run(when, s, trace)) && QueuedFor(Run(when, s, trace), k, r, due)
    decreases |trace|
  {
    if trace != [] {
      var last := |trace| - 1;
      RunStaysQueued(when, s, trace[..last], k, r, due);
      StaysQueued(when, Run(when, s, trace[..last]), trace[last], k, r, due);
      StepKeeps(when, Run(when, s, trace[..last]), trace[last]);
    }
  }

  /** A QueueOne job that comes due while it runs is submitted for that very due time when it finishes, however
      much later and whatever happens to other jobs meanwhile, unless it is paused, refreshed or canceled. */
  lemma QueuedRunIsSubmitted(
    when: Calculator, s: Core, e: DueEntry, now: int, env: Env, between: seq<Label>, later: int, answers: Env)
    requires Inv(s) && Dispatches(s, e, now)
    requires s.jobs[e.slot].running > 0 && s.jobs[e.slot].job.overlap == QueueOne
    requires forall i :: 0 <= i < |between| ==> !Disturbs(between[i], e.slot)
    requires answers.submit && answers.executor
    requires s.jobs[e.slot].job.hasDedicatedTask ==> s.jobs[e.slot].job.executorId == 1
    ensures var k, r := e.slot, s.jobs[e.slot];
      var v := Invocation(r.id, r.generation, k);
      var u := Run(when, Step(when, s, Dispatch(e, now, env)), between);
      v in u.inflight &&
      var t := Step(when, u, Finish(v, later, answers));
      t.log == u.log + [Submission(r.id, r.job, e.epoch, later)] && t.inflight == u.inflight
  {
    var k, r := e.slot, s.jobs[e.slot];
    DispatchStep(when, s, e, now, env);
    BusyJobWaitsOrSkips(when, s, e, now, env);
    StepKeeps(when, s, Dispatch(e, now, env));
    var s1 := Step(when, s, Dispatch(e, now, env));
    assert SlotOk(s1, k);
    RunStaysQueued(when, s1, between, k, r, e.epoch);
    var u := Run(when, s1, between);
    assert SlotOk(u, k);
    QueuedRunTaken(when, u, InvocationOf(u.jobs[k], k), later, answers);
  }

  // ---------- A finished job is searched from its completion ----------

  /** The idle job of r in slot k waits to be searched from `from`. */
  predicate WaitingFor(s: Core, k: nat, r: JobRecord, from: int) {
    k < |s.jobs| && Ready(s.jobs[k]) && s.jobs[k].id == r.id && s.jobs[k].job == r.job && s.jobs[k].running == 0 &&
    s.jobs[k].pending && s.jobs[k].scheduleFrom == from && !s.jobs[k].hasNext
  }

  /** The step neither disturbs slot k nor drains it. */
  predicate Spares(s: Core, l: Label, k: nat) {
    !Disturbs(l, k) && !(l.Drain? && WorksOn(s, l, k))
  }

  ghost predicate SparesAll(when: Calculator, s: Core, trace: seq<Label>, k: nat) {
    forall i :: 0 <= i < |trace| ==> Spares(Run(when, s, trace[..i]), trace[i], k)
  }

  lemma StaysWaiting(when: Calculator, s: Core, l: Label, k: nat, r: JobRecord, from: int)
    requires Inv(s) && WaitingFor(s, k, r, from) && Spares(s, l, k)
    ensures WaitingFor(Step(when, s, l), k, r, from)
  {
    assert SlotOk(s, k);
    if Enabled(s, l) {
      if WorksOn(s, l, k) {
        assert false;
      } else {
        OthersUntouched(when, s, l, k);
      }
    }
  }

  lemma SparesBefore(when: Calculator, s: Core, trace: seq<Label>, k: nat)
    requires trace != [] && SparesAll(when, s, trace, k)
    ensures var last := |trace| - 1; SparesAll(when, s, trace[..last], k) && Spares(Run(when, s, trace[..last]), trace[last], k)
  {
    var before := trace[..|trace| - 1];
    forall i | 0 <= i < |before|
      ensures Spares(Run(when, s, before[..i]), before[i], k)
    {
      assert before[..i] == trace[..i];
    }
  }

  lemma {:induction false} RunStaysWaiting(when: Calculator, s: Core, trace: seq<Label>, k: nat, r: JobRecord, from: int)
    requires Inv(s) && WaitingFor(s, k, r, from) && SparesAll(when, s, trace, k)
    ensures Inv(Run(when, s, trace)) && WaitingFor(Run(when, s, trace), k, r, from)
    decreases |trace|
  {
    if trace != [] {
      var last := |trace| - 1;
      SparesBefore(when, s, trace, k);
      RunStaysWaiting(when, s, trace[..last], k, r, from);
      StaysWaiting(when, Run(when, s, trace[..last]), trace[last], k, r, from);
      StepKeeps(when, Run(when, s, trace[..last]), trace[last]);
    }
  }

  /** A job that its completion leaves idle, whether it was refreshed while it ran or had run out, is armed by the
      first drain of its slot for exactly what its schedule gives from the time of the completion. */
  lemma FinishedJobIsRearmed(
    when: Calculator, s: Core, v: Invocation, now: int, env: Env, t: Core, between: seq<Label>, u: Core, later: int)
    requires Inv(s) && v in s.inflight && Ready(s.jobs[v.slot]) && Recurring(s.jobs[v.slot].job)
    requires s.jobs[v.slot].running == 1 && !s.jobs[v.slot].hasNext && env.pend
    requires s.jobs[v.slot].refreshPending || !s.jobs[v.slot].queued
    requires t == Step(when, s, Finish(v, now, env))
    requires u == Run(when, t, between) && SparesAll(when, t, between, v.slot)
    requires |u.pending| > 0 && u.pending[|u.pending| - 1] == v.slot && later >= u.minValid
    ensures ArmedFor(Step(when, u, Drain(later, true)), v.slot, when(s.jobs[v.slot].job.schedule, now))
  {
    var k, r := v.slot, s.jobs[v.slot];
    FinishedWaits(when, s, v, now, env);
    RunStaysWaiting(when, t, between, k, r, now);
    DrainedJobIsArmed(when, u, k, r, now, later);
  }

  lemma FinishedWaits(when: Calculator, s: Core, v: Invocation, now: int, env: Env)
    requires Inv(s) && v in s.inflight && Ready(s.jobs[v.slot]) && Recurring(s.jobs[v.slot].job)
    requires s.jobs[v.slot].running == 1 && !s.jobs[v.slot].hasNext && env.pend
    requires s.jobs[v.slot].refreshPending || !s.jobs[v.slot].queued
    ensures var t := Step(when, s, Finish(v, now, env)); Inv(t) && WaitingFor(t, v.slot, s.jobs[v.slot], now)
  {
    IdleJobWaits(when, s, v, now, env);
    StepKeeps(when, s, Finish(v, now, env));
  }

  lemma DrainedJobIsArmed(when: Calculator, u: Core, k: nat, r: JobRecord, from: int, later: int)
    requires Inv(u) && WaitingFor(u, k, r, from) && Recurring(r.job)
    requires |u.pending| > 0 && u.pending[|u.pending| - 1] == k && later >= u.minValid
    ensures ArmedFor(Step(when, u, Drain(later, true)), k, when(r.job.schedule, from))
  {
    DrainArms(when, u, later, k);
  }
}
