/**
 When a one-shot job is due (core/scheduler_core.cpp): at its own time, or a second after a
 refused dispatch, and at no other time in any run.
 */
module OneShotTimes {
  import opened ScheduleCalculator
  import opened DueHeaps
  import opened CoreModel
  import opened CoreInvariant
  import opened CoreSteps
  import opened CoreHistory
  import opened CoreTheorems
  import opened OneShots
  import opened CoreBehaviour

  // ---------- Where submissions come from ----------

  /** Every submission is for the time of the due entry dispatched, or for the time a queued run was marked with. */
  ghost predicate LogStep(s: Core, l: Label, t: Core) {
    t.log == s.log ||
    (l.Dispatch? && l.entry.slot < |s.jobs| && s.jobs[l.entry.slot].hasNext && s.jobs[l.entry.slot].occupied &&
     SubmittedOne(s, t, l.entry.slot, s.jobs[l.entry.slot].nextRun, l.now)) ||
    (l.Finish? && l.event.slot < |s.jobs| && s.jobs[l.event.slot].queued &&
     SubmittedOne(s, t, l.event.slot, s.jobs[l.event.slot].nextRun, l.now))
  }

  lemma CallLogsNothing(when: Calculator, s: Core, l: Label)
    requires Inv(s) && !l.Dispatch? && !l.Finish?
    ensures Step(when, s, l).log == s.log
  {
    if Enabled(s, l) && l.Add? && AddSucceeds(s, l.job, l.startPaused, l.callback, l.now, l.add) {
      AddStoresJob(when, s, l);
    }
  }

  lemma AdvanceLogsNothing(when: Calculator, s: Core, k: nat, due: int, stop: bool, push: bool)
    requires k < |s.jobs|
    ensures var t := Advance(when, s, k, due, stop, push);
      |t.jobs| == |s.jobs| && t.log == s.log && t.jobs[k].id == s.jobs[k].id && t.jobs[k].job == s.jobs[k].job
  {
  }

  lemma SettleLogsNothing(s: Core, k: nat, due: int, now: int, env: Env)
    requires k < |s.jobs|
    ensures Settle(Finished(Submitted(s, k, due, now), k), k, now, env).log ==
      s.log + [Submission(s.jobs[k].id, s.jobs[k].job, due, now)]
  {
  }

  lemma InlineLogs(when: Calculator, s: Core, k: nat, now: int, env: Env)
    requires k < |s.jobs|
    ensures var t := DispatchInline(when, s, k, now, env);
      t.log == s.log || SubmittedOne(s, t, k, s.jobs[k].nextRun, now)
  {
    var r := s.jobs[k];
    AdvanceLogsNothing(when, s, k, r.nextRun, OneShot(r.job), env.push);
    SettleLogsNothing(Advance(when, s, k, r.nextRun, OneShot(r.job), env.push), k, r.nextRun, now, env);
  }

  lemma AsyncLogs(when: Calculator, s: Core, k: nat, now: int, env: Env, deferred: bool)
    requires k < |s.jobs|
    ensures var t := DispatchAsync(when, s, k, now, env, deferred);
      t.log == s.log || SubmittedOne(s, t, k, s.jobs[k].nextRun, now)
  {
    var r := s.jobs[k];
    AdvanceLogsNothing(when, Submitted(s, k, r.nextRun, now), k, r.nextRun, deferred || OneShot(r.job), env.push);
  }

  lemma FinishLogs(when: Calculator, s: Core, v: Invocation, now: int, env: Env)
    requires Inv(s) && v in s.inflight
    ensures LogStep(s, Finish(v, now, env), Step(when, s, Finish(v, now, env)))
  {
    FinishStep(when, s, v, now, env);
    FinishedRecord(s, v.slot);
    var k, s1 := v.slot, Finished(s, v.slot);
    if Deferred(s1.jobs[k]) {
      AsyncLogs(when, Put(s1, k, s1.jobs[k].(queued := false)), k, now, env, true);
    }
  }

  lemma DispatchLogs(when: Calculator, s: Core, e: DueEntry, now: int, env: Env)
    requires Inv(s) && Dispatches(s, e, now)
    ensures LogStep(s, Dispatch(e, now, env), Step(when, s, Dispatch(e, now, env)))
  {
    DispatchStep(when, s, e, now, env);
    InlineLogs(when, PopEntry(s, e), e.slot, now, env);
    AsyncLogs(when, PopEntry(s, e), e.slot, now, env, false);
  }

  lemma SubmissionsComeFrom(when: Calculator, s: Core, l: Label)
    requires Inv(s)
    ensures LogStep(s, l, Step(when, s, l))
  {
    if Enabled(s, l) && l.Dispatch? {
      DispatchLogs(when, s, l.entry, l.now, l.env);
    } else if Enabled(s, l) && l.Finish? {
      FinishLogs(when, s, l.event, l.now, l.env);
    } else if !l.Dispatch? && !l.Finish? {
      CallLogsNothing(when, s, l);
    }
  }

  // ---------- Where the next run of a one-shot job comes from ----------

  /** The step dispatches the job id, whose executor does not take it, a second before `due`. */
  predicate RefusedBefore(s: Core, l: Label, id: nat, due: int) {
    l.Dispatch? && l.entry.slot < |s.jobs| && s.jobs[l.entry.slot].id == id && due == l.now + 1 &&
    !Takes(s.jobs[l.entry.slot].job, l.env)
  }

  /** Where the next run of a one-shot job comes from. */
  ghost predicate OnceStep(s: Core, l: Label, q: JobRecord, k: nat) {
    q.nextRun == q.job.schedule.onceAt ||
    (k < |s.jobs| && s.jobs[k].occupied && s.jobs[k].hasNext && s.jobs[k].id == q.id && s.jobs[k].job == q.job && s.jobs[k].nextRun == q.nextRun) ||
    RefusedBefore(s, l, q.id, q.nextRun)
  }

  lemma OnceDispatched(when: Calculator, s: Core, e: DueEntry, now: int, env: Env)
    requires Inv(s) && Dispatches(s, e, now) && !Recurring(s.jobs[e.slot].job)
    ensures var t, k := Step(when, s, Dispatch(e, now, env)), e.slot;
      k < |t.jobs| && (t.jobs[k].occupied && t.jobs[k].hasNext ==>
        t.jobs[k].nextRun == now + 1 && t.jobs[k].id == s.jobs[k].id && !Takes(s.jobs[k].job, env))
  {
    DispatchStep(when, s, e, now, env);
    var k, s1 := e.slot, PopEntry(s, e);
    NamesAgree(s.jobs[k], env);
    if Takes(s.jobs[k].job, env) {
      if s.jobs[k].job.dispatch == Inline {
        OnceFinishes(when, s1, k, now, env);
      } else {
        OnceAccepted(when, s1, k, now, env);
      }
    }
  }

  lemma ResumeNext(s: Core, k: nat, now: int, pend: bool)
    requires k < |s.jobs|
    ensures var t := ResumeSlot(s, k, now, pend);
      k < |t.jobs| && t.jobs[k].id == s.jobs[k].id &&
      (t.jobs[k].hasNext ==> s.jobs[k].hasNext && t.jobs[k].nextRun == s.jobs[k].nextRun)
  {
  }

  lemma DrainOnce(when: Calculator, s: Core, push: bool, k: nat)
    requires |s.pending| > 0 && s.pending[|s.pending| - 1] == k < |s.jobs|
    ensures var t := DrainLast(when, s, push);
      k < |t.jobs| && (!Recurring(t.jobs[k].job) && t.jobs[k].hasNext ==> t.jobs[k].nextRun == t.jobs[k].job.schedule.onceAt)
  {
  }

  lemma OnceWorked(when: Calculator, s: Core, l: Label, k: nat)
    requires Inv(s) && Enabled(s, l) && WorksOn(s, l, k) && !l.Dispatch? && !l.Finish? && !l.Add?
    requires k < |s.jobs| && s.jobs[k].occupied && !Recurring(s.jobs[k].job)
    ensures var t := Step(when, s, l);
      k < |t.jobs| && (t.jobs[k].occupied && t.jobs[k].hasNext ==> OnceStep(s, l, t.jobs[k], k))
  {
    SlotKeepsJob(when, s, l, k);
    match l
    case Cancel(_, grow) => CancelFreesIdle(when, s, k, grow);
    case Pause(_) => PauseStops(when, s, k);
    case Resume(_, now, pend) => ResumeNext(s, k, now, pend);
    case Drain(_, push) => DrainOnce(when, s, push, k);
    case Refresh(_, _, _) => assert false;
  }

  lemma OnceAdded(when: Calculator, s: Core, l: Label, k: nat)
    requires Inv(s) && l.Add? && WorksOn(s, l, k)
    ensures var t := Step(when, s, l);
      k < |t.jobs| && t.jobs[k].occupied && !Recurring(t.jobs[k].job) && t.jobs[k].hasNext ==> OnceStep(s, l, t.jobs[k], k)
  {
    if AddSucceeds(s, l.job, l.startPaused, l.callback, l.now, l.add) {
      AddFlags(when, s, l);
      PlacedStores(s, l.job, l.startPaused);
      AddStoresJob(when, s, l);
    }
  }

  lemma OnceFinished(when: Calculator, s: Core, v: Invocation, now: int, env: Env)
    requires Inv(s) && v in s.inflight && !Recurring(s.jobs[v.slot].job)
    ensures var t := Step(when, s, Finish(v, now, env)); v.slot < |t.jobs| && !t.jobs[v.slot].occupied
  {
    CompletionRetiresOneShot(when, s, v, now, env);
  }

  /** One step: a one-shot job's next run is its own time, or as it was, or the retry of a refused dispatch. */
  lemma OnceNext(when: Calculator, s: Core, l: Label, k: nat)
    requires Inv(s)
    ensures var t := Step(when, s, l);
      k < |t.jobs| && t.jobs[k].occupied && !Recurring(t.jobs[k].job) && t.jobs[k].hasNext ==> OnceStep(s, l, t.jobs[k], k)
  {
    if !Enabled(s, l) {
    } else if WorksOn(s, l, k) {
      if l.Dispatch? {
        SlotKeepsJob(when, s, l, k);
        if !Recurring(s.jobs[k].job) {
          OnceDispatched(when, s, l.entry, l.now, l.env);
        }
      } else if l.Finish? {
        SlotKeepsJob(when, s, l, k);
        if !Recurring(s.jobs[k].job) {
          OnceFinished(when, s, l.event, l.now, l.env);
        }
      } else if l.Add? {
        OnceAdded(when, s, l, k);
      } else if k < |s.jobs| && s.jobs[k].occupied {
        SlotKeepsJob(when, s, l, k);
        if !Recurring(s.jobs[k].job) {
          OnceWorked(when, s, l, k);
        }
      } else {
        EmptyStaysEmpty(when, s, l, k);
      }
    } else if k < |s.jobs| && s.jobs[k].occupied {
      OthersUntouched(when, s, l, k);
    } else if l.Add? {
      AddedElsewhereEmpty(when, s, l, k);
    } else {
      EmptyStaysEmpty(when, s, l, k);
    }
  }

  lemma SlotKeepsJob(when: Calculator, s: Core, l: Label, k: nat)
    requires Inv(s) && k < |s.jobs| && s.jobs[k].occupied
    ensures var t := Step(when, s, l); k < |t.jobs| && (t.jobs[k].occupied ==> t.jobs[k].job == s.jobs[k].job)
  {
    StepEvolves(when, s, l);
    assert OccupantOk(s.jobs[k], Step(when, s, l).jobs[k], s.nextId);
  }

  /** Only an add puts a job into a slot, */
  lemma EmptyStaysEmpty(when: Calculator, s: Core, l: Label, k: nat)
    requires Inv(s) && (k < |s.jobs| ==> !s.jobs[k].occupied) && !l.Add?
    ensures var t := Step(when, s, l); k < |t.jobs| ==> !t.jobs[k].occupied
  {
    var t := Step(when, s, l);
    StepEvolves(when, s, l);
    StepKeeps(when, s, l);
    assert k < |s.jobs| ==> OccupantOk(s.jobs[k], t.jobs[k], s.nextId);
  }

  /** and only into the slot it takes. */
  lemma AddedElsewhereEmpty(when: Calculator, s: Core, l: Label, k: nat)
    requires Inv(s) && l.Add? && (k < |s.jobs| ==> !s.jobs[k].occupied) && !(Enabled(s, l) && WorksOn(s, l, k))
    ensures var t := Step(when, s, l); k < |t.jobs| ==> !t.jobs[k].occupied
  {
    var t := Step(when, s, l);
    if AddSucceeds(s, l.job, l.startPaused, l.callback, l.now, l.add) {
      StepEvolves(when, s, l);
      StepKeeps(when, s, l);
      AddStoresJob(when, s, l);
      assert k < |s.jobs| ==> OccupantOk(s.jobs[k], t.jobs[k], s.nextId);
    } else {
      FailedAddKeepsAll(when, s, l.job, l.startPaused, l.callback, l.now, l.add);
    }
  }

  // ---------- Whole runs ----------

  /** Some step of the trace from s refused the job id a second before `due`. */
  ghost predicate RetryDue(when: Calculator, s: Core, trace: seq<Label>, id: nat, due: int) {
    exists i :: 0 <= i < |trace| && RefusedIn(when, s, trace, i, id, due)
  }

  ghost predicate RefusedIn(when: Calculator, s: Core, trace: seq<Label>, i: nat, id: nat, due: int) {
    i < |trace| && RefusedBefore(Run(when, s, trace[..i]), trace[i], id, due)
  }

  lemma RetryLasts(when: Calculator, s: Core, trace: seq<Label>, id: nat, due: int)
    requires trace != [] && RetryDue(when, s, trace[..|trace| - 1], id, due)
    ensures RetryDue(when, s, trace, id, due)
  {
    var before := trace[..|trace| - 1];
    var i :| 0 <= i < |before| && RefusedIn(when, s, before, i, id, due);
    assert before[..i] == trace[..i];
    assert RefusedIn(when, s, trace, i, id, due);
  }

  /** A one-shot job is due at its own time or at the retry of a refusal; t is reached from s by the trace. */
  ghost predicate OnceDue(when: Calculator, s: Core, trace: seq<Label>, id: nat, j: Job, due: int) {
    due == j.schedule.onceAt || RetryDue(when, s, trace, id, due)
  }

  /** So are the next runs in the table t and the submissions in its log. */
  ghost predicate OnceTimes(when: Calculator, s: Core, trace: seq<Label>, t: Core) {
    (forall k :: 0 <= k < |t.jobs| ==> OnceSlot(when, s, trace, t.jobs[k])) &&
    (forall i :: 0 <= i < |t.log| ==> OnceLogged(when, s, trace, t.log[i]))
  }

  ghost predicate OnceSlot(when: Calculator, s: Core, trace: seq<Label>, r: JobRecord) {
    r.occupied && !Recurring(r.job) && r.hasNext ==> OnceDue(when, s, trace, r.id, r.job, r.nextRun)
  }

  ghost predicate OnceLogged(when: Calculator, s: Core, trace: seq<Label>, sub: Submission) {
    !Recurring(sub.job) ==> OnceDue(when, s, trace, sub.id, sub.job, sub.due)
  }

  lemma OnceDueLasts(when: Calculator, s: Core, trace: seq<Label>, id: nat, j: Job, due: int)
    requires trace != [] && OnceDue(when, s, trace[..|trace| - 1], id, j, due)
    ensures OnceDue(when, s, trace, id, j, due)
  {
    if due != j.schedule.onceAt {
      RetryLasts(when, s, trace, id, due);
    }
  }

  lemma OnceSlotFrom(when: Calculator, s: Core, trace: seq<Label>, t: Core, k: nat, q: JobRecord)
    requires trace != [] && t == Run(when, s, trace[..|trace| - 1]) && OnceTimes(when, s, trace[..|trace| - 1], t)
    requires q.occupied && !Recurring(q.job) && q.hasNext ==> OnceStep(t, trace[|trace| - 1], q, k)
    ensures OnceSlot(when, s, trace, q)
  {
    var last := |trace| - 1;
    if q.occupied && !Recurring(q.job) && q.hasNext && q.nextRun != q.job.schedule.onceAt {
      if RefusedBefore(t, trace[last], q.id, q.nextRun) {
        assert RefusedIn(when, s, trace, last, q.id, q.nextRun);
      } else {
        assert OnceSlot(when, s, trace[..last], t.jobs[k]);
        OnceDueLasts(when, s, trace, q.id, q.job, q.nextRun);
      }
    }
  }

  /** Where the next runs of u come from, as OnceNext says slot by slot. */
  ghost predicate NextsFrom(t: Core, l: Label, u: Core) {
    forall k :: 0 <= k < |u.jobs| ==> NextFromStep(t, l, u.jobs[k], k)
  }

  ghost predicate NextFromStep(t: Core, l: Label, q: JobRecord, k: nat) {
    q.occupied && !Recurring(q.job) && q.hasNext ==> OnceStep(t, l, q, k)
  }

  lemma StepFacts(when: Calculator, t: Core, l: Label)
    requires Inv(t)
    ensures NextsFrom(t, l, Step(when, t, l)) && LogStep(t, l, Step(when, t, l))
  {
    var u := Step(when, t, l);
    SubmissionsComeFrom(when, t, l);
    forall k | 0 <= k < |u.jobs|
      ensures NextFromStep(t, l, u.jobs[k], k)
    {
      OnceNext(when, t, l, k);
    }
  }

  lemma OnceLogFrom(when: Calculator, s: Core, trace: seq<Label>, t: Core, u: Core, i: nat)
    requires trace != [] && Inv(t) && OnceTimes(when, s, trace[..|trace| - 1], t)
    requires LogStep(t, trace[|trace| - 1], u) && i < |u.log|
    ensures OnceLogged(when, s, trace, u.log[i])
  {
    var l, sub := trace[|trace| - 1], u.log[i];
    if !Recurring(sub.job) {
      if i < |t.log| {
        assert OnceLogged(when, s, trace[..|trace| - 1], t.log[i]);
      } else {
        var k := if l.Dispatch? then l.entry.slot else l.event.slot;
        assert SlotOk(t, k);
        assert OnceSlot(when, s, trace[..|trace| - 1], t.jobs[k]);
      }
      OnceDueLasts(when, s, trace, sub.id, sub.job, sub.due);
    }
  }

  lemma OnceTimesNext(when: Calculator, s: Core, trace: seq<Label>, t: Core, u: Core)
    requires trace != [] && t == Run(when, s, trace[..|trace| - 1]) && Inv(t) && OnceTimes(when, s, trace[..|trace| - 1], t)
    requires NextsFrom(t, trace[|trace| - 1], u) && LogStep(t, trace[|trace| - 1], u)
    ensures OnceTimes(when, s, trace, u)
  {
    forall k | 0 <= k < |u.jobs|
      ensures OnceSlot(when, s, trace, u.jobs[k])
    {
      assert NextFromStep(t, trace[|trace| - 1], u.jobs[k], k);
      OnceSlotFrom(when, s, trace, t, k, u.jobs[k]);
    }
    forall i | 0 <= i < |u.log|
      ensures OnceLogged(when, s, trace, u.log[i])
    {
      OnceLogFrom(when, s, trace, t, u, i);
    }
  }

  lemma {:induction false} RunOnceTimes(when: Calculator, minValid: int, trace: seq<Label>)
    ensures OnceTimes(when, Init(minValid), trace, Run(when, Init(minValid), trace))
    decreases |trace|
  {
    if trace != [] {
      var before := trace[..|trace| - 1];
      RunOnceTimes(when, minValid, before);
      ReachableInv(when, minValid, before);
      StepFacts(when, Run(when, Init(minValid), before), trace[|trace| - 1]);
      OnceTimesNext(when, Init(minValid), trace, Run(when, Init(minValid), before),
                    Step(when, Run(when, Init(minValid), before), trace[|trace| - 1]));
    }
  }

  /** In every run, a one-shot job with a next run is armed for its own time, or for a second after a refusal of
      its dispatch. */
  lemma OneShotIsArmedForItsTime(when: Calculator, minValid: int, trace: seq<Label>, k: nat)
    requires k < |Run(when, Init(minValid), trace).jobs|
    ensures var r := Run(when, Init(minValid), trace).jobs[k];
      r.occupied && !Recurring(r.job) && r.hasNext ==>
        r.nextRun == r.job.schedule.onceAt || RetryDue(when, Init(minValid), trace, r.id, r.nextRun)
  {
    RunOnceTimes(when, minValid, trace);
    assert OnceSlot(when, Init(minValid), trace, Run(when, Init(minValid), trace).jobs[k]);
  }

  /** And its submission is for its own time, unless its dispatch was refused before. */
  lemma OneShotIsSubmittedForItsTime(when: Calculator, minValid: int, trace: seq<Label>, i: nat)
    requires i < |Run(when, Init(minValid), trace).log|
    ensures var sub := Run(when, Init(minValid), trace).log[i];
      !Recurring(sub.job) ==>
        sub.due == sub.job.schedule.onceAt || RetryDue(when, Init(minValid), trace, sub.id, sub.due)
  {
    RunOnceTimes(when, minValid, trace);
    assert OnceLogged(when, Init(minValid), trace, Run(when, Init(minValid), trace).log[i]);
  }
}
