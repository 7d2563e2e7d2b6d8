/**
 One-shot jobs in a dispatch pass (core/scheduler_core.cpp): one that is due and whose
 executor accepts is submitted in that pass, once, for its own due time. An inline job is
 gone by the end of the pass; any other is retired by its completion.
 */
module OneShots {
  import opened ScheduleCalculator
  import opened DueHeaps
  import opened CoreModel
  import opened CoreInvariant
  import opened CoreSteps
  import opened CoreHistory
  import opened DispatchPass
  import opened CronPass

  /** The loop turn, if it dispatches slot k, finds an executor that accepts the job of r. */
  predicate Submits(l: Label, k: nat, r: JobRecord) {
    l.Dispatch? && l.entry.slot == k ==>
      if r.job.dispatch.Inline? then l.env.inlineExecutor && l.env.submit else !CannotSubmit(r, l.env)
  }

  /** The log holds the submission, and no other under its id. */
  ghost predicate SubmittedOnce(log: seq<Submission>, sub: Submission) {
    exists i :: LoggedAt(log, sub, i)
  }

  ghost predicate LoggedAt(log: seq<Submission>, sub: Submission, i: int) {
    0 <= i < |log| && log[i] == sub && forall j :: 0 <= j < |log| && j != i ==> log[j].id != sub.id
  }

  /** A due one-shot job that waits to be dispatched. */
  ghost predicate DueOneShot(r: JobRecord, now: int) {
    Live(r) && !r.paused && OneShot(r.job) && r.hasNext && r.nextRun <= now
  }

  /** The job of r has been submitted at now. If inline it has left; else it is in flight and has no next run. */
  ghost predicate Done(s: Core, k: nat, r: JobRecord, now: int) {
    SubmittedOnce(s.log, Submission(r.id, r.job, r.nextRun, now)) &&
    if r.job.dispatch.Inline? then r.id !in s.index && r.id < s.nextId
    else
      k < |s.jobs| && Live(s.jobs[k]) && s.jobs[k].id == r.id && s.jobs[k].job == r.job &&
      s.jobs[k].running == 1 && !s.jobs[k].hasNext
  }

  lemma FirstLogged(log: seq<Submission>, sub: Submission)
    requires forall i :: 0 <= i < |log| ==> log[i].id != sub.id
    ensures SubmittedOnce(log + [sub], sub)
  {
    assert LoggedAt(log + [sub], sub, |log|);
  }

  lemma StillOnce(log: seq<Submission>, more: seq<Submission>, sub: Submission)
    requires SubmittedOnce(log, sub) && |log| <= |more|
    requires forall i :: 0 <= i < |log| ==> more[i] == log[i]
    requires forall i :: |log| <= i < |more| ==> more[i].id != sub.id
    ensures SubmittedOnce(more, sub)
  {
    var i :| LoggedAt(log, sub, i);
    assert LoggedAt(more, sub, i);
  }

  // ---------- Its own dispatch ----------

  lemma InlineOnceEnds(when: Calculator, s: Core, k: nat, now: int, env: Env)
    requires k < |s.jobs| && env.inlineExecutor && env.submit && OneShot(s.jobs[k].job)
    requires Live(s.jobs[k]) && s.jobs[k].running == 0 && !s.jobs[k].refreshPending
    ensures var r, t := s.jobs[k], DispatchInline(when, s, k, now, env);
      t.log == s.log + [Submission(r.id, r.job, r.nextRun, now)] && t.index == s.index - {r.id} && t.nextId == s.nextId
  {
    var r := s.jobs[k].(hasNext := false);
    var s2 := Finished(Submitted(Put(s, k, r), k, r.nextRun, now), k);
    assert s2.jobs[k] == r && s2.inflight == s.inflight;
    assert DispatchInline(when, s, k, now, env) == Retire(s2, k, env.grow);
  }

  lemma AsyncOnceStarts(when: Calculator, s: Core, k: nat, now: int, env: Env)
    requires k < |s.jobs| && !CannotSubmit(s.jobs[k], env) && OneShot(s.jobs[k].job) && s.jobs[k].running == 0
    ensures var r, t := s.jobs[k], DispatchAsync(when, s, k, now, env, false);
      t.log == s.log + [Submission(r.id, r.job, r.nextRun, now)] &&
      t.jobs == s.jobs[k := r.(running := 1, hasNext := false)]
  {
  }

  lemma OwnDispatchSubmits(when: Calculator, s: Core, e: DueEntry, now: int, env: Env)
    requires Inv(s) && ValidEntry(s, e) && DueOneShot(s.jobs[e.slot], now)
    requires Submits(Dispatch(e, now, env), e.slot, s.jobs[e.slot])
    ensures Done(DispatchEntry(when, s, e, now, env), e.slot, s.jobs[e.slot], now)
  {
    var k, r, s1 := e.slot, s.jobs[e.slot], PopEntry(s, e);
    assert SlotOk(s, k);
    FirstLogged(s.log, Submission(r.id, r.job, r.nextRun, now));
    if r.job.dispatch.Inline? {
      InlineOnceEnds(when, s1, k, now, env);
    } else {
      AsyncOnceStarts(when, s1, k, now, env);
    }
  }

  // ---------- Every other turn ----------

  /** An id that has left the index does not come back and submits nothing. */
  lemma GoneFromIndex(when: Calculator, s: Core, l: Label, id: nat)
    requires Inv(s) && id !in s.index && id < s.nextId
    ensures var t := Step(when, s, l);
      id !in t.index && id < t.nextId && |s.log| <= |t.log| && forall i :: |s.log| <= i < |t.log| ==> t.log[i].id != id
  {
    var t := Step(when, s, l);
    StepEvolves(when, s, l);
    StepKeeps(when, s, l);
    forall j | 0 <= j < |s.jobs|
      ensures t.jobs[j].occupied ==> t.jobs[j].id != id
    {
      assert OccupantOk(s.jobs[j], t.jobs[j], s.nextId);
    }
  }

  lemma DoneStays(when: Calculator, s: Core, l: Label, t: Core, now: int, k: nat, r: JobRecord)
    requires Inv(s) && Turn(when, s, l, t, now) && Done(s, k, r, now)
    ensures Done(t, k, r, now)
  {
    if r.job.dispatch.Inline? {
      InlineDoneStays(when, s, l, t, now, k, r);
    } else if l.Dispatch? {
      OtherDispatch(when, s, l.entry, now, l.env, k);
      assert forall i :: 0 <= i < |s.log| ==> t.log[i] == t.log[..|s.log|][i];
      StillOnce(s.log, t.log, Submission(r.id, r.job, r.nextRun, now));
    }
  }

  lemma InlineDoneStays(when: Calculator, s: Core, l: Label, t: Core, now: int, k: nat, r: JobRecord)
    requires Inv(s) && Turn(when, s, l, t, now) && Done(s, k, r, now) && r.job.dispatch.Inline?
    ensures Done(t, k, r, now)
  {
    TurnIsStep(when, s, l, t, now);
    GoneFromIndex(when, s, l, r.id);
    StepEvolves(when, s, l);
    StillOnce(s.log, t.log, Submission(r.id, r.job, r.nextRun, now));
  }

  /** The job is still as it was, or it has been submitted. */
  ghost predicate WaitsOrDone(s: Core, k: nat, r: JobRecord, now: int) {
    (k < |s.jobs| && s.jobs[k] == r) || Done(s, k, r, now)
  }

  lemma DispatchWaits(when: Calculator, s: Core, e: DueEntry, now: int, env: Env, k: nat)
    requires Inv(s) && ValidEntry(s, e) && k < |s.jobs| && DueOneShot(s.jobs[k], now)
    requires Submits(Dispatch(e, now, env), k, s.jobs[k])
    ensures WaitsOrDone(DispatchEntry(when, s, e, now, env), k, s.jobs[k], now)
  {
    if e.slot == k {
      OwnDispatchSubmits(when, s, e, now, env);
    } else {
      OtherDispatch(when, s, e, now, env, k);
    }
  }

  lemma WaitingTurn(when: Calculator, s: Core, l: Label, t: Core, now: int, k: nat)
    requires Inv(s) && Turn(when, s, l, t, now) && k < |s.jobs| && DueOneShot(s.jobs[k], now) && Submits(l, k, s.jobs[k])
    ensures WaitsOrDone(t, k, s.jobs[k], now)
  {
    if l.Dispatch? {
      DispatchWaits(when, s, l.entry, now, l.env, k);
    } else {
      PruneUntouched(s, l.entry, k);
    }
  }

  lemma SubmitsAt(when: Calculator, pass: seq<Label>, states: seq<Core>, now: int, k: nat, r: JobRecord, n: nat)
    requires TurnAt(when, pass, states, now, n) && Inv(states[n]) && DueOneShot(r, now) && Submits(pass[n], k, r)
    requires WaitsOrDone(states[n], k, r, now)
    ensures Inv(states[n + 1]) && WaitsOrDone(states[n + 1], k, r, now)
  {
    TurnKeeps(when, states[n], pass[n], states[n + 1], now);
    if Done(states[n], k, r, now) {
      DoneStays(when, states[n], pass[n], states[n + 1], now, k, r);
    } else {
      WaitingTurn(when, states[n], pass[n], states[n + 1], now, k);
    }
  }

  // ---------- Whole passes and completions ----------

  /** In every finished pass a due one-shot job whose executor accepts is submitted, exactly once in the whole
      run, for its due time; an inline one has left the index, any other is in flight with no next run. */
  lemma DueOneShotIsSubmitted(when: Calculator, pass: seq<Label>, states: seq<Core>, now: int, k: nat)
    requires IsPass(when, pass, states, now) && Inv(states[0])
    requires k < |states[0].jobs| && DueOneShot(states[0].jobs[k], now)
    requires forall i :: 0 <= i < |pass| ==> Submits(pass[i], k, states[0].jobs[k])
    requires forall e :: e in states[|pass|].heap ==> e.epoch > now
    ensures Done(states[|pass|], k, states[0].jobs[k], now)
  {
    var r := states[0].jobs[k];
    var n := 0;
    while n < |pass|
      invariant n <= |pass| && Inv(states[n]) && WaitsOrDone(states[n], k, r, now)
    {
      SubmitsAt(when, pass, states, now, k, r, n);
      n := n + 1;
    }
    if !Done(states[|pass|], k, r, now) {
      NothingDueLeft(states[|pass|], now, k);
      assert false;
    }
  }

  /** Whatever happened meanwhile, the completion of a one-shot invocation in flight retires its job and
      submits nothing. */
  lemma CompletionRetiresOneShot(when: Calculator, s: Core, v: Invocation, now: int, env: Env)
    requires Inv(s) && v in s.inflight && OneShot(s.jobs[v.slot].job)
    ensures var t := Step(when, s, Finish(v, now, env));
      v.id !in t.index && v.slot < |t.jobs| && !t.jobs[v.slot].occupied && t.log == s.log && t.inflight == s.inflight - multiset{v}
  {
    var k := v.slot;
    assert SlotOk(s, k);
    var s1 := Finished(s, k);
    assert s1.jobs[k].running == 0;
    assert Complete(when, s, k, now, env) == Retire(s1, k, env.grow);
    assert Enabled(s, Finish(v, now, env));
  }
}
