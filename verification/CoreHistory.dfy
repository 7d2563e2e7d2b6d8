/** How one step may change the occupants of the job table and the log of submissions. */
module CoreHistory {
  import opened ScheduleCalculator
  import opened DueHeaps
  import opened CoreModel
  import opened CoreInvariant
  import opened CoreSteps

  // ---------- Every operation is a tame change of one slot, perhaps followed by its retirement ----------

  function Closed(u: Core, k: nat, retired: bool, grow: bool): Core
    requires k < |u.jobs|
  {
    if retired then Retire(u, k, grow) else u
  }

  lemma CancelShape(s: Core, k: nat, grow: bool) returns (u: Core, retired: bool)
    requires k < |s.jobs| && Live(s.jobs[k])
    ensures Tame(s, u, k) && CancelSlot(s, k, grow) == Closed(u, k, retired, grow) && u.jobs[k].canceled
  {
    var r := Cleared(s.jobs[k]).(canceled := true, paused := false, queued := false);
    PutTame(s, k, r);
    u, retired := Put(s, k, r), r.running == 0;
  }

  lemma ResumeShape(s: Core, k: nat, now: int, pend: bool)
    requires k < |s.jobs| && Live(s.jobs[k])
    ensures Tame(s, ResumeSlot(s, k, now, pend), k)
  {
    var s1 := Put(s, k, s.jobs[k].(paused := false, queued := false));
    PutTame(s, k, s1.jobs[k]);
    QueueTame(s1, k, now, pend);
    TameTransitive(s, s1, QueueScheduling(s1, k, now, pend), k);
  }

  lemma RefreshShape(when: Calculator, s: Core, k: nat, now: int, push: bool)
    requires k < |s.jobs| && Live(s.jobs[k])
    ensures Tame(s, RefreshSlot(when, s, k, now, push), k)
  {
    var r := s.jobs[k].(pending := false, hasNext := false, nextRun := 0);
    PutTame(s, k, r.(refreshPending := true, queued := false));
    var s1 := Put(s, k, r.(refreshPending := false));
    PutTame(s, k, s1.jobs[k]);
    ScheduleTame(when, s1, k, now, push);
    TameTransitive(s, s1, Schedule(when, s1, k, now, push), k);
  }

  lemma DropPendingTame(s: Core, k: nat)
    requires |s.pending| > 0 && s.pending[|s.pending| - 1] == k < |s.jobs| && s.jobs[k].occupied
    ensures Tame(s, s.(pending := s.pending[..|s.pending| - 1]), k)
  {
    var n := |s.pending| - 1;
    assert s.pending == s.pending[..n] + [k];
    assert s.jobs[k := s.jobs[k]] == s.jobs;
  }

  lemma DrainShape(when: Calculator, s: Core, push: bool)
    requires |s.pending| > 0 && s.pending[|s.pending| - 1] < |s.jobs|
    requires s.jobs[s.pending[|s.pending| - 1]].occupied
    ensures Tame(s, DrainLast(when, s, push), s.pending[|s.pending| - 1])
  {
    var k := s.pending[|s.pending| - 1];
    var s1 := Put(s, k, s.jobs[k].(pending := false));
    PutTame(s, k, s1.jobs[k]);
    DropPendingTame(s1, k);
    var s2 := s1.(pending := s.pending[..|s.pending| - 1]);
    TameTransitive(s, s1, s2, k);
    DrainSplit(when, s, push);
    PutTame(s2, k, s2.jobs[k].(hasNext := false));
    ScheduleTame(when, s2, k, s2.jobs[k].scheduleFrom, push);
    TameTransitive(s, s2, DrainLast(when, s, push), k);
  }

  lemma SettleShape(s: Core, k: nat, now: int, env: Env) returns (u: Core, retired: bool)
    requires k < |s.jobs| && s.jobs[k].occupied
    ensures Tame(s, u, k) && Settle(s, k, now, env) == Closed(u, k, retired, env.grow)
  {
    var r := s.jobs[k];
    PutTame(s, k, r);
    assert s.jobs[k := r] == s.jobs;
    u, retired := s, false;
    if r.running > 0 {
    } else if r.canceled || (!r.refreshPending && !r.hasNext && OneShot(r.job)) {
      retired := true;
    } else if r.refreshPending {
      var s1 := Put(s, k, r.(refreshPending := false, queued := false, hasNext := false));
      PutTame(s, k, s1.jobs[k]);
      QueueTame(s1, k, now, env.pend);
      u := QueueScheduling(s1, k, now, env.pend);
      TameTransitive(s, s1, u, k);
    } else if !r.hasNext && !r.paused {
      QueueTame(s, k, now, env.pend);
      u := QueueScheduling(s, k, now, env.pend);
    }
  }

  lemma InlineShape(when: Calculator, s: Core, k: nat, now: int, env: Env) returns (u: Core, retired: bool)
    requires k < |s.jobs| && Live(s.jobs[k]) && !s.jobs[k].paused
    ensures Tame(s, u, k) && DispatchInline(when, s, k, now, env) == Closed(u, k, retired, env.grow)
  {
    var r := s.jobs[k];
    retired := false;
    if !env.inlineExecutor {
      RetryTame(s, k, now, env.retryPush);
      u := Retry(s, k, now, env.retryPush);
    } else {
      var s1 := Advance(when, s, k, r.nextRun, OneShot(r.job), env.push);
      AdvanceTame(when, s, k, r.nextRun, OneShot(r.job), env.push);
      if !env.submit {
        RetryTame(s1, k, now, env.retryPush);
        u := Retry(s1, k, now, env.retryPush);
        TameTransitive(s, s1, u, k);
      } else {
        AdvancedLive(when, s, k, r.nextRun, OneShot(r.job), env.push);
        u, retired := SubmittedShape(s1, k, r.nextRun, now, env);
        TameTransitive(s, s1, u, k);
      }
    }
  }

  lemma AdvancedLive(when: Calculator, s: Core, k: nat, due: int, stop: bool, push: bool)
    requires k < |s.jobs| && Live(s.jobs[k])
    ensures Live(Advance(when, s, k, due, stop, push).jobs[k])
  {
  }

  lemma SubmittedShape(s: Core, k: nat, due: int, now: int, env: Env) returns (u: Core, retired: bool)
    requires k < |s.jobs| && Live(s.jobs[k])
    ensures Tame(s, u, k)
    ensures Settle(Finished(Submitted(s, k, due, now), k), k, now, env) == Closed(u, k, retired, env.grow)
  {
    var s2 := Submitted(s, k, due, now);
    var s3 := Finished(s2, k);
    SubmittedTame(s, k, due, now);
    FinishedTame(s2, k);
    TameTransitive(s, s2, s3, k);
    u, retired := SettleShape(s3, k, now, env);
    TameTransitive(s, s3, u, k);
  }

  lemma DispatchOneShape(when: Calculator, s: Core, k: nat, now: int, env: Env, deferred: bool)
    returns (u: Core, retired: bool)
    requires k < |s.jobs| && Live(s.jobs[k]) && !s.jobs[k].paused
    ensures Tame(s, u, k) && DispatchOne(when, s, k, now, env, deferred) == Closed(u, k, retired, env.grow)
  {
    var r := s.jobs[k];
    if r.job.dispatch.Inline? {
      u, retired := InlineShape(when, s, k, now, env);
    } else {
      retired := false;
      u := DispatchAsync(when, s, k, now, env, deferred);
      if CannotSubmit(r, env) {
        RetryTame(s, k, now, env.retryPush);
      } else {
        var s1 := Submitted(s, k, r.nextRun, now);
        SubmittedTame(s, k, r.nextRun, now);
        AdvanceTame(when, s1, k, r.nextRun, deferred || OneShot(r.job), env.push);
        TameTransitive(s, s1, u, k);
      }
    }
  }

  lemma DispatchShape(when: Calculator, s: Core, e: DueEntry, now: int, env: Env) returns (u: Core, retired: bool)
    requires ValidEntry(s, e)
    ensures Tame(s, u, e.slot) && DispatchEntry(when, s, e, now, env) == Closed(u, e.slot, retired, env.grow)
  {
    var k := e.slot;
    var s1 := PopEntry(s, e);
    var r := s1.jobs[k];
    PopTame(s, e);
    if r.paused || (r.running > 0 && !r.job.overlap.AllowParallel?) {
      retired := false;
      u := DispatchEntry(when, s, e, now, env);
      PutTame(s1, k, u.jobs[k]);
    } else {
      u, retired := DispatchOneShape(when, s1, k, now, env, false);
    }
    TameTransitive(s, s1, u, k);
  }

  lemma CompleteShape(when: Calculator, s: Core, k: nat, now: int, env: Env) returns (u: Core, retired: bool)
    requires k < |s.jobs| && s.jobs[k].occupied
    ensures Tame(s, u, k) && Complete(when, s, k, now, env) == Closed(u, k, retired, env.grow)
  {
    var s1 := Finished(s, k);
    var r := s1.jobs[k];
    FinishedTame(s, k);
    if !Deferred(r) {
      u, retired := SettleShape(s1, k, now, env);
      TameTransitive(s, s1, u, k);
    } else if r.paused {
      u, retired := s1, false;
    } else {
      var s2 := Put(s1, k, r.(queued := false));
      PutTame(s1, k, s2.jobs[k]);
      TameTransitive(s, s1, s2, k);
      u, retired := DispatchOneShape(when, s2, k, now, env, true);
      TameTransitive(s, s2, u, k);
    }
  }

  // ---------- Occupants over time ----------

  /** The same job stays, or it left and the generation moved on, or a free slot took a fresh id. */
  ghost predicate OccupantOk(r: JobRecord, q: JobRecord, nextId: nat) {
    if r.occupied then
      (q.occupied && q.id == r.id && q.generation == r.generation && q.job == r.job && (r.canceled ==> q.canceled)) ||
      (!q.occupied && q.generation == r.generation + 1)
    else
      q.generation == r.generation && (q.occupied ==> q.id == nextId)
  }

  ghost predicate Evolves(s: Core, t: Core) {
    s.nextId <= t.nextId && |s.jobs| <= |t.jobs| && |s.log| <= |t.log| &&
    (forall k :: 0 <= k < |s.jobs| ==> OccupantOk(s.jobs[k], t.jobs[k], s.nextId)) &&
    (forall k :: |s.jobs| <= k < |t.jobs| ==> t.jobs[k].id == s.nextId) &&
    (forall i :: 0 <= i < |s.log| ==> t.log[i] == s.log[i]) &&
    (forall i :: |s.log| <= i < |t.log| ==> SubmittedBy(s, t.log[i]))
  }

  /** A step other than addJob: no new id is handed out. */
  ghost predicate EvolvesQuietly(s: Core, t: Core) { Evolves(s, t) && t.nextId == s.nextId }

  /** A submission made from state s belongs to a live job of s. */
  ghost predicate SubmittedBy(s: Core, sub: Submission) {
    exists k :: 0 <= k < |s.jobs| && Live(s.jobs[k]) && s.jobs[k].id == sub.id && s.jobs[k].job == sub.job
  }

  lemma ClosedEvolves(s: Core, u: Core, k: nat, retired: bool, grow: bool)
    requires Tame(s, u, k)
    ensures EvolvesQuietly(s, Closed(u, k, retired, grow))
  {
    var t := Closed(u, k, retired, grow);
    forall i | 0 <= i < |s.log|
      ensures t.log[i] == s.log[i]
    {
      assert t.log[i] == t.log[..|s.log|][i];
    }
    assert forall j :: 0 <= j < |s.jobs| && j != k ==> t.jobs[j] == s.jobs[j];
  }

  /** A successful addJob is a placement followed by a tame change of the new slot. */
  lemma AddShape(when: Calculator, s: Core, job: Job, paused: bool, callback: bool, now: int, env: AddEnv)
    requires Inv(s) && AddSucceeds(s, job, paused, callback, now, env)
    ensures Tame(Placed(s, job, paused), AddJob(when, s, job, paused, callback, now, env), AddSlot(s))
  {
    var k := AddSlot(s);
    PlacedRecord(s, job, paused);
    var s1 := Placed(s, job, paused);
    if paused {
      PutTame(s1, k, s1.jobs[k]);
      assert s1.jobs[k := s1.jobs[k]] == s1.jobs;
    } else if ClockValid(s, now) {
      ScheduleTame(when, s1, k, now, env.push);
    } else {
      QueueTame(s1, k, now, env.pend);
    }
  }

  lemma SpentEvolves(s: Core)
    requires Inv(s)
    ensures Evolves(s, s.(nextId := s.nextId + 1)) && Evolves(s, RolledBack(s))
  {
  }

  lemma AddEvolves(when: Calculator, s: Core, job: Job, paused: bool, callback: bool, now: int, env: AddEnv)
    requires Inv(s)
    ensures Evolves(s, AddJob(when, s, job, paused, callback, now, env))
  {
    if AddSucceeds(s, job, paused, callback, now, env) {
      AddShape(when, s, job, paused, callback, now, env);
      PlacedEvolves(s, AddJob(when, s, job, paused, callback, now, env), job, paused);
    } else {
      SpentEvolves(s);
    }
  }

  lemma PlacedEvolves(s: Core, t: Core, job: Job, paused: bool)
    requires Inv(s) && Tame(Placed(s, job, paused), t, AddSlot(s)) && t.log == s.log
    ensures Evolves(s, t)
  {
    var s1, k := Placed(s, job, paused), AddSlot(s);
    assert forall j :: 0 <= j < |t.jobs| && j != k ==> t.jobs[j] == s1.jobs[j];
    assert forall j :: 0 <= j < |s.jobs| && j != k ==> s1.jobs[j] == s.jobs[j];
  }

  lemma CallEvolves(s: Core, k: nat, now: int, answer: bool)
    requires k < |s.jobs| && Live(s.jobs[k])
    ensures EvolvesQuietly(s, CancelSlot(s, k, answer))
    ensures EvolvesQuietly(s, PauseSlot(s, k))
    ensures EvolvesQuietly(s, ResumeSlot(s, k, now, answer))
  {
    var u, retired := CancelShape(s, k, answer);
    ClosedEvolves(s, u, k, retired, answer);
    PutTame(s, k, Cleared(s.jobs[k]).(paused := true, queued := false));
    ClosedEvolves(s, PauseSlot(s, k), k, false, false);
    ResumeShape(s, k, now, answer);
    ClosedEvolves(s, ResumeSlot(s, k, now, answer), k, false, false);
  }

  lemma DispatchEvolves(when: Calculator, s: Core, e: DueEntry, now: int, env: Env)
    requires ValidEntry(s, e)
    ensures EvolvesQuietly(s, DispatchEntry(when, s, e, now, env))
  {
    var u, retired := DispatchShape(when, s, e, now, env);
    ClosedEvolves(s, u, e.slot, retired, env.grow);
  }

  lemma CompleteEvolves(when: Calculator, s: Core, k: nat, now: int, env: Env)
    requires k < |s.jobs| && s.jobs[k].occupied
    ensures EvolvesQuietly(s, Complete(when, s, k, now, env))
  {
    var u, retired := CompleteShape(when, s, k, now, env);
    ClosedEvolves(s, u, k, retired, env.grow);
  }

  lemma RefreshEvolves(when: Calculator, s: Core, k: nat, now: int, push: bool)
    requires k < |s.jobs| && Live(s.jobs[k])
    ensures EvolvesQuietly(s, RefreshSlot(when, s, k, now, push))
  {
    RefreshShape(when, s, k, now, push);
    ClosedEvolves(s, RefreshSlot(when, s, k, now, push), k, false, false);
  }

  lemma SameTableEvolves(s: Core, t: Core)
    requires t.jobs == s.jobs && t.nextId == s.nextId && t.log == s.log
    ensures EvolvesQuietly(s, t)
  {
  }

  lemma CallStepEvolves(when: Calculator, s: Core, l: Label)
    requires Enabled(s, l) && (l.Cancel? || l.Pause? || l.Resume? || l.Refresh?)
    ensures EvolvesQuietly(s, Step(when, s, l))
  {
    match l
    case Cancel(k, grow) => CallEvolves(s, k, 0, grow);
    case Pause(k) => CallEvolves(s, k, 0, false);
    case Resume(k, now, pend) => CallEvolves(s, k, now, pend);
    case Refresh(k, now, push) => RefreshEvolves(when, s, k, now, push);
  }

  lemma TickStepEvolves(when: Calculator, s: Core, l: Label)
    requires Inv(s) && Enabled(s, l) && (l.SetMinValid? || l.Drain? || l.Prune? || l.Dispatch? || l.Finish?)
    ensures EvolvesQuietly(s, Step(when, s, l))
  {
    match l
    case SetMinValid(m) => SameTableEvolves(s, Step(when, s, l));
    case Drain(_, push) => DrainEvolves(when, s, push);
    case Prune(e) => SameTableEvolves(s, Step(when, s, l));
    case Dispatch(e, now, env) => DispatchEvolves(when, s, e, now, env);
    case Finish(v, now, env) => CompleteEvolves(when, s, v.slot, now, env);
  }

  /** What one step may do to the table and the log. */
  lemma StepEvolves(when: Calculator, s: Core, l: Label)
    requires Inv(s)
    ensures Evolves(s, Step(when, s, l)) && (l.Add? || EvolvesQuietly(s, Step(when, s, l)))
  {
    if !Enabled(s, l) {
      SameTableEvolves(s, s);
    } else if l.Add? {
      AddEvolves(when, s, l.job, l.startPaused, l.callback, l.now, l.add);
    } else if l.Cancel? || l.Pause? || l.Resume? || l.Refresh? {
      CallStepEvolves(when, s, l);
    } else {
      TickStepEvolves(when, s, l);
    }
  }

  lemma DrainEvolves(when: Calculator, s: Core, push: bool)
    requires Inv(s) && |s.pending| > 0
    ensures EvolvesQuietly(s, DrainLast(when, s, push))
  {
    var k := s.pending[|s.pending| - 1];
    if s.jobs[k].occupied {
      DrainShape(when, s, push);
      ClosedEvolves(s, DrainLast(when, s, push), k, false, false);
    } else {
      assert SlotOk(s, k);
      assert DrainLast(when, s, push).jobs == s.jobs;
    }
  }
}
