/** Every label keeps the invariant, hence so does every run. */
module CoreSteps {
  import opened Calendar
  import opened ScheduleCalculator
  import opened DueHeaps
  import opened CoreModel
  import opened CoreInvariant

  // ---------- The pieces are tame ----------

  predicate SameJob(r: JobRecord, q: JobRecord) {
    q.occupied && r.occupied && q.id == r.id && q.generation == r.generation && q.job == r.job &&
    (r.canceled ==> q.canceled)
  }

  lemma PutTame(s: Core, k: nat, r: JobRecord)
    requires k < |s.jobs| && SameJob(s.jobs[k], r) && r.running == s.jobs[k].running
    ensures Tame(s, Put(s, k, r), k)
  {
  }

  lemma ArmTame(s: Core, k: nat, r: JobRecord, push: bool)
    requires k < |s.jobs| && SameJob(s.jobs[k], r) && r.running == s.jobs[k].running
    ensures Tame(s, Arm(s, k, r, push), k)
  {
  }

  lemma ScheduleTame(when: Calculator, s: Core, k: nat, from: int, push: bool)
    requires k < |s.jobs| && s.jobs[k].occupied
    ensures Tame(s, Schedule(when, s, k, from, push), k)
  {
    var s1 := s.(missed := MissedAfter(when, s.missed, s.jobs[k], from));
    ArmTame(s1, k, Search(when, s.jobs[k], from), push);
  }

  lemma RetryTame(s: Core, k: nat, now: int, push: bool)
    requires k < |s.jobs| && s.jobs[k].occupied
    ensures Tame(s, Retry(s, k, now, push), k)
  {
    ArmTame(s, k, s.jobs[k].(hasNext := true, nextRun := now + RETRY_DELAY_SECONDS), push);
  }

  lemma QueueTame(s: Core, k: nat, from: int, pend: bool)
    requires k < |s.jobs| && s.jobs[k].occupied
    ensures Tame(s, QueueScheduling(s, k, from, pend), k)
  {
  }

  lemma SubmittedTame(s: Core, k: nat, due: int, now: int)
    requires k < |s.jobs| && Live(s.jobs[k])
    ensures Tame(s, Submitted(s, k, due, now), k)
  {
    var t := Submitted(s, k, due, now);
    assert t.log[..|s.log|] == s.log;
  }

  lemma FinishedTame(s: Core, k: nat)
    requires k < |s.jobs| && s.jobs[k].occupied
    ensures Tame(s, Finished(s, k), k)
  {
  }

  lemma PopTame(s: Core, e: DueEntry)
    requires e.slot < |s.jobs| && s.jobs[e.slot].occupied
    ensures Tame(s, PopEntry(s, e), e.slot)
  {
  }

  lemma AdvanceTame(when: Calculator, s: Core, k: nat, due: int, stop: bool, push: bool)
    requires k < |s.jobs| && s.jobs[k].occupied
    ensures Tame(s, Advance(when, s, k, due, stop, push), k)
  {
    if stop {
      PutTame(s, k, s.jobs[k].(hasNext := false));
    } else {
      ScheduleTame(when, s, k, due + MINUTE, push);
    }
  }

  // ---------- The slot after each piece ----------

  /** Slot k is in order once its next run is dropped. */
  ghost predicate Loose(s: Core, k: nat) {
    k < |s.jobs| &&
    var r := s.jobs[k];
    r.occupied && FlagsOk(r.(hasNext := false)) && (r.pending ==> k in s.pending) &&
    r.running == s.inflight[InvocationOf(r, k)] && HistoryOk(s.log, r)
  }

  lemma LooseSlot(s: Core, k: nat)
    requires k < |s.jobs| && s.jobs[k].occupied && SlotOk(s, k)
    ensures Loose(s, k)
  {
  }

  lemma DroppedSlot(s: Core, k: nat)
    requires Loose(s, k)
    ensures SlotOk(Put(s, k, s.jobs[k].(hasNext := false)), k)
  {
  }

  lemma ScheduledSlot(when: Calculator, s: Core, k: nat, from: int, push: bool)
    requires Loose(s, k) && !s.jobs[k].pending && !s.jobs[k].queued
    requires OneShot(s.jobs[k].job) ==> s.jobs[k].running == 0
    ensures SlotOk(Schedule(when, s, k, from, push), k)
  {
    var r := Search(when, s.jobs[k], from);
    assert FlagsOk(r) && FlagsOk(r.(hasNext := false));
  }

  lemma RetriedSlot(s: Core, k: nat, now: int, push: bool)
    requires Loose(s, k) && Live(s.jobs[k]) && !s.jobs[k].paused
    requires !s.jobs[k].pending && !s.jobs[k].queued && !s.jobs[k].refreshPending
    requires OneShot(s.jobs[k].job) ==> s.jobs[k].running == 0 && now >= s.jobs[k].job.schedule.onceAt
    ensures SlotOk(Retry(s, k, now, push), k)
  {
  }

  lemma QueuedSlot(s: Core, k: nat, from: int, pend: bool)
    requires Loose(s, k) && s.jobs[k].running == 0
    ensures SlotOk(QueueScheduling(s, k, from, pend), k)
  {
  }

  // ---------- Retirement ----------

  lemma RetireHeapAndIndex(s: Core, k: nat, grow: bool)
    requires k < |s.jobs| && HeapOk(s) && IndexOk(s) && s.jobs[k].occupied
    ensures HeapOk(Retire(s, k, grow)) && IndexOk(Retire(s, k, grow))
  {
    var t := Retire(s, k, grow);
    assert forall j :: 0 <= j < |s.jobs| && j != k ==> t.jobs[j] == s.jobs[j];
  }

  lemma RetireInflight(s: Core, k: nat, grow: bool)
    requires k < |s.jobs| && InflightOk(s) && s.jobs[k].occupied
    requires s.jobs[k].running == 0 == s.inflight[InvocationOf(s.jobs[k], k)]
    ensures InflightOk(Retire(s, k, grow))
  {
    SumUpdate(s.jobs, k, Retire(s, k, grow).jobs[k]);
  }

  lemma RetireLists(s: Core, k: nat, grow: bool)
    requires k < |s.jobs| && FreeOk(s) && PendingOk(s) && s.jobs[k].occupied
    ensures FreeOk(Retire(s, k, grow)) && PendingOk(Retire(s, k, grow))
  {
    assert forall i :: 0 <= i < |s.free| ==> s.free[i] != k;
  }

  /** A slot with nothing in flight is given back without disturbing any other. */
  lemma RetireKeeps(s: Core, k: nat, grow: bool)
    requires InvBut(s, k) && s.jobs[k].occupied
    requires s.jobs[k].running == 0 == s.inflight[InvocationOf(s.jobs[k], k)]
    ensures Inv(Retire(s, k, grow))
  {
    var t := Retire(s, k, grow);
    RetireHeapAndIndex(s, k, grow);
    RetireInflight(s, k, grow);
    RetireLists(s, k, grow);
    forall j | 0 <= j < |t.jobs|
      ensures SlotOk(t, j)
    {
      if j != k {
        assert SlotOk(s, j);
        assert t.jobs[j] == s.jobs[j];
      }
    }
  }

  // ---------- API calls ----------

  lemma PauseKeeps(s: Core, k: nat)
    requires Inv(s) && k < |s.jobs| && Live(s.jobs[k])
    ensures Inv(PauseSlot(s, k))
  {
    assert SlotOk(s, k);
    PutTame(s, k, Cleared(s.jobs[k]).(paused := true, queued := false));
    TameInv(s, PauseSlot(s, k), k);
  }

  lemma CancelKeeps(s: Core, k: nat, grow: bool)
    requires Inv(s) && k < |s.jobs| && Live(s.jobs[k])
    ensures Inv(CancelSlot(s, k, grow))
  {
    assert SlotOk(s, k);
    var r := Cleared(s.jobs[k]).(canceled := true, paused := false, queued := false);
    PutTame(s, k, r);
    TameKeeps(s, Put(s, k, r), k);
    if r.running == 0 {
      RetireKeeps(Put(s, k, r), k, grow);
    } else {
      TameInv(s, Put(s, k, r), k);
    }
  }

  lemma ResumeKeeps(s: Core, k: nat, now: int, pend: bool)
    requires Inv(s) && k < |s.jobs| && Live(s.jobs[k])
    ensures Inv(ResumeSlot(s, k, now, pend))
  {
    assert SlotOk(s, k);
    var s1 := Put(s, k, s.jobs[k].(paused := false, queued := false));
    PutTame(s, k, s1.jobs[k]);
    if s.jobs[k].running == 0 {
      QueueTame(s1, k, now, pend);
      TameTransitive(s, s1, QueueScheduling(s1, k, now, pend), k);
    }
    TameInv(s, ResumeSlot(s, k, now, pend), k);
  }

  lemma RefreshKeeps(when: Calculator, s: Core, k: nat, now: int, push: bool)
    requires Inv(s) && k < |s.jobs| && Refreshable(s.jobs[k])
    ensures Inv(RefreshSlot(when, s, k, now, push))
  {
    assert SlotOk(s, k);
    var r := s.jobs[k].(pending := false, hasNext := false, nextRun := 0);
    if r.running > 0 && !r.job.overlap.AllowParallel? {
      PutTame(s, k, r.(refreshPending := true, queued := false));
    } else {
      var s1 := Put(s, k, r.(refreshPending := false));
      PutTame(s, k, r.(refreshPending := false));
      ScheduleTame(when, s1, k, now, push);
      ScheduledSlot(when, s1, k, now, push);
      TameTransitive(s, s1, Schedule(when, s1, k, now, push), k);
    }
    TameInv(s, RefreshSlot(when, s, k, now, push), k);
  }

  // ---------- Ticks ----------

  lemma DroppedPending(s: Core)
    requires Inv(s) && |s.pending| > 0 && !s.jobs[s.pending[|s.pending| - 1]].pending
    ensures Inv(s.(pending := s.pending[..|s.pending| - 1]))
  {
    var n := |s.pending| - 1;
    var t := s.(pending := s.pending[..n]);
    forall j | 0 <= j < |t.jobs|
      ensures SlotOk(t, j)
    {
      assert SlotOk(s, j);
      if s.jobs[j].pending {
        assert s.pending == s.pending[..n] + [s.pending[n]];
      }
    }
  }

  /** DrainLast is: clear the flag, drop the list entry, then recompute or drop the next run. */
  lemma DrainSplit(when: Calculator, s: Core, push: bool)
    requires |s.pending| > 0 && s.pending[|s.pending| - 1] < |s.jobs|
    ensures var k := s.pending[|s.pending| - 1];
      var s1 := Put(s, k, s.jobs[k].(pending := false)).(pending := s.pending[..|s.pending| - 1]);
      DrainLast(when, s, push) ==
      if !s1.jobs[k].occupied || s1.jobs[k].canceled || s1.jobs[k].paused || s1.jobs[k].running > 0
      then Put(s1, k, s1.jobs[k].(hasNext := false))
      else Schedule(when, s1, k, s1.jobs[k].scheduleFrom, push)
  {
  }

  lemma DrainKeeps(when: Calculator, s: Core, push: bool)
    requires Inv(s) && |s.pending| > 0
    ensures Inv(DrainLast(when, s, push))
  {
    var k := s.pending[|s.pending| - 1];
    var s1 := Put(s, k, s.jobs[k].(pending := false));
    assert SlotOk(s, k);
    if s.jobs[k].occupied {
      PutTame(s, k, s1.jobs[k]);
      TameInv(s, s1, k);
    } else {
      assert s1.jobs == s.jobs;
    }
    DroppedPending(s1);
    var s2 := s1.(pending := s.pending[..|s.pending| - 1]);
    if s.jobs[k].occupied {
      DrainedSlot(when, s2, k, push);
    } else {
      assert Put(s2, k, s2.jobs[k].(hasNext := false)).jobs == s2.jobs;
    }
    DrainSplit(when, s, push);
  }

  lemma DrainedSlot(when: Calculator, s: Core, k: nat, push: bool)
    requires Inv(s) && k < |s.jobs| && s.jobs[k].occupied && !s.jobs[k].pending
    ensures Inv(Put(s, k, s.jobs[k].(hasNext := false)))
    ensures s.jobs[k].running == 0 ==> Inv(Schedule(when, s, k, s.jobs[k].scheduleFrom, push))
  {
    assert SlotOk(s, k);
    LooseSlot(s, k);
    DroppedSlot(s, k);
    PutTame(s, k, s.jobs[k].(hasNext := false));
    TameInv(s, Put(s, k, s.jobs[k].(hasNext := false)), k);
    if s.jobs[k].running == 0 {
      ScheduleKeeps(when, s, k, s.jobs[k].scheduleFrom, push);
    }
  }

  lemma ScheduleKeeps(when: Calculator, s: Core, k: nat, from: int, push: bool)
    requires Inv(s) && k < |s.jobs| && s.jobs[k].occupied && !s.jobs[k].pending && !s.jobs[k].queued
    requires OneShot(s.jobs[k].job) ==> s.jobs[k].running == 0
    ensures Inv(Schedule(when, s, k, from, push))
  {
    assert SlotOk(s, k);
    LooseSlot(s, k);
    ScheduledSlot(when, s, k, from, push);
    ScheduleTame(when, s, k, from, push);
    TameInv(s, Schedule(when, s, k, from, push), k);
  }

  /** Dropping an entry that no longer matches its record loses nothing. */
  lemma PruneKeeps(s: Core, e: DueEntry)
    requires Inv(s) && e in s.heap && !ValidEntry(s, e)
    ensures Inv(PopEntry(s, e))
  {
    var t := PopEntry(s, e);
    forall j | 0 <= j < |t.jobs|
      ensures SlotOk(t, j)
    {
      assert SlotOk(s, j);
    }
  }

  // ---------- Dispatch ----------

  /** What dispatchOne finds on an idle or parallel job whose entry was just taken. */
  ghost predicate Dispatchable(s: Core, k: nat, now: int, deferred: bool) {
    InvBut(s, k) && Loose(s, k) &&
    var r := s.jobs[k];
    Live(r) && !r.paused && !r.pending && !r.queued && !r.refreshPending &&
    (r.running == 0 || r.job.overlap.AllowParallel?) &&
    (deferred ==> r.running == 0 && r.job.dispatch.Async?) &&
    (OneShot(r.job) ==> r.running == 0 && r.job.schedule.onceAt <= now && !deferred)
  }

  lemma RetryKeeps(s: Core, k: nat, now: int, push: bool, deferred: bool)
    requires Dispatchable(s, k, now, deferred)
    ensures Inv(Retry(s, k, now, push))
  {
    RetryTame(s, k, now, push);
    RetriedSlot(s, k, now, push);
    TameKeeps(s, Retry(s, k, now, push), k);
  }

  /** Logging a submission keeps the promise made to one-shot jobs. */
  lemma SubmissionLogged(s: Core, k: nat, due: int, now: int)
    requires InvBut(s, k) && Loose(s, k)
    requires OneShot(s.jobs[k].job) ==> s.jobs[k].running == 0 && s.jobs[k].job.schedule.onceAt <= now
    ensures LogOk(Submitted(s, k, due, now).log, s.nextId)
  {
    assert s.jobs[k].id in s.index;
  }

  lemma SubmittedKeeps(s: Core, k: nat, due: int, now: int, deferred: bool)
    requires Dispatchable(s, k, now, deferred) && s.jobs[k].job.dispatch.Async?
    ensures InvBut(Submitted(s, k, due, now), k) && Loose(Submitted(s, k, due, now), k)
    ensures Tame(s, Submitted(s, k, due, now), k)
  {
    SubmissionLogged(s, k, due, now);
    SubmittedTame(s, k, due, now);
    TameKeeps(s, Submitted(s, k, due, now), k);
  }

  lemma AdvanceKeeps(when: Calculator, s: Core, k: nat, due: int, stop: bool, push: bool)
    requires InvBut(s, k) && Loose(s, k) && !s.jobs[k].pending && !s.jobs[k].queued
    requires OneShot(s.jobs[k].job) ==> stop
    ensures Inv(Advance(when, s, k, due, stop, push))
  {
    AdvanceTame(when, s, k, due, stop, push);
    TameKeeps(s, Advance(when, s, k, due, stop, push), k);
    if stop {
      DroppedSlot(s, k);
    } else {
      ScheduledSlot(when, s, k, due + MINUTE, push);
    }
  }

  lemma AsyncKeeps(when: Calculator, s: Core, k: nat, now: int, env: Env, deferred: bool)
    requires Dispatchable(s, k, now, deferred) && s.jobs[k].job.dispatch.Async?
    ensures Inv(DispatchAsync(when, s, k, now, env, deferred))
  {
    var r := s.jobs[k];
    if CannotSubmit(r, env) {
      RetryKeeps(s, k, now, env.retryPush, deferred);
    } else {
      SubmittedKeeps(s, k, r.nextRun, now, deferred);
      AdvanceKeeps(when, Submitted(s, k, r.nextRun, now), k, r.nextRun, deferred || OneShot(r.job), env.push);
    }
  }

  /** An inline submission runs to its end at once: only the log remembers it. */
  lemma InlineRoundTrip(s: Core, k: nat, due: int, now: int)
    requires k < |s.jobs|
    ensures Finished(Submitted(s, k, due, now), k) ==
      s.(log := s.log + [Submission(s.jobs[k].id, s.jobs[k].job, due, now)])
  {
    var t := Finished(Submitted(s, k, due, now), k);
    assert t.jobs == s.jobs;
    assert t.inflight == s.inflight;
  }

  /** The state after the inline submission has been logged. */
  lemma LoggedKeeps(s: Core, k: nat, due: int, now: int)
    requires Inv(s) && k < |s.jobs| && Live(s.jobs[k]) && s.jobs[k].running == 0
    requires OneShot(s.jobs[k].job) ==> s.jobs[k].job.schedule.onceAt <= now
    ensures var t := s.(log := s.log + [Submission(s.jobs[k].id, s.jobs[k].job, due, now)]);
      InvBut(t, k) && t.inflight[InvocationOf(t.jobs[k], k)] == 0 && (!OneShot(s.jobs[k].job) ==> SlotOk(t, k))
  {
    assert SlotOk(s, k);
    LooseSlot(s, k);
    SubmissionLogged(s, k, due, now);
    var t := s.(log := s.log + [Submission(s.jobs[k].id, s.jobs[k].job, due, now)]);
    assert t.log[..|s.log|] == s.log;
    assert s.jobs[k := s.jobs[k]] == s.jobs;
    assert Tame(s, t, k);
    TameKeeps(s, t, k);
  }

  lemma InlineSettles(s: Core, k: nat, due: int, now: int, env: Env)
    requires Inv(s) && k < |s.jobs| && Live(s.jobs[k]) && s.jobs[k].job.dispatch.Inline?
    requires OneShot(s.jobs[k].job) ==> s.jobs[k].job.schedule.onceAt <= now && !s.jobs[k].hasNext
    ensures Inv(Settle(Finished(Submitted(s, k, due, now), k), k, now, env))
  {
    assert SlotOk(s, k);
    InlineRoundTrip(s, k, due, now);
    LoggedKeeps(s, k, due, now);
    var t := s.(log := s.log + [Submission(s.jobs[k].id, s.jobs[k].job, due, now)]);
    if OneShot(s.jobs[k].job) {
      RetireKeeps(t, k, env.grow);
    } else if !t.jobs[k].hasNext && !t.jobs[k].paused {
      QueueKeeps(t, k, now, env.pend);
    }
  }

  lemma QueueKeeps(s: Core, k: nat, from: int, pend: bool)
    requires InvBut(s, k) && Loose(s, k) && s.jobs[k].running == 0
    ensures Inv(QueueScheduling(s, k, from, pend))
  {
    QueueTame(s, k, from, pend);
    QueuedSlot(s, k, from, pend);
    TameKeeps(s, QueueScheduling(s, k, from, pend), k);
  }

  lemma SearchedRecord(when: Calculator, r: JobRecord, from: int)
    requires !r.canceled && !r.paused && !r.refreshPending
    ensures var q := Search(when, r, from); q == r.(hasNext := q.hasNext, nextRun := q.nextRun)
  {
  }

  /** Neither scheduling nor dropping the next run changes anything else. */
  lemma AdvancedRecord(when: Calculator, s: Core, k: nat, due: int, stop: bool, push: bool)
    requires k < |s.jobs| && Live(s.jobs[k]) && !s.jobs[k].paused && !s.jobs[k].refreshPending
    ensures var r, q := s.jobs[k], Advance(when, s, k, due, stop, push).jobs[k];
      q == r.(hasNext := q.hasNext, nextRun := q.nextRun) && (stop ==> !q.hasNext)
  {
    SearchedRecord(when, s.jobs[k], due + MINUTE);
  }

  lemma InlineKeeps(when: Calculator, s: Core, k: nat, now: int, env: Env)
    requires Dispatchable(s, k, now, false) && s.jobs[k].job.dispatch.Inline?
    ensures Inv(DispatchInline(when, s, k, now, env))
  {
    var r := s.jobs[k];
    if !env.inlineExecutor {
      RetryKeeps(s, k, now, env.retryPush, false);
    } else {
      var s1 := Advance(when, s, k, r.nextRun, OneShot(r.job), env.push);
      AdvanceKeeps(when, s, k, r.nextRun, OneShot(r.job), env.push);
      AdvancedRecord(when, s, k, r.nextRun, OneShot(r.job), env.push);
      if env.submit {
        InlineSettles(s1, k, r.nextRun, now, env);
      } else {
        assert SlotOk(s1, k);
        LooseSlot(s1, k);
        RetryKeeps(s1, k, now, env.retryPush, false);
      }
    }
  }

  lemma DispatchOneKeeps(when: Calculator, s: Core, k: nat, now: int, env: Env, deferred: bool)
    requires Dispatchable(s, k, now, deferred)
    ensures Inv(DispatchOne(when, s, k, now, env, deferred))
  {
    if s.jobs[k].job.dispatch.Inline? {
      InlineKeeps(when, s, k, now, env);
    } else {
      AsyncKeeps(when, s, k, now, env, deferred);
    }
  }

  lemma PoppedEntry(s: Core, e: DueEntry)
    requires Inv(s) && ValidEntry(s, e)
    ensures InvBut(PopEntry(s, e), e.slot) && Loose(PopEntry(s, e), e.slot)
  {
    assert SlotOk(s, e.slot);
    LooseSlot(s, e.slot);
    PopTame(s, e);
    TameKeeps(s, PopEntry(s, e), e.slot);
  }

  lemma SkippedKeeps(s: Core, k: nat, queue: bool)
    requires InvBut(s, k) && Loose(s, k) && Live(s.jobs[k]) && !s.jobs[k].paused && !OneShot(s.jobs[k].job)
    requires s.jobs[k].running > 0 && !s.jobs[k].job.overlap.AllowParallel?
    requires queue ==> s.jobs[k].job.overlap.QueueOne?
    ensures Inv(Put(s, k, s.jobs[k].(hasNext := false, queued := s.jobs[k].queued || queue)))
  {
    var r := s.jobs[k].(hasNext := false, queued := s.jobs[k].queued || queue);
    PutTame(s, k, r);
    TameKeeps(s, Put(s, k, r), k);
  }

  /** One turn of the dispatchDue loop keeps the invariant. */
  lemma DispatchKeeps(when: Calculator, s: Core, e: DueEntry, now: int, env: Env)
    requires Inv(s) && ValidEntry(s, e) && e.epoch <= now
    ensures Inv(DispatchEntry(when, s, e, now, env))
  {
    var k := e.slot;
    var s1 := PopEntry(s, e);
    var r := s.jobs[k];
    assert SlotOk(s, k);
    PoppedEntry(s, e);
    if r.running > 0 && !r.job.overlap.AllowParallel? {
      SkippedKeeps(s1, k, r.job.overlap.QueueOne?);
    } else {
      DispatchOneKeeps(when, s1, k, now, env, false);
    }
  }

  // ---------- Completion ----------

  lemma FinishedKeeps(s: Core, k: nat)
    requires Inv(s) && k < |s.jobs| && s.jobs[k].occupied
    ensures InvBut(Finished(s, k), k)
    ensures var r := Finished(s, k).jobs[k]; r.running == Finished(s, k).inflight[InvocationOf(r, k)]
  {
    assert SlotOk(s, k);
    FinishedTame(s, k);
    TameKeeps(s, Finished(s, k), k);
  }

  /** After the count went down, a slot that keeps running or keeps its next run is in order. */
  lemma FinishedSlot(s: Core, k: nat)
    requires k < |s.jobs| && s.jobs[k].occupied && SlotOk(s, k) && s.jobs[k].running > 0
    ensures var t := Finished(s, k);
      (t.jobs[k].running > 0 ==> SlotOk(t, k)) &&
      (Live(s.jobs[k]) && !OneShot(s.jobs[k].job) && !s.jobs[k].queued && !s.jobs[k].refreshPending ==> SlotOk(t, k)) &&
      (Live(s.jobs[k]) && !OneShot(s.jobs[k].job) && s.jobs[k].running == 1 ==>
        Loose(Put(t, k, t.jobs[k].(refreshPending := false, queued := false)), k))
  {
  }

  lemma RefreshedKeeps(s: Core, k: nat, now: int, pend: bool)
    requires Inv(s) && k < |s.jobs| && Live(s.jobs[k]) && s.jobs[k].running == 1 && s.jobs[k].refreshPending
    ensures var t := Finished(s, k);
      Inv(QueueScheduling(Put(t, k, t.jobs[k].(refreshPending := false, queued := false, hasNext := false)), k, now, pend))
  {
    assert SlotOk(s, k);
    FinishedSlot(s, k);
    FinishedKeeps(s, k);
    var t := Finished(s, k);
    var r := t.jobs[k].(refreshPending := false, queued := false, hasNext := false);
    assert r == t.jobs[k].(refreshPending := false, queued := false);
    PutTame(t, k, r);
    TameKeeps(t, Put(t, k, r), k);
    QueueKeeps(Put(t, k, r), k, now, pend);
  }

  lemma SettleKeeps(s: Core, k: nat, now: int, env: Env)
    requires Inv(s) && k < |s.jobs| && s.jobs[k].occupied && s.jobs[k].running > 0
    requires !Deferred(Finished(s, k).jobs[k])
    ensures Inv(Settle(Finished(s, k), k, now, env))
  {
    var t := Finished(s, k);
    var r := t.jobs[k];
    assert SlotOk(s, k);
    FinishedKeeps(s, k);
    FinishedSlot(s, k);
    if r.running > 0 {
    } else if r.canceled || (OneShot(r.job) && !r.refreshPending) {
      RetireKeeps(t, k, env.grow);
    } else if r.refreshPending {
      RefreshedKeeps(s, k, now, env.pend);
    } else if !r.hasNext && !r.paused {
      LooseSlot(t, k);
      QueueKeeps(t, k, now, env.pend);
    }
  }

  lemma DeferredKeeps(when: Calculator, s: Core, k: nat, now: int, env: Env)
    requires Inv(s) && k < |s.jobs| && s.jobs[k].occupied && s.jobs[k].running > 0
    requires Deferred(Finished(s, k).jobs[k])
    ensures !s.jobs[k].paused
    ensures var t := Finished(s, k);
      Inv(DispatchOne(when, Put(t, k, t.jobs[k].(queued := false)), k, now, env, true))
  {
    var t := Finished(s, k);
    assert SlotOk(s, k);
    FinishedKeeps(s, k);
    FinishedSlot(s, k);
    var r := t.jobs[k].(queued := false);
    assert r == t.jobs[k].(refreshPending := false, queued := false);
    PutTame(t, k, r);
    TameKeeps(t, Put(t, k, r), k);
    DispatchOneKeeps(when, Put(t, k, r), k, now, env, true);
  }

  lemma CompleteKeeps(when: Calculator, s: Core, v: Invocation, now: int, env: Env)
    requires Inv(s) && Enabled(s, Finish(v, now, env))
    ensures Inv(Complete(when, s, v.slot, now, env))
  {
    var k := v.slot;
    assert SlotOk(s, k);
    if Deferred(Finished(s, k).jobs[k]) {
      DeferredKeeps(when, s, k, now, env);
    } else {
      SettleKeeps(s, k, now, env);
    }
  }

  // ---------- Adding a job ----------

  lemma {:induction false} SumAppend(jobs: seq<JobRecord>, r: JobRecord)
    ensures SumRunning(jobs + [r]) == SumRunning(jobs) + r.running
  {
    assert (jobs + [r])[..|jobs|] == jobs;
  }

  /** From s to t slot k, free or new, takes the unscheduled record r under a fresh id, or stays blank. */
  ghost predicate Filled(s: Core, t: Core, k: nat, r: JobRecord) {
    k <= |s.jobs| && (k < |s.jobs| ==> !s.jobs[k].occupied && r.generation == s.jobs[k].generation) &&
    t.jobs == (if k < |s.jobs| then s.jobs[k := r] else s.jobs + [r]) &&
    t.nextId == s.nextId + 1 && t.heap == s.heap && t.pending == s.pending && t.inflight == s.inflight && t.log == s.log &&
    !r.hasNext && !r.pending && !r.queued && !r.canceled && !r.refreshPending && r.running == 0 &&
    (r.occupied ==> r.id == s.nextId && t.index == s.index[s.nextId := k]) &&
    (!r.occupied ==> r.id == 0 && t.index == s.index)
  }

  lemma FilledHeapAndIndex(s: Core, t: Core, k: nat, r: JobRecord)
    requires Filled(s, t, k, r) && HeapOk(s) && IndexOk(s) && s.nextId > 0
    ensures HeapOk(t) && IndexOk(t)
  {
    assert forall j :: 0 <= j < |s.jobs| && j != k ==> t.jobs[j] == s.jobs[j];
  }

  lemma FilledInflight(s: Core, t: Core, k: nat, r: JobRecord)
    requires Filled(s, t, k, r) && InflightOk(s)
    requires k < |s.jobs| ==> s.jobs[k].running == 0
    ensures InflightOk(t) && t.inflight[InvocationOf(r, k)] == 0
  {
    if k < |s.jobs| {
      SumUpdate(s.jobs, k, r);
    } else {
      SumAppend(s.jobs, r);
    }
  }

  lemma FilledSlots(s: Core, t: Core, k: nat, r: JobRecord, j: nat)
    requires Inv(s) && Filled(s, t, k, r) && j < |t.jobs| && t.inflight[InvocationOf(r, k)] == 0
    ensures SlotOk(t, j)
  {
    if j != k {
      assert SlotOk(s, j);
      assert t.jobs[j] == s.jobs[j];
    } else {
      assert FlagsOk(r);
    }
  }

  lemma FilledKeeps(s: Core, t: Core, k: nat, r: JobRecord)
    requires Inv(s) && Filled(s, t, k, r) && FreeOk(t)
    ensures Inv(t)
  {
    if k < |s.jobs| {
      assert SlotOk(s, k);
    }
    FilledHeapAndIndex(s, t, k, r);
    FilledInflight(s, t, k, r);
    forall j | 0 <= j < |t.jobs|
      ensures SlotOk(t, j)
    {
      FilledSlots(s, t, k, r, j);
    }
  }

  lemma PlacedKeeps(s: Core, job: Job, paused: bool)
    requires Inv(s)
    ensures Inv(Placed(s, job, paused))
  {
    var t := Placed(s, job, paused);
    FilledKeeps(s, t, AddSlot(s), t.jobs[AddSlot(s)]);
  }

  lemma RolledBackKeeps(s: Core)
    requires Inv(s)
    ensures Inv(RolledBack(s))
  {
    var t := RolledBack(s);
    if AddSlot(s) < |s.jobs| {
      FilledKeeps(s, t, AddSlot(s), t.jobs[AddSlot(s)]);
    } else {
      SpentId(s);
    }
  }

  lemma SpentId(s: Core)
    requires Inv(s)
    ensures Inv(s.(nextId := s.nextId + 1))
  {
    var t := s.(nextId := s.nextId + 1);
    forall j | 0 <= j < |t.jobs|
      ensures SlotOk(t, j)
    {
      assert SlotOk(s, j);
    }
  }

  lemma AddKeeps(when: Calculator, s: Core, job: Job, paused: bool, callback: bool, now: int, env: AddEnv)
    requires Inv(s)
    ensures Inv(AddJob(when, s, job, paused, callback, now, env))
  {
    var k := AddSlot(s);
    SpentId(s);
    RolledBackKeeps(s);
    PlacedKeeps(s, job, paused);
    var s1 := Placed(s, job, paused);
    PlacedRecord(s, job, paused);
    if !paused && ClockValid(s, now) {
      ScheduleKeeps(when, s1, k, now, env.push);
    } else if !paused {
      assert SlotOk(s1, k);
      LooseSlot(s1, k);
      QueueKeeps(s1, k, now, env.pend);
    }
  }

  lemma PlacedRecord(s: Core, job: Job, paused: bool)
    requires Inv(s)
    ensures var k, t := AddSlot(s), Placed(s, job, paused);
      k < |t.jobs| && Live(t.jobs[k]) && t.jobs[k].running == 0 && !t.jobs[k].pending && !t.jobs[k].queued
  {
  }

  // ---------- Runs ----------

  lemma MinValidKeeps(s: Core, minimum: int)
    requires Inv(s)
    ensures Inv(s.(minValid := minimum))
  {
    var t := s.(minValid := minimum);
    forall j | 0 <= j < |t.jobs|
      ensures SlotOk(t, j)
    {
      assert SlotOk(s, j);
    }
  }

  /** Every step keeps the invariant, whatever the allocator, the executors and the clock answer. */
  lemma StepKeeps(when: Calculator, s: Core, l: Label)
    requires Inv(s)
    ensures Inv(Step(when, s, l))
  {
    if Enabled(s, l) {
      match l
      case Add(job, paused, callback, now, env) => AddKeeps(when, s, job, paused, callback, now, env);
      case Cancel(k, grow) => CancelKeeps(s, k, grow);
      case Pause(k) => PauseKeeps(s, k);
      case Resume(k, now, pend) => ResumeKeeps(s, k, now, pend);
      case Refresh(k, now, push) => RefreshKeeps(when, s, k, now, push);
      case SetMinValid(m) => MinValidKeeps(s, m);
      case Drain(_, push) => DrainKeeps(when, s, push);
      case Prune(e) => PruneKeeps(s, e);
      case Dispatch(e, now, env) => DispatchKeeps(when, s, e, now, env);
      case Finish(v, now, env) => CompleteKeeps(when, s, v, now, env);
    }
  }

  lemma {:induction false} RunKeeps(when: Calculator, s: Core, trace: seq<Label>)
    requires Inv(s)
    ensures Inv(Run(when, s, trace))
    decreases |trace|
  {
    if trace != [] {
      RunKeeps(when, s, trace[..|trace| - 1]);
      StepKeeps(when, Run(when, s, trace[..|trace| - 1]), trace[|trace| - 1]);
    }
  }

  /** Every reachable state satisfies the invariant. */
  lemma ReachableInv(when: Calculator, minValid: int, trace: seq<Label>)
    ensures Inv(Run(when, Init(minValid), trace))
  {
    RunKeeps(when, Init(minValid), trace);
  }
}
