/**
 In what order, and how often, a recurring job is submitted for its due times
 (core/scheduler_core.cpp). They strictly increase over any run in which every restart of
 the search for the next run begins after the last of them. A refresh restarts it at once;
 resuming and completing restart it through the pending list. A restart that begins earlier
 makes the job be submitted for a due time at or before the last one.
 */
module DueOrder {
  import opened Wrappers
  import opened Calendar
  import opened ScheduleCalculator
  import opened DueHeaps
  import opened CoreModel
  import opened CoreInvariant
  import opened CoreSteps
  import opened CoreHistory
  import opened CronPass
  import opened OneShots
  import opened OneJob

  // ---------- Order of submissions ----------

  /** Every due time submitted under id is before `due`. */
  ghost predicate Below(log: seq<Submission>, id: nat, due: int) {
    forall i :: 0 <= i < |log| && log[i].id == id ==> log[i].due < due
  }

  /** The due times submitted under id strictly increase: none is repeated and none is out of order. */
  ghost predicate Increasing(log: seq<Submission>, id: nat) {
    forall i, j :: 0 <= i < j < |log| && log[i].id == id && log[j].id == id ==> log[i].due < log[j].due
  }

  /** The record has a run to come: a next run, or one queued behind a running invocation. */
  predicate Armed(r: JobRecord) { r.hasNext || r.queued }

  /** The run to come, if any, is after everything submitted so far. */
  ghost predicate Ahead(s: Core, k: nat)
    requires k < |s.jobs|
  {
    Armed(s.jobs[k]) ==> Below(s.log, s.jobs[k].id, s.jobs[k].nextRun)
  }

  lemma IncreasingAppend(log: seq<Submission>, sub: Submission)
    ensures Increasing(log + [sub], sub.id) <==> Increasing(log, sub.id) && Below(log, sub.id, sub.due)
  {
    var more := log + [sub];
    if Increasing(more, sub.id) {
      forall i, j | 0 <= i < j < |log| && log[i].id == sub.id && log[j].id == sub.id
        ensures log[i].due < log[j].due
      {
        assert more[i] == log[i] && more[j] == log[j];
      }
      forall i | 0 <= i < |log| && log[i].id == sub.id
        ensures log[i].due < sub.due
      {
        assert more[i] == log[i] && more[|log|] == sub;
      }
    }
  }

  // ---------- What a step may do to the job in slot k ----------

  predicate SameOccupant(r: JobRecord, q: JobRecord) { r.occupied && q.occupied && q.id == r.id && q.job == r.job }

  /** Nothing was submitted, and a run to come is the old one or a later one. */
  ghost predicate Quiet(s: Core, t: Core, k: nat)
    requires k < |s.jobs|
  {
    k < |t.jobs| && t.log == s.log && SameOccupant(s.jobs[k], t.jobs[k]) &&
    (Armed(t.jobs[k]) ==> Armed(s.jobs[k]) && s.jobs[k].nextRun <= t.jobs[k].nextRun)
  }

  /** The run to come was submitted, and a new one, if any, is later. */
  ghost predicate Submitting(s: Core, t: Core, k: nat, now: int)
    requires k < |s.jobs|
  {
    var r := s.jobs[k];
    k < |t.jobs| && t.log == s.log + [Submission(r.id, r.job, r.nextRun, now)] && Armed(r) &&
    SameOccupant(r, t.jobs[k]) && (Armed(t.jobs[k]) ==> r.nextRun < t.jobs[k].nextRun)
  }

  /** The job left without being submitted. */
  ghost predicate Leaves(s: Core, t: Core, k: nat)
    requires k < |s.jobs|
  {
    t.log == s.log && s.jobs[k].id !in t.index && t.nextId == s.nextId
  }

  ghost predicate Orderly(s: Core, t: Core, k: nat, now: int)
    requires k < |s.jobs|
  {
    Quiet(s, t, k) || Submitting(s, t, k, now) || Leaves(s, t, k)
  }

  // ---------- Dispatch ----------

  /** Nothing was submitted, and a run to come is after `due`. */
  ghost predicate Later(s: Core, t: Core, k: nat, due: int)
    requires k < |s.jobs|
  {
    k < |t.jobs| && t.log == s.log && SameOccupant(s.jobs[k], t.jobs[k]) && (Armed(t.jobs[k]) ==> due < t.jobs[k].nextRun)
  }

  lemma RetryLater(s: Core, k: nat, now: int, push: bool, due: int)
    requires k < |s.jobs| && s.jobs[k].occupied && due <= now && !s.jobs[k].queued
    ensures Later(s, Retry(s, k, now, push), k, due)
  {
  }

  lemma AdvanceLater(when: Calculator, s: Core, k: nat, due: int, stop: bool, push: bool)
    requires NeverEarly(when) && k < |s.jobs| && s.jobs[k].occupied && !OneShot(s.jobs[k].job) && !s.jobs[k].queued
    ensures var t := Advance(when, s, k, due, stop, push); Later(s, t, k, due) && !t.jobs[k].queued
  {
  }

  /** The dispatch of a queued run starts with the mark cleared. */
  lemma AsyncRefusedOrderly(s: Core, k: nat, now: int, push: bool, r: JobRecord)
    requires k < |s.jobs| && s.jobs[k] == r.(queued := false) && r.occupied && Armed(r) && r.nextRun <= now
    ensures Quiet(Put(s, k, r), Retry(s, k, now, push), k)
  {
    RetryLater(s, k, now, push, r.nextRun);
  }

  lemma AsyncAcceptedOrderly(when: Calculator, s: Core, k: nat, now: int, stop: bool, push: bool, r: JobRecord)
    requires NeverEarly(when) && k < |s.jobs| && s.jobs[k] == r.(queued := false) && r.occupied && !OneShot(r.job)
    requires Armed(r)
    ensures Submitting(Put(s, k, r), Advance(when, Submitted(s, k, r.nextRun, now), k, r.nextRun, stop, push), k, now)
  {
    var s1 := Submitted(s, k, r.nextRun, now);
    assert s1.jobs[k] == r.(queued := false, running := r.running + 1);
    AdvanceLater(when, s1, k, r.nextRun, stop, push);
  }

  lemma AsyncOrderly(when: Calculator, s: Core, k: nat, now: int, env: Env, deferred: bool, r: JobRecord)
    requires NeverEarly(when) && k < |s.jobs| && s.jobs[k] == r.(queued := false) && r.occupied && !OneShot(r.job)
    requires Armed(r) && r.nextRun <= now
    ensures Orderly(Put(s, k, r), DispatchAsync(when, s, k, now, env, deferred), k, now)
  {
    if CannotSubmit(r, env) {
      AsyncRefusedOrderly(s, k, now, env.retryPush, r);
    } else {
      AsyncAcceptedOrderly(when, s, k, now, deferred || OneShot(r.job), env.push, r);
    }
  }

  lemma SettleOrderly(s: Core, k: nat, now: int, env: Env)
    requires k < |s.jobs| && s.jobs[k].occupied && !OneShot(s.jobs[k].job)
    ensures Quiet(s, Settle(s, k, now, env), k) || Leaves(s, Settle(s, k, now, env), k)
  {
  }

  lemma InlineOrderly(when: Calculator, s: Core, k: nat, now: int, env: Env)
    requires NeverEarly(when) && k < |s.jobs| && Live(s.jobs[k]) && !OneShot(s.jobs[k].job) && !s.jobs[k].queued
    requires s.jobs[k].hasNext && s.jobs[k].nextRun <= now
    ensures Orderly(s, DispatchInline(when, s, k, now, env), k, now)
  {
    var r := s.jobs[k];
    if !env.inlineExecutor {
      RetryLater(s, k, now, env.retryPush, r.nextRun);
    } else if !env.submit {
      InlineRefusedOrderly(when, s, k, now, env.push, env.retryPush);
    } else {
      InlineAcceptedOrderly(when, s, k, now, env);
    }
  }

  lemma InlineRefusedOrderly(when: Calculator, s: Core, k: nat, now: int, push: bool, retryPush: bool)
    requires NeverEarly(when) && k < |s.jobs| && s.jobs[k].occupied && !OneShot(s.jobs[k].job) && !s.jobs[k].queued
    requires s.jobs[k].hasNext && s.jobs[k].nextRun <= now
    ensures k < |Advance(when, s, k, s.jobs[k].nextRun, false, push).jobs|
    ensures Quiet(s, Retry(Advance(when, s, k, s.jobs[k].nextRun, false, push), k, now, retryPush), k)
  {
    AdvanceLater(when, s, k, s.jobs[k].nextRun, false, push);
    RetryLater(Advance(when, s, k, s.jobs[k].nextRun, false, push), k, now, retryPush, s.jobs[k].nextRun);
  }

  lemma InlineAcceptedOrderly(when: Calculator, s: Core, k: nat, now: int, env: Env)
    requires NeverEarly(when) && k < |s.jobs| && Live(s.jobs[k]) && !OneShot(s.jobs[k].job) && !s.jobs[k].queued
    requires s.jobs[k].hasNext
    ensures var s1 := Advance(when, s, k, s.jobs[k].nextRun, false, env.push);
      k < |s1.jobs| &&
      Submitting(s, Settle(Finished(Submitted(s1, k, s.jobs[k].nextRun, now), k), k, now, env), k, now)
  {
    var s1 := Advance(when, s, k, s.jobs[k].nextRun, false, env.push);
    AdvanceLater(when, s, k, s.jobs[k].nextRun, false, env.push);
    AdvanceStaysLive(when, s, k, s.jobs[k].nextRun, env.push);
    SubmittedAndSettled(s1, k, s.jobs[k].nextRun, now, env);
  }

  lemma AdvanceStaysLive(when: Calculator, s: Core, k: nat, due: int, push: bool)
    requires k < |s.jobs| && Live(s.jobs[k])
    ensures var t := Advance(when, s, k, due, false, push); k < |t.jobs| && Live(t.jobs[k])
  {
  }

  lemma SubmittedAndSettled(s: Core, k: nat, due: int, now: int, env: Env)
    requires k < |s.jobs| && Live(s.jobs[k]) && !OneShot(s.jobs[k].job)
    ensures var t := Settle(Finished(Submitted(s, k, due, now), k), k, now, env);
      k < |t.jobs| && t.log == s.log + [Submission(s.jobs[k].id, s.jobs[k].job, due, now)] &&
      SameOccupant(s.jobs[k], t.jobs[k]) &&
      (Armed(t.jobs[k]) ==> Armed(s.jobs[k]) && t.jobs[k].nextRun == s.jobs[k].nextRun)
  {
    var s2 := Finished(Submitted(s, k, due, now), k);
    assert s2.jobs[k] == s.jobs[k];
  }

  /** Dispatching the job keeps the order. */
  lemma DispatchOrderly(when: Calculator, s: Core, e: DueEntry, now: int, env: Env)
    requires NeverEarly(when) && Inv(s) && ValidEntry(s, e) && e.epoch <= now && !OneShot(s.jobs[e.slot].job)
    ensures Orderly(s, DispatchEntry(when, s, e, now, env), e.slot, now)
  {
    var k, r, s1 := e.slot, s.jobs[e.slot], PopEntry(s, e);
    assert SlotOk(s, k);
    if r.running > 0 && !r.job.overlap.AllowParallel? {
    } else if r.job.dispatch.Inline? {
      InlineOrderly(when, s1, k, now, env);
    } else {
      AsyncOrderly(when, s1, k, now, env, false, r);
      assert s1.jobs[k := r] == s1.jobs;
    }
  }

  // ---------- Completion ----------

  lemma FinishedQuiet(s: Core, k: nat)
    requires k < |s.jobs| && s.jobs[k].occupied
    ensures Quiet(s, Finished(s, k), k)
  {
  }

  /** A completion keeps the order, provided the clock is not behind a queued run. */
  lemma CompleteOrderly(when: Calculator, s: Core, k: nat, now: int, env: Env)
    requires NeverEarly(when) && Inv(s) && k < |s.jobs| && s.jobs[k].occupied && !OneShot(s.jobs[k].job)
    requires s.jobs[k].queued ==> s.jobs[k].nextRun <= now
    ensures Orderly(s, Complete(when, s, k, now, env), k, now)
  {
    assert SlotOk(s, k);
    var s1 := Finished(s, k);
    FinishedQuiet(s, k);
    var r := s1.jobs[k];
    if Deferred(r) {
      AsyncOrderly(when, Put(s1, k, r.(queued := false)), k, now, env, true, r);
      assert s1.jobs[k := r.(queued := false)][k := r] == s1.jobs;
    } else {
      SettleOrderly(s1, k, now, env);
    }
  }

  // ---------- Every step ----------

  /** The step searches for the next run of slot k anew: a refresh of a job that may run now, or the drain of an
      idle one. */
  predicate Restarts(s: Core, l: Label, k: nat)
    requires k < |s.jobs|
  {
    var r := s.jobs[k];
    (l.Refresh? && l.slot == k && (r.running == 0 || r.job.overlap.AllowParallel?)) ||
    (l.Drain? && |s.pending| > 0 && s.pending[|s.pending| - 1] == k && Live(r) && !r.paused && r.running == 0)
  }

  /** A completion with a run queued behind it does not come at a clock reading before that run's due time. */
  predicate ClockHolds(s: Core, l: Label, k: nat)
    requires k < |s.jobs|
  {
    l.Finish? && l.event.slot == k && s.jobs[k].queued ==> s.jobs[k].nextRun <= l.now
  }

  function TimeOf(l: Label): int { if l.Dispatch? || l.Finish? then l.now else 0 }

  ghost predicate UntouchedOrOrderly(s: Core, t: Core, k: nat, now: int)
    requires k < |s.jobs|
  {
    Untouched(s, t, k) || Orderly(s, t, k, now)
  }

  lemma OtherSlotUntouched(s: Core, u: Core, j: nat, retired: bool, grow: bool, k: nat)
    requires Inv(s) && Tame(s, u, j) && k < |s.jobs| && j != k && s.jobs[k].occupied
    ensures Untouched(s, Closed(u, j, retired, grow), k)
  {
    assert s.index[s.jobs[k].id] == k && s.index[s.jobs[j].id] == j;
    ClosedUntouched(s, u, j, retired, grow, k);
  }

  lemma OwnCancelOrderly(s: Core, k: nat, grow: bool)
    requires k < |s.jobs| && s.jobs[k].occupied
    ensures Quiet(s, CancelSlot(s, k, grow), k) || Leaves(s, CancelSlot(s, k, grow), k)
  {
  }

  lemma OwnPauseOrderly(s: Core, k: nat, now: int, pend: bool)
    requires k < |s.jobs| && s.jobs[k].occupied
    ensures Quiet(s, PauseSlot(s, k), k) && Quiet(s, ResumeSlot(s, k, now, pend), k)
  {
  }

  lemma OwnRefreshOrderly(when: Calculator, s: Core, k: nat, now: int, push: bool)
    requires k < |s.jobs| && s.jobs[k].occupied && s.jobs[k].running > 0 && !s.jobs[k].job.overlap.AllowParallel?
    ensures Quiet(s, RefreshSlot(when, s, k, now, push), k)
  {
  }

  lemma OwnCallOrderly(when: Calculator, s: Core, l: Label, k: nat)
    requires k < |s.jobs| && s.jobs[k].occupied && Enabled(s, l) && !Restarts(s, l, k)
    requires (l.Cancel? || l.Pause? || l.Resume? || l.Refresh?) && l.slot == k
    ensures Orderly(s, Step(when, s, l), k, TimeOf(l))
  {
    match l
    case Cancel(_, grow) => OwnCancelOrderly(s, k, grow);
    case Pause(_) => OwnPauseOrderly(s, k, 0, false);
    case Resume(_, now, pend) => OwnPauseOrderly(s, k, now, pend);
    case Refresh(_, now, push) => OwnRefreshOrderly(when, s, k, now, push);
  }

  lemma CallOrderly(when: Calculator, s: Core, l: Label, k: nat)
    requires Inv(s) && k < |s.jobs| && s.jobs[k].occupied && Enabled(s, l) && !Restarts(s, l, k)
    requires l.Cancel? || l.Pause? || l.Resume? || l.Refresh?
    ensures UntouchedOrOrderly(s, Step(when, s, l), k, TimeOf(l))
  {
    var j := l.slot;
    if j == k {
      OwnCallOrderly(when, s, l, k);
    } else {
      match l
      case Cancel(_, grow) =>
        var u, retired := CancelShape(s, j, grow);
        OtherSlotUntouched(s, u, j, retired, grow, k);
      case Pause(_) =>
        PutTame(s, j, Cleared(s.jobs[j]).(paused := true, queued := false));
        OtherSlotUntouched(s, PauseSlot(s, j), j, false, false, k);
      case Resume(_, now, pend) =>
        ResumeShape(s, j, now, pend);
        OtherSlotUntouched(s, ResumeSlot(s, j, now, pend), j, false, false, k);
      case Refresh(_, now, push) =>
        RefreshShape(when, s, j, now, push);
        OtherSlotUntouched(s, RefreshSlot(when, s, j, now, push), j, false, false, k);
    }
  }

  lemma DrainOrderly(when: Calculator, s: Core, now: int, push: bool, k: nat)
    requires Inv(s) && |s.pending| > 0 && k < |s.jobs| && s.jobs[k].occupied && !Restarts(s, Drain(now, push), k)
    ensures UntouchedOrOrderly(s, DrainLast(when, s, push), k, 0)
  {
    var j := s.pending[|s.pending| - 1];
    if j == k {
      assert Quiet(s, DrainLast(when, s, push), k);
    } else if s.jobs[j].occupied {
      DrainShape(when, s, push);
      OtherSlotUntouched(s, DrainLast(when, s, push), j, false, false, k);
    }
  }

  lemma EventOrderly(when: Calculator, s: Core, l: Label, k: nat)
    requires NeverEarly(when) && Inv(s) && k < |s.jobs| && s.jobs[k].occupied && !OneShot(s.jobs[k].job)
    requires Enabled(s, l) && (l.Dispatch? || l.Finish?) && ClockHolds(s, l, k)
    ensures UntouchedOrOrderly(s, Step(when, s, l), k, TimeOf(l))
  {
    match l
    case Dispatch(e, now, env) =>
      if e.slot == k {
        DispatchOrderly(when, s, e, now, env);
      } else {
        OtherDispatch(when, s, e, now, env, k);
      }
    case Finish(v, now, env) =>
      if v.slot == k {
        CompleteOrderly(when, s, k, now, env);
      } else {
        var u, retired := CompleteShape(when, s, v.slot, now, env);
        OtherSlotUntouched(s, u, v.slot, retired, env.grow, k);
      }
  }

  lemma AddedElsewhere(when: Calculator, s: Core, l: Label, k: nat)
    requires Inv(s) && l.Add? && k < |s.jobs| && s.jobs[k].occupied
    requires AddSucceeds(s, l.job, l.startPaused, l.callback, l.now, l.add)
    ensures var t := AddJob(when, s, l.job, l.startPaused, l.callback, l.now, l.add);
      k < |t.jobs| && t.jobs[k] == s.jobs[k] && t.log == s.log
  {
    assert AddSlot(s) != k;
    AddShape(when, s, l.job, l.startPaused, l.callback, l.now, l.add);
    assert Placed(s, l.job, l.startPaused).jobs[k] == s.jobs[k];
  }

  lemma AddUntouched(when: Calculator, s: Core, l: Label, k: nat)
    requires Inv(s) && Enabled(s, l) && l.Add? && k < |s.jobs| && s.jobs[k].occupied
    ensures Untouched(s, Step(when, s, l), k)
  {
    if AddSucceeds(s, l.job, l.startPaused, l.callback, l.now, l.add) {
      AddedElsewhere(when, s, l, k);
    } else {
      assert AddSlot(s) != k;
    }
  }

  /** Every step but a restart keeps the order of the job's runs. */
  lemma StepOrderly(when: Calculator, s: Core, l: Label, k: nat)
    requires NeverEarly(when) && Inv(s) && k < |s.jobs| && s.jobs[k].occupied && !OneShot(s.jobs[k].job)
    requires !Restarts(s, l, k) && ClockHolds(s, l, k)
    ensures UntouchedOrOrderly(s, Step(when, s, l), k, TimeOf(l))
  {
    if Enabled(s, l) {
      match l
      case Add(_, _, _, _, _) => AddUntouched(when, s, l, k);
      case Cancel(_, _) | Pause(_) | Resume(_, _, _) | Refresh(_, _, _) => CallOrderly(when, s, l, k);
      case SetMinValid(_) =>
      case Prune(e) => PruneUntouched(s, e, k);
      case Drain(now, push) => DrainOrderly(when, s, now, push, k);
      case Dispatch(_, _, _) | Finish(_, _, _) => EventOrderly(when, s, l, k);
    }
  }

  // ---------- Whole runs ----------

  /** What has been submitted under id is in order, and the job in slot k, if it is still there, is ahead of it. */
  ghost predicate Ordered(s: Core, k: nat, id: nat) {
    Increasing(s.log, id) &&
    if Recurs(s, k, id) then Ahead(s, k) else id !in s.index && id < s.nextId
  }

  ghost predicate Recurs(s: Core, k: nat, id: nat) {
    k < |s.jobs| && s.jobs[k].occupied && s.jobs[k].id == id && !OneShot(s.jobs[k].job)
  }

  lemma OrderlyKeeps(s: Core, t: Core, k: nat, id: nat, now: int)
    requires Inv(t) && Recurs(s, k, id) && Ordered(s, k, id) && id < s.nextId && s.nextId <= t.nextId
    requires UntouchedOrOrderly(s, t, k, now)
    ensures Ordered(t, k, id)
  {
    if Untouched(s, t, k) {
      assert forall i :: 0 <= i < |s.log| ==> t.log[i] == t.log[..|s.log|][i];
    } else if Submitting(s, t, k, now) {
      IncreasingAppend(s.log, Submission(id, s.jobs[k].job, s.jobs[k].nextRun, now));
    } else if Leaves(s, t, k) {
      assert !Recurs(t, k, id);
    }
  }

  /** Where a restart begins to search. */
  function StartOf(s: Core, l: Label, k: nat): int
    requires k < |s.jobs|
  {
    if l.Refresh? then l.now else s.jobs[k].scheduleFrom
  }

  /** If the step restarts the job id, it searches from after everything submitted; and a queued run of it does
      not meet a clock behind it. */
  ghost predicate Gentle(s: Core, l: Label, k: nat, id: nat) {
    Recurs(s, k, id) ==>
      (Restarts(s, l, k) ==> Below(s.log, id, StartOf(s, l, k))) && ClockHolds(s, l, k)
  }

  lemma ScheduleKeepsOrder(when: Calculator, s: Core, k: nat, from: int, push: bool, id: nat)
    requires NeverEarly(when) && Recurs(s, k, id) && !s.jobs[k].queued && Below(s.log, id, from)
    ensures var t := Schedule(when, s, k, from, push); Recurs(t, k, id) && Ahead(t, k) && t.log == s.log
  {
    AdvanceLater(when, s, k, from - MINUTE, false, push);
    var t := Schedule(when, s, k, from, push);
    assert t == Advance(when, s, k, from - MINUTE, false, push);
    assert Armed(t.jobs[k]) ==> from <= t.jobs[k].nextRun;
  }

  lemma RestartKeepsOrder(when: Calculator, s: Core, l: Label, k: nat, id: nat)
    requires NeverEarly(when) && Inv(s) && Ordered(s, k, id) && Recurs(s, k, id) && Enabled(s, l)
    requires Restarts(s, l, k) && Below(s.log, id, StartOf(s, l, k))
    ensures Ordered(Step(when, s, l), k, id)
  {
    assert SlotOk(s, k);
    if l.Refresh? {
      var s1 := Put(s, k, s.jobs[k].(pending := false, hasNext := false, nextRun := 0, refreshPending := false));
      ScheduleKeepsOrder(when, s1, k, l.now, l.push, id);
      assert Step(when, s, l) == Schedule(when, s1, k, l.now, l.push);
    } else {
      var n := |s.pending| - 1;
      var s1 := Put(s.(pending := s.pending[..n]), k, s.jobs[k].(pending := false));
      ScheduleKeepsOrder(when, s1, k, s.jobs[k].scheduleFrom, l.push, id);
      assert Step(when, s, l) == Schedule(when, s1, k, s.jobs[k].scheduleFrom, l.push);
    }
  }

  lemma StepKeepsOrder(when: Calculator, s: Core, l: Label, k: nat, id: nat)
    requires NeverEarly(when) && Inv(s) && Ordered(s, k, id) && Gentle(s, l, k, id)
    ensures Ordered(Step(when, s, l), k, id)
  {
    var t := Step(when, s, l);
    StepKeeps(when, s, l);
    StepEvolves(when, s, l);
    if Recurs(s, k, id) && Restarts(s, l, k) && Enabled(s, l) {
      RestartKeepsOrder(when, s, l, k, id);
    } else if Recurs(s, k, id) && Enabled(s, l) {
      StepOrderly(when, s, l, k);
      OrderlyKeeps(s, t, k, id, TimeOf(l));
    } else if !Recurs(s, k, id) {
      GoneFromIndex(when, s, l, id);
      assert !Recurs(t, k, id);
    }
  }

  ghost predicate GentleRun(when: Calculator, s: Core, trace: seq<Label>, k: nat, id: nat) {
    forall i :: 0 <= i < |trace| ==> Gentle(Run(when, s, trace[..i]), trace[i], k, id)
  }

  lemma GentleBefore(when: Calculator, s: Core, trace: seq<Label>, k: nat, id: nat)
    requires trace != [] && GentleRun(when, s, trace, k, id)
    ensures var last := |trace| - 1;
      GentleRun(when, s, trace[..last], k, id) && Gentle(Run(when, s, trace[..last]), trace[last], k, id)
  {
    var before := trace[..|trace| - 1];
    forall i | 0 <= i < |before|
      ensures Gentle(Run(when, s, before[..i]), before[i], k, id)
    {
      assert before[..i] == trace[..i];
    }
  }

  lemma {:induction false} RunKeepsOrder(when: Calculator, s: Core, trace: seq<Label>, k: nat, id: nat)
    requires NeverEarly(when) && Inv(s) && Ordered(s, k, id) && GentleRun(when, s, trace, k, id)
    ensures Ordered(Run(when, s, trace), k, id)
    decreases |trace|
  {
    if trace != [] {
      var before, l := trace[..|trace| - 1], trace[|trace| - 1];
      GentleBefore(when, s, trace, k, id);
      RunKeepsOrder(when, s, before, k, id);
      RunKeeps(when, s, before);
      StepKeepsOrder(when, Run(when, s, before), l, k, id);
    }
  }

  /** From the moment a recurring job is added, its due times strictly increase in any run whose restarts of it, if
      any, search from after the last of them: through retries, skipped and queued runs, pauses, cancellation, slot reuse and other jobs' steps. */
  lemma DuesIncrease(when: Calculator, minValid: int, before: seq<Label>, add: Label, after: seq<Label>)
    requires NeverEarly(when) && add.Add? && !OneShot(add.job)
    requires var s := Run(when, Init(minValid), before);
      AddSucceeds(s, add.job, add.startPaused, add.callback, add.now, add.add) &&
      GentleRun(when, Step(when, s, add), after, AddSlot(s), s.nextId)
    ensures var s := Run(when, Init(minValid), before);
      Increasing(Run(when, Step(when, s, add), after).log, s.nextId)
  {
    var s := Run(when, Init(minValid), before);
    ReachableInv(when, minValid, before);
    StepKeeps(when, s, add);
    NewJobOrdered(when, s, add);
    RunKeepsOrder(when, Step(when, s, add), after, AddSlot(s), s.nextId);
  }

  lemma NewJobOrdered(when: Calculator, s: Core, add: Label)
    requires Inv(s) && add.Add? && !OneShot(add.job)
    requires AddSucceeds(s, add.job, add.startPaused, add.callback, add.now, add.add)
    ensures Ordered(Step(when, s, add), AddSlot(s), s.nextId)
  {
    AddShape(when, s, add.job, add.startPaused, add.callback, add.now, add.add);
    PlacedRecord(s, add.job, add.startPaused);
    var t := Step(when, s, add);
    assert t.log == s.log;
  }

  // ---------- Restarts ----------

  /** L is the last due time submitted under id, and an occurrence. */
  ghost predicate LastDue(p: int -> bool, log: seq<Submission>, id: nat, last: int) {
    p(last) && (exists i :: 0 <= i < |log| && log[i].id == id && log[i].due == last) && Below(log, id, last + 1)
  }

  /** A search from `from` answers at or before an occurrence of its window exactly when it starts no later. */
  lemma SearchRepeatsIff(p: int -> bool, from: int, last: int)
    requires p(last) && last % MINUTE == 0 && last < SearchLimit(from)
    ensures var r := SearchFrom(p, from); (r.Some? && r.value <= last) <==> RoundToNextMinute(from) <= last
  {
    FirstHitIsLeast(p, RoundToNextMinute(from), SearchLimit(from));
  }

  /** A restarted search keeps the job ahead exactly when it starts after the last due time submitted. */
  lemma ScheduleAheadIff(when: Calculator, p: int -> bool, s: Core, k: nat, from: int, last: int)
    requires k < |s.jobs| && Live(s.jobs[k]) && !s.jobs[k].paused && !OneShot(s.jobs[k].job) && !s.jobs[k].queued
    requires Describes(when, s.jobs[k].job.schedule, p) && LastDue(p, s.log, s.jobs[k].id, last) && last < SearchLimit(from)
    ensures var t := Schedule(when, s, k, from, true); k < |t.jobs| && (Ahead(t, k) <==> last < RoundToNextMinute(from))
  {
    SearchRepeatsIff(p, from, last);
    var t, r := Schedule(when, s, k, from, true), when(s.jobs[k].job.schedule, from);
    ScheduledRun(when, s, k, from);
    if r.Some? && last < r.value {
      assert Below(t.log, t.jobs[k].id, r.value);
    }
  }

  lemma ScheduledRun(when: Calculator, s: Core, k: nat, from: int)
    requires k < |s.jobs| && Live(s.jobs[k]) && !s.jobs[k].paused && !OneShot(s.jobs[k].job) && !s.jobs[k].queued
    ensures var t, r := Schedule(when, s, k, from, true), when(s.jobs[k].job.schedule, from);
      k < |t.jobs| && t.log == s.log && t.jobs[k].id == s.jobs[k].id && (Armed(t.jobs[k]) <==> r.Some?) &&
      (r.Some? ==> t.jobs[k].nextRun == r.value)
  {
  }

  /** After a refresh at now the job is ahead of its last due time exactly when now rounds up past it. */
  lemma RefreshAheadIff(when: Calculator, p: int -> bool, s: Core, k: nat, now: int, last: int)
    requires Inv(s) && k < |s.jobs| && Refreshable(s.jobs[k]) && Restarts(s, Refresh(k, now, true), k)
    requires Describes(when, s.jobs[k].job.schedule, p) && LastDue(p, s.log, s.jobs[k].id, last) && last < SearchLimit(now)
    ensures var t := Step(when, s, Refresh(k, now, true)); k < |t.jobs| && (Ahead(t, k) <==> last < RoundToNextMinute(now))
  {
    assert SlotOk(s, k);
    var s1 := Put(s, k, s.jobs[k].(pending := false, hasNext := false, nextRun := 0, refreshPending := false));
    ScheduleAheadIff(when, p, s1, k, now, last);
    assert Step(when, s, Refresh(k, now, true)) == RefreshSlot(when, s, k, now, true);
    assert RefreshSlot(when, s, k, now, true) == Schedule(when, s1, k, now, true);
  }

  /** The same for the drain that follows a resume, a completion or an add, with the start time it was queued with. */
  lemma DrainAheadIff(when: Calculator, p: int -> bool, s: Core, k: nat, now: int, last: int)
    requires Inv(s) && k < |s.jobs| && ClockValid(s, now) && Restarts(s, Drain(now, true), k) && !OneShot(s.jobs[k].job)
    requires Describes(when, s.jobs[k].job.schedule, p) && LastDue(p, s.log, s.jobs[k].id, last)
    requires last < SearchLimit(s.jobs[k].scheduleFrom)
    ensures var t := Step(when, s, Drain(now, true));
      k < |t.jobs| && (Ahead(t, k) <==> last < RoundToNextMinute(s.jobs[k].scheduleFrom))
  {
    assert SlotOk(s, k);
    var n := |s.pending| - 1;
    var s1 := Put(s.(pending := s.pending[..n]), k, s.jobs[k].(pending := false));
    ScheduleAheadIff(when, p, s1, k, s.jobs[k].scheduleFrom, last);
    assert Step(when, s, Drain(now, true)) == DrainLast(when, s, true);
    assert DrainLast(when, s, true) == Schedule(when, s1, k, s.jobs[k].scheduleFrom, true);
  }

  /** And being ahead is what matters: the next accepted dispatch keeps the due times increasing exactly when the
      job is ahead. */
  lemma DispatchInOrderIff(when: Calculator, s: Core, e: DueEntry, now: int, env: Env)
    requires Inv(s) && ValidEntry(s, e) && ExactCronJob(s.jobs[e.slot]) && Accepted(s.jobs[e.slot], env)
    requires Increasing(s.log, s.jobs[e.slot].id)
    ensures Increasing(DispatchEntry(when, s, e, now, env).log, s.jobs[e.slot].id) <==> Ahead(s, e.slot)
  {
    var r := s.jobs[e.slot];
    OwnDispatch(when, s, e, now, env);
    IncreasingAppend(s.log, Submission(r.id, r.job, r.nextRun, now));
  }

  // ---------- Runs that submit a due time twice ----------

  /** Add, dispatch, refresh within the same second, dispatch. */
  ghost predicate RefreshRepeats(when: Calculator, job: Job, d: int) {
    var r := FirstRecord(job, d);
    var s := Ticked(when, Added(when, d, job, d), r, d, ACCEPTS);
    var t := Ticked(when, Step(when, s, Refresh(0, d, true)), r, d, ACCEPTS);
    t.log == [Submission(1, job, d, d), Submission(1, job, d, d)]
  }

  /** Add, dispatch, pause, resume and drain within the same second, dispatch. */
  ghost predicate ResumeRepeats(when: Calculator, job: Job, d: int) {
    var r := FirstRecord(job, d);
    var s := Ticked(when, Added(when, d, job, d), r, d, ACCEPTS);
    var t := Ticked(when, Resumed(when, s, d), r.(scheduleFrom := d), d, ACCEPTS);
    t.log == [Submission(1, job, d, d), Submission(1, job, d, d)]
  }

  lemma FirstDispatch(when: Calculator, job: Job, d: int)
    requires Validate(job.schedule) && !OneShot(job) && job.dispatch.Inline?
    requires when(job.schedule, d) == Some(d) && when(job.schedule, d + MINUTE) == Some(d + MINUTE)
    ensures var r := FirstRecord(job, d);
      var s, q := Ticked(when, Added(when, d, job, d), r, d, ACCEPTS), r.(nextRun := d + MINUTE);
      Alone(s, q) && s.heap == multiset{EntryOf(q, 0)} && s.log == [Submission(1, job, d, d)] && s.minValid == d
  {
    AloneAdded(when, d, job, d, d);
    AloneDispatched(when, Added(when, d, job, d), FirstRecord(job, d), d, d + MINUTE);
  }

  /** Alone and armed for a minute after d, the job is armed for d again and submitted. */
  lemma RefreshAgain(when: Calculator, s: Core, q: JobRecord, d: int)
    requires Alone(s, q) && q.nextRun == d + MINUTE && s.heap == multiset{EntryOf(q, 0)} && s.minValid == d
    requires when(q.job.schedule, d) == Some(d) && when(q.job.schedule, d + MINUTE) == Some(d + MINUTE)
    ensures Ticked(when, Step(when, s, Refresh(0, d, true)), q.(nextRun := d), d, ACCEPTS).log ==
      s.log + [Submission(q.id, q.job, d, d)]
  {
    AloneRefreshed(when, s, q, d);
    AloneDispatched(when, Step(when, s, Refresh(0, d, true)), q.(nextRun := d), d, d + MINUTE);
  }

  lemma ResumeAgain(when: Calculator, s: Core, q: JobRecord, d: int)
    requires Alone(s, q) && q.nextRun == d + MINUTE && s.heap == multiset{EntryOf(q, 0)} && s.minValid == d
    requires when(q.job.schedule, d) == Some(d) && when(q.job.schedule, d + MINUTE) == Some(d + MINUTE)
    ensures Ticked(when, Resumed(when, s, d), q.(nextRun := d, scheduleFrom := d), d, ACCEPTS).log ==
      s.log + [Submission(q.id, q.job, d, d)]
  {
    AloneResumed(when, s, q, d);
    AloneDispatched(when, Resumed(when, s, d), q.(nextRun := d, scheduleFrom := d), d, d + MINUTE);
  }

  lemma RepeatRuns(when: Calculator, job: Job, d: int)
    requires Validate(job.schedule) && !OneShot(job) && job.dispatch.Inline?
    requires when(job.schedule, d) == Some(d) && when(job.schedule, d + MINUTE) == Some(d + MINUTE)
    ensures RefreshRepeats(when, job, d) && ResumeRepeats(when, job, d)
  {
    var r := FirstRecord(job, d);
    var s := Ticked(when, Added(when, d, job, d), r, d, ACCEPTS);
    FirstDispatch(when, job, d);
    RefreshAgain(when, s, r.(nextRun := d + MINUTE), d);
    ResumeAgain(when, s, r.(nextRun := d + MINUTE), d);
  }

  /** An every-minute job is submitted twice for one minute by a refresh within it, and by a resume. */
  lemma RepeatHappens(a: Almanac, when: Calculator, job: Job, d: int)
    requires when == CalculatorOf(a) && job == EveryMinute() && d % MINUTE == 0
    ensures RefreshRepeats(when, job, d) && ResumeRepeats(when, job, d)
  {
    EveryMinuteIsCron();
    AnyIsEachMinute(a);
    EachMinuteRepeats(when, job, d);
  }

  lemma EachMinuteRepeats(when: Calculator, job: Job, d: int)
    requires Validate(job.schedule) && !OneShot(job) && job.dispatch.Inline? && EachMinute(when, job.schedule) && d % MINUTE == 0
    ensures RefreshRepeats(when, job, d) && ResumeRepeats(when, job, d)
  {
    assert (d + MINUTE) % MINUTE == 0;
    RepeatRuns(when, job, d);
  }
}
