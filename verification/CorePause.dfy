/** A paused job stays silent until it is resumed. */
module CorePause {
  import opened ScheduleCalculator
  import opened DueHeaps
  import opened CoreModel
  import opened CoreInvariant
  import opened CoreSteps
  import opened CoreHistory
  import opened CoreTheorems

  /** The job id in slot k is paused, or gone for good. */
  ghost predicate Silent(s: Core, k: nat, id: nat) {
    (k < |s.jobs| && Live(s.jobs[k]) && s.jobs[k].id == id && s.jobs[k].paused) || Gone(s, id)
  }

  /** From s to t nothing is submitted under id. */
  ghost predicate NoneSubmitted(s: Core, t: Core, id: nat) {
    |s.log| <= |t.log| && forall i :: |s.log| <= i < |t.log| ==> t.log[i].id != id
  }

  ghost predicate StaysSilent(s: Core, t: Core, k: nat, id: nat) { Silent(t, k, id) && NoneSubmitted(s, t, id) }

  /** A change of another slot. */
  lemma OtherSlot(s: Core, u: Core, j: nat, retired: bool, grow: bool, k: nat)
    requires Inv(s) && Tame(s, u, j) && k < |s.jobs| && j != k && Live(s.jobs[k]) && s.jobs[k].paused
    ensures StaysSilent(s, Closed(u, j, retired, grow), k, s.jobs[k].id)
  {
    assert s.index[s.jobs[j].id] == j && s.index[s.jobs[k].id] == k;
    assert u.jobs[k] == s.jobs[k];
  }

  lemma OnlyOneLive(s: Core, k: nat)
    requires IndexOk(s) && k < |s.jobs| && Live(s.jobs[k])
    ensures 0 < s.jobs[k].id < s.nextId
    ensures forall j :: 0 <= j < |s.jobs| && j != k && Live(s.jobs[j]) ==> s.jobs[j].id != s.jobs[k].id
  {
    forall j | 0 <= j < |s.jobs| && j != k && Live(s.jobs[j])
      ensures s.jobs[j].id != s.jobs[k].id
    {
      assert s.index[s.jobs[j].id] == j && s.index[s.jobs[k].id] == k;
    }
  }

  lemma RetiredIsGone(s: Core, k: nat, grow: bool)
    requires k < |s.jobs| && 0 < s.jobs[k].id < s.nextId
    requires forall j :: 0 <= j < |s.jobs| && j != k && Live(s.jobs[j]) ==> s.jobs[j].id != s.jobs[k].id
    ensures Gone(Retire(s, k, grow), s.jobs[k].id) && Retire(s, k, grow).log == s.log
  {
  }

  lemma SettlePaused(s: Core, k: nat, now: int, env: Env)
    requires k < |s.jobs| && Live(s.jobs[k]) && s.jobs[k].paused && !s.jobs[k].refreshPending && !s.jobs[k].hasNext
    ensures Settle(s, k, now, env) == s || Settle(s, k, now, env) == Retire(s, k, env.grow)
  {
  }

  /** A completion of the paused job itself starts nothing. */
  lemma CompletePaused(when: Calculator, s: Core, k: nat, now: int, env: Env)
    requires Inv(s) && k < |s.jobs| && Live(s.jobs[k]) && s.jobs[k].paused
    ensures StaysSilent(s, Complete(when, s, k, now, env), k, s.jobs[k].id)
  {
    assert SlotOk(s, k);
    var s1 := Finished(s, k);
    assert Complete(when, s, k, now, env) == Settle(s1, k, now, env);
    SettlePaused(s1, k, now, env);
    OnlyOneLive(s, k);
    RetiredIsGone(s1, k, env.grow);
  }

  lemma DrainPaused(when: Calculator, s: Core, push: bool, k: nat)
    requires Inv(s) && |s.pending| > 0 && k < |s.jobs| && Live(s.jobs[k]) && s.jobs[k].paused
    ensures StaysSilent(s, DrainLast(when, s, push), k, s.jobs[k].id)
  {
    var j := s.pending[|s.pending| - 1];
    if j != k && s.jobs[j].occupied {
      DrainShape(when, s, push);
      OtherSlot(s, DrainLast(when, s, push), j, false, false, k);
    }
  }

  lemma DispatchPaused(when: Calculator, s: Core, e: DueEntry, now: int, env: Env, k: nat)
    requires Inv(s) && ValidEntry(s, e) && k < |s.jobs| && Live(s.jobs[k]) && s.jobs[k].paused
    ensures StaysSilent(s, DispatchEntry(when, s, e, now, env), k, s.jobs[k].id)
  {
    assert SlotOk(s, k);
    var u, retired := DispatchShape(when, s, e, now, env);
    OtherSlot(s, u, e.slot, retired, env.grow, k);
  }

  lemma FinishPaused(when: Calculator, s: Core, v: Invocation, now: int, env: Env, k: nat)
    requires Inv(s) && v.slot < |s.jobs| && s.jobs[v.slot].occupied
    requires k < |s.jobs| && Live(s.jobs[k]) && s.jobs[k].paused
    ensures StaysSilent(s, Complete(when, s, v.slot, now, env), k, s.jobs[k].id)
  {
    if v.slot == k {
      CompletePaused(when, s, k, now, env);
    } else {
      var u, retired := CompleteShape(when, s, v.slot, now, env);
      OtherSlot(s, u, v.slot, retired, env.grow, k);
    }
  }

  lemma CallPaused(when: Calculator, s: Core, l: Label, k: nat)
    requires Inv(s) && Enabled(s, l) && k < |s.jobs| && Live(s.jobs[k]) && s.jobs[k].paused
    requires l.Cancel? || l.Pause? || (l.Resume? && l.slot != k) || l.Refresh?
    ensures StaysSilent(s, Step(when, s, l), k, s.jobs[k].id)
  {
    var j := l.slot;
    match l
    case Cancel(_, grow) =>
      if j == k {
        assert SlotOk(s, k);
        CanceledIsGone(s, k, grow);
      } else {
        var u, retired := CancelShape(s, j, grow);
        OtherSlot(s, u, j, retired, grow, k);
      }
    case Pause(_) =>
      if j != k {
        PutTame(s, j, Cleared(s.jobs[j]).(paused := true, queued := false));
        OtherSlot(s, PauseSlot(s, j), j, false, false, k);
      }
    case Resume(_, now, pend) =>
      ResumeShape(s, j, now, pend);
      OtherSlot(s, ResumeSlot(s, j, now, pend), j, false, false, k);
    case Refresh(_, now, push) =>
      RefreshShape(when, s, j, now, push);
      OtherSlot(s, RefreshSlot(when, s, j, now, push), j, false, false, k);
  }

  lemma AddPaused(when: Calculator, s: Core, l: Label, k: nat)
    requires Inv(s) && Enabled(s, l) && l.Add? && k < |s.jobs| && Live(s.jobs[k]) && s.jobs[k].paused
    ensures StaysSilent(s, Step(when, s, l), k, s.jobs[k].id)
  {
    assert AddSlot(s) != k;
    if AddSucceeds(s, l.job, l.startPaused, l.callback, l.now, l.add) {
      AddShape(when, s, l.job, l.startPaused, l.callback, l.now, l.add);
      assert Step(when, s, l).jobs[k] == Placed(s, l.job, l.startPaused).jobs[k] == s.jobs[k];
    }
  }

  ghost predicate ResumesId(s: Core, l: Label, id: nat) {
    l.Resume? && l.slot < |s.jobs| && s.jobs[l.slot].id == id
  }

  lemma StepStaysSilent(when: Calculator, s: Core, l: Label, k: nat, id: nat)
    requires Inv(s) && Silent(s, k, id) && id > 0 && !ResumesId(s, l, id)
    ensures StaysSilent(s, Step(when, s, l), k, id)
  {
    if Gone(s, id) {
      StepEvolves(when, s, l);
      GoneStays(s, Step(when, s, l), id);
    } else if Enabled(s, l) {
      match l
      case Add(_, _, _, _, _) => AddPaused(when, s, l, k);
      case Cancel(_, _) => CallPaused(when, s, l, k);
      case Pause(_) => CallPaused(when, s, l, k);
      case Resume(_, _, _) => CallPaused(when, s, l, k);
      case Refresh(_, _, _) => CallPaused(when, s, l, k);
      case SetMinValid(_) =>
      case Drain(_, push) => DrainPaused(when, s, push, k);
      case Prune(_) =>
      case Dispatch(e, now, env) => DispatchPaused(when, s, e, now, env, k);
      case Finish(v, now, env) => FinishPaused(when, s, v, now, env, k);
    }
  }

  /** No step of the trace from s resumes the job id. */
  ghost predicate NeverResumed(when: Calculator, s: Core, trace: seq<Label>, id: nat) {
    forall i :: 0 <= i < |trace| ==> !ResumesId(Run(when, s, trace[..i]), trace[i], id)
  }

  lemma NeverResumedBefore(when: Calculator, s: Core, trace: seq<Label>, id: nat)
    requires trace != [] && NeverResumed(when, s, trace, id)
    ensures var last := |trace| - 1;
      NeverResumed(when, s, trace[..last], id) && !ResumesId(Run(when, s, trace[..last]), trace[last], id)
  {
    var before := trace[..|trace| - 1];
    forall i | 0 <= i < |before|
      ensures !ResumesId(Run(when, s, before[..i]), before[i], id)
    {
      assert before[..i] == trace[..i];
    }
  }

  lemma LogGrowsOnly(when: Calculator, s: Core, l: Label)
    requires Inv(s)
    ensures s.log <= Step(when, s, l).log
  {
    StepEvolves(when, s, l);
  }

  lemma SilentOn(s: Core, t: Core, u: Core, k: nat, id: nat)
    requires StaysSilent(s, t, k, id) && StaysSilent(t, u, k, id) && t.log <= u.log
    ensures StaysSilent(s, u, k, id)
  {
  }

  lemma {:induction false} RunStaysSilent(when: Calculator, s: Core, trace: seq<Label>, k: nat, id: nat)
    requires Inv(s) && Silent(s, k, id) && id > 0 && NeverResumed(when, s, trace, id)
    ensures StaysSilent(s, Run(when, s, trace), k, id)
    decreases |trace|
  {
    if trace != [] {
      var before, l := trace[..|trace| - 1], trace[|trace| - 1];
      NeverResumedBefore(when, s, trace, id);
      RunStaysSilent(when, s, before, k, id);
      RunKeeps(when, s, before);
      var t := Run(when, s, before);
      StepStaysSilent(when, t, l, k, id);
      LogGrowsOnly(when, t, l);
      SilentOn(s, t, Step(when, t, l), k, id);
    }
  }

  /** After a pause, until that very job is resumed, nothing is submitted under its id: not by
      completions, refreshes, stale entries or reuse of its slot. */
  lemma PausedIsSilent(when: Calculator, minValid: int, before: seq<Label>, k: nat, after: seq<Label>)
    requires Enabled(Run(when, Init(minValid), before), Pause(k))
    requires var s := Run(when, Init(minValid), before);
      NeverResumed(when, Step(when, s, Pause(k)), after, s.jobs[k].id)
    ensures var s := Run(when, Init(minValid), before);
      NoneSubmitted(s, Run(when, Step(when, s, Pause(k)), after), s.jobs[k].id)
  {
    var s := Run(when, Init(minValid), before);
    ReachableInv(when, minValid, before);
    assert SlotOk(s, k);
    StepKeeps(when, s, Pause(k));
    RunStaysSilent(when, Step(when, s, Pause(k)), after, k, s.jobs[k].id);
  }
}
