/** No live job and no slot is ever lost, as long as allocations succeed. */
module CoreLiveness {
  import opened ScheduleCalculator
  import opened DueHeaps
  import opened CoreModel
  import opened CoreInvariant
  import opened CoreSteps
  import opened CoreHistory

  /** A live, unpaused job is armed, waits to be scheduled, runs, or has no occurrence to wait for. */
  ghost predicate Tracked(when: Calculator, s: Core, k: nat)
    requires k < |s.jobs|
  {
    var r := s.jobs[k];
    Live(r) && !r.paused ==>
      r.hasNext || r.pending || r.running > 0 ||
      (r.id in s.missed && when(r.job.schedule, s.missed[r.id]).None?)
  }

  ghost predicate NothingLost(when: Calculator, s: Core) {
    forall k :: 0 <= k < |s.jobs| ==> Tracked(when, s, k) && (!s.jobs[k].occupied ==> k in s.free)
  }

  predicate Generous(env: Env) { env.push && env.retryPush && env.pend && env.grow }

  /** Every allocation made by this step succeeds. */
  predicate Allocates(l: Label) {
    match l
    case Add(_, _, _, _, env) => env.name && env.table && env.index && env.push && env.pend
    case Cancel(_, grow) => grow
    case Pause(_) => true
    case Resume(_, _, pend) => pend
    case Refresh(_, _, push) => push
    case SetMinValid(_) => true
    case Drain(_, push) => push
    case Prune(_) => true
    case Dispatch(_, _, env) => Generous(env)
    case Finish(_, _, env) => Generous(env)
  }

  /** Search outcomes are recorded only under the given id. */
  ghost predicate MissedFrame(s: Core, t: Core, id: nat) {
    forall j :: j != id ==>
      (j in t.missed <==> j in s.missed) && (j in s.missed ==> t.missed[j] == s.missed[j])
  }

  // ---------- The slot an operation works on ends up tracked ----------

  lemma ScheduleTracks(when: Calculator, s: Core, k: nat, from: int)
    requires k < |s.jobs| && s.jobs[k].occupied
    ensures Tracked(when, Schedule(when, s, k, from, true), k) && MissedFrame(s, Schedule(when, s, k, from, true), s.jobs[k].id)
  {
  }

  lemma QueueTracks(when: Calculator, s: Core, k: nat, from: int)
    requires k < |s.jobs|
    ensures Tracked(when, QueueScheduling(s, k, from, true), k) && QueueScheduling(s, k, from, true).missed == s.missed
  {
  }

  lemma SettleTracks(when: Calculator, s: Core, k: nat, now: int, env: Env)
    requires k < |s.jobs| && Generous(env)
    ensures Settle(s, k, now, env).missed == s.missed && |Settle(s, k, now, env).jobs| == |s.jobs|
    ensures Tracked(when, Settle(s, k, now, env), k)
  {
    var r := s.jobs[k];
    QueueTracks(when, s, k, now);
    QueueTracks(when, Put(s, k, r.(refreshPending := false, queued := false, hasNext := false)), k, now);
  }

  lemma AdvanceFrame(when: Calculator, s: Core, k: nat, due: int, stop: bool, push: bool)
    requires k < |s.jobs|
    ensures MissedFrame(s, Advance(when, s, k, due, stop, push), s.jobs[k].id)
    ensures |Advance(when, s, k, due, stop, push).jobs| == |s.jobs|
    ensures Advance(when, s, k, due, stop, push).jobs[k].running == s.jobs[k].running
  {
  }

  lemma RetryTracks(when: Calculator, s: Core, k: nat, now: int)
    requires k < |s.jobs| && s.jobs[k].occupied
    ensures Tracked(when, Retry(s, k, now, true), k) && Retry(s, k, now, true).missed == s.missed
  {
  }

  lemma InlineTracks(when: Calculator, s: Core, k: nat, now: int, env: Env)
    requires k < |s.jobs| && Live(s.jobs[k]) && Generous(env)
    ensures var t := DispatchInline(when, s, k, now, env);
      |t.jobs| == |s.jobs| && Tracked(when, t, k) && MissedFrame(s, t, s.jobs[k].id)
  {
    var r := s.jobs[k];
    if !env.inlineExecutor {
      RetryTracks(when, s, k, now);
    } else {
      var s1 := Advance(when, s, k, r.nextRun, OneShot(r.job), env.push);
      AdvanceFrame(when, s, k, r.nextRun, OneShot(r.job), env.push);
      AdvancedLive(when, s, k, r.nextRun, OneShot(r.job), env.push);
      RetryTracks(when, s1, k, now);
      SettleTracks(when, Finished(Submitted(s1, k, r.nextRun, now), k), k, now, env);
    }
  }

  lemma AsyncTracks(when: Calculator, s: Core, k: nat, now: int, env: Env, deferred: bool)
    requires k < |s.jobs| && Live(s.jobs[k]) && Generous(env)
    ensures var t := DispatchAsync(when, s, k, now, env, deferred);
      |t.jobs| == |s.jobs| && Tracked(when, t, k) && MissedFrame(s, t, s.jobs[k].id)
  {
    var r := s.jobs[k];
    RetryTracks(when, s, k, now);
    AdvanceFrame(when, Submitted(s, k, r.nextRun, now), k, r.nextRun, deferred || OneShot(r.job), env.push);
  }

  lemma DispatchOneTracks(when: Calculator, s: Core, k: nat, now: int, env: Env, deferred: bool)
    requires k < |s.jobs| && Live(s.jobs[k]) && Generous(env)
    ensures var t := DispatchOne(when, s, k, now, env, deferred);
      |t.jobs| == |s.jobs| && Tracked(when, t, k) && MissedFrame(s, t, s.jobs[k].id)
  {
    if s.jobs[k].job.dispatch.Inline? {
      InlineTracks(when, s, k, now, env);
    } else {
      AsyncTracks(when, s, k, now, env, deferred);
    }
  }

  lemma DispatchTracks(when: Calculator, s: Core, e: DueEntry, now: int, env: Env)
    requires ValidEntry(s, e) && Generous(env)
    ensures var t := DispatchEntry(when, s, e, now, env);
      |t.jobs| == |s.jobs| && Tracked(when, t, e.slot) && MissedFrame(s, t, s.jobs[e.slot].id)
  {
    DispatchOneTracks(when, PopEntry(s, e), e.slot, now, env, false);
  }

  lemma CompleteTracks(when: Calculator, s: Core, k: nat, now: int, env: Env)
    requires k < |s.jobs| && s.jobs[k].occupied && Generous(env)
    ensures var t := Complete(when, s, k, now, env);
      |t.jobs| == |s.jobs| && Tracked(when, t, k) && MissedFrame(s, t, s.jobs[k].id)
  {
    var s1 := Finished(s, k);
    var r := s1.jobs[k];
    if !Deferred(r) {
      SettleTracks(when, s1, k, now, env);
    } else if !r.paused {
      DispatchOneTracks(when, Put(s1, k, r.(queued := false)), k, now, env, true);
    }
  }

  lemma CallTracks(when: Calculator, s: Core, k: nat, now: int)
    requires k < |s.jobs| && Live(s.jobs[k])
    ensures Tracked(when, PauseSlot(s, k), k) && PauseSlot(s, k).missed == s.missed
    ensures |CancelSlot(s, k, true).jobs| == |s.jobs| && Tracked(when, CancelSlot(s, k, true), k)
    ensures CancelSlot(s, k, true).missed == s.missed
    ensures |ResumeSlot(s, k, now, true).jobs| == |s.jobs| && Tracked(when, ResumeSlot(s, k, now, true), k)
    ensures ResumeSlot(s, k, now, true).missed == s.missed
  {
    QueueTracks(when, Put(s, k, s.jobs[k].(paused := false, queued := false)), k, now);
  }

  lemma RefreshTracks(when: Calculator, s: Core, k: nat, now: int)
    requires k < |s.jobs| && Live(s.jobs[k])
    ensures var t := RefreshSlot(when, s, k, now, true);
      |t.jobs| == |s.jobs| && Tracked(when, t, k) && MissedFrame(s, t, s.jobs[k].id)
  {
    var r := s.jobs[k].(pending := false, hasNext := false, nextRun := 0);
    ScheduleTracks(when, Put(s, k, r.(refreshPending := false)), k, now);
  }

  lemma DrainTracks(when: Calculator, s: Core)
    requires |s.pending| > 0 && s.pending[|s.pending| - 1] < |s.jobs| && s.jobs[s.pending[|s.pending| - 1]].occupied
    ensures var t, k := DrainLast(when, s, true), s.pending[|s.pending| - 1];
      |t.jobs| == |s.jobs| && Tracked(when, t, k) && MissedFrame(s, t, s.jobs[k].id)
  {
    var k := s.pending[|s.pending| - 1];
    DrainSplit(when, s, true);
    var s1 := Put(s, k, s.jobs[k].(pending := false)).(pending := s.pending[..|s.pending| - 1]);
    ScheduleTracks(when, s1, k, s1.jobs[k].scheduleFrom);
  }

  // ---------- The other slots stay tracked ----------

  lemma OthersTracked(when: Calculator, s: Core, u: Core, t: Core, k: nat, retired: bool)
    requires Inv(s) && NothingLost(when, s) && Tame(s, u, k) && t == Closed(u, k, retired, true)
    requires Tracked(when, t, k) && MissedFrame(s, t, s.jobs[k].id)
    ensures NothingLost(when, t)
  {
    forall j | 0 <= j < |t.jobs|
      ensures Tracked(when, t, j) && (!t.jobs[j].occupied ==> j in t.free)
    {
      if j != k {
        assert t.jobs[j] == s.jobs[j];
        assert Tracked(when, s, j);
        if s.jobs[j].occupied {
          assert s.index[s.jobs[j].id] == j && s.index[s.jobs[k].id] == k;
        }
      }
    }
  }

  lemma AddLosesNothing(when: Calculator, s: Core, job: Job, paused: bool, callback: bool, now: int, env: AddEnv)
    requires Inv(s) && NothingLost(when, s) && env.push && env.pend
    ensures NothingLost(when, AddJob(when, s, job, paused, callback, now, env))
  {
    var t := AddJob(when, s, job, paused, callback, now, env);
    var k := AddSlot(s);
    if AddSucceeds(s, job, paused, callback, now, env) {
      var s1 := Placed(s, job, paused);
      PlacedRecord(s, job, paused);
      AddShape(when, s, job, paused, callback, now, env);
      if !paused && ClockValid(s, now) {
        ScheduleTracks(when, s1, k, now);
      } else if !paused {
        QueueTracks(when, s1, k, now);
      }
      assert Tracked(when, t, k) && MissedFrame(s1, t, s1.jobs[k].id);
      PlacedOthers(when, s, t, job, paused);
    } else {
      UnplacedTracked(when, s);
    }
  }

  lemma UnplacedTracked(when: Calculator, s: Core)
    requires Inv(s) && NothingLost(when, s)
    ensures NothingLost(when, s.(nextId := s.nextId + 1)) && NothingLost(when, RolledBack(s))
  {
    var t := s.(nextId := s.nextId + 1);
    forall j | 0 <= j < |s.jobs|
      ensures Tracked(when, t, j)
    {
      assert Tracked(when, s, j);
    }
    var u := RolledBack(s);
    forall j | 0 <= j < |u.jobs|
      ensures Tracked(when, u, j)
    {
      assert Tracked(when, s, j);
    }
  }

  lemma PlacedOther(when: Calculator, s: Core, t: Core, job: Job, paused: bool, j: nat)
    requires Inv(s) && NothingLost(when, s) && Tame(Placed(s, job, paused), t, AddSlot(s))
    requires MissedFrame(Placed(s, job, paused), t, s.nextId) && j < |t.jobs| && j != AddSlot(s)
    ensures Tracked(when, t, j) && (!t.jobs[j].occupied ==> j in t.free)
  {
    var s1 := Placed(s, job, paused);
    PlacedSame(s, job, paused, j);
    assert t.jobs[j] == s1.jobs[j];
    assert Tracked(when, s, j);
  }

  lemma PlacedSame(s: Core, job: Job, paused: bool, j: nat)
    requires Inv(s) && j < |Placed(s, job, paused).jobs| && j != AddSlot(s)
    ensures j < |s.jobs| && Placed(s, job, paused).jobs[j] == s.jobs[j]
    ensures j in s.free ==> j in Placed(s, job, paused).free
  {
    if |s.free| > 0 {
      assert s.free == s.free[..|s.free| - 1] + [AddSlot(s)];
    }
  }

  lemma PlacedOthers(when: Calculator, s: Core, t: Core, job: Job, paused: bool)
    requires Inv(s) && NothingLost(when, s) && Tame(Placed(s, job, paused), t, AddSlot(s))
    requires Tracked(when, t, AddSlot(s)) && MissedFrame(Placed(s, job, paused), t, s.nextId)
    ensures NothingLost(when, t)
  {
    forall j | 0 <= j < |t.jobs|
      ensures Tracked(when, t, j) && (!t.jobs[j].occupied ==> j in t.free)
    {
      if j != AddSlot(s) {
        PlacedOther(when, s, t, job, paused, j);
      }
    }
  }

  lemma SameTableTracked(when: Calculator, s: Core, t: Core)
    requires NothingLost(when, s) && t.jobs == s.jobs && t.missed == s.missed && t.free == s.free
    ensures NothingLost(when, t)
  {
    forall j | 0 <= j < |t.jobs|
      ensures Tracked(when, t, j)
    {
      assert Tracked(when, s, j);
    }
  }

  lemma DrainLosesNothing(when: Calculator, s: Core)
    requires Inv(s) && NothingLost(when, s) && |s.pending| > 0
    ensures NothingLost(when, DrainLast(when, s, true))
  {
    var k := s.pending[|s.pending| - 1];
    var t := DrainLast(when, s, true);
    if s.jobs[k].occupied {
      DrainShape(when, s, true);
      DrainTracks(when, s);
      OthersTracked(when, s, t, t, k, false);
    } else {
      assert SlotOk(s, k);
      assert t.jobs == s.jobs;
      SameTableTracked(when, s, t);
    }
  }

  lemma CallLosesNothing(when: Calculator, s: Core, k: nat, now: int)
    requires Inv(s) && NothingLost(when, s) && k < |s.jobs| && Live(s.jobs[k])
    ensures NothingLost(when, CancelSlot(s, k, true))
    ensures NothingLost(when, PauseSlot(s, k))
    ensures NothingLost(when, ResumeSlot(s, k, now, true))
  {
    CallTracks(when, s, k, now);
    var u, retired := CancelShape(s, k, true);
    OthersTracked(when, s, u, CancelSlot(s, k, true), k, retired);
    PutTame(s, k, Cleared(s.jobs[k]).(paused := true, queued := false));
    OthersTracked(when, s, PauseSlot(s, k), PauseSlot(s, k), k, false);
    ResumeShape(s, k, now, true);
    OthersTracked(when, s, ResumeSlot(s, k, now, true), ResumeSlot(s, k, now, true), k, false);
  }

  lemma RefreshLosesNothing(when: Calculator, s: Core, k: nat, now: int)
    requires Inv(s) && NothingLost(when, s) && k < |s.jobs| && Live(s.jobs[k])
    ensures NothingLost(when, RefreshSlot(when, s, k, now, true))
  {
    RefreshTracks(when, s, k, now);
    RefreshShape(when, s, k, now, true);
    OthersTracked(when, s, RefreshSlot(when, s, k, now, true), RefreshSlot(when, s, k, now, true), k, false);
  }

  lemma DispatchLosesNothing(when: Calculator, s: Core, e: DueEntry, now: int, env: Env)
    requires Inv(s) && NothingLost(when, s) && ValidEntry(s, e) && Generous(env)
    ensures NothingLost(when, DispatchEntry(when, s, e, now, env))
  {
    DispatchTracks(when, s, e, now, env);
    var u, retired := DispatchShape(when, s, e, now, env);
    OthersTracked(when, s, u, DispatchEntry(when, s, e, now, env), e.slot, retired);
  }

  lemma CompleteLosesNothing(when: Calculator, s: Core, k: nat, now: int, env: Env)
    requires Inv(s) && NothingLost(when, s) && k < |s.jobs| && s.jobs[k].occupied && Generous(env)
    ensures NothingLost(when, Complete(when, s, k, now, env))
  {
    CompleteTracks(when, s, k, now, env);
    var u, retired := CompleteShape(when, s, k, now, env);
    OthersTracked(when, s, u, Complete(when, s, k, now, env), k, retired);
  }

  lemma StepLosesNothing(when: Calculator, s: Core, l: Label)
    requires Inv(s) && NothingLost(when, s) && Allocates(l)
    ensures NothingLost(when, Step(when, s, l))
  {
    if Enabled(s, l) {
      match l
      case Add(job, paused, callback, now, env) => AddLosesNothing(when, s, job, paused, callback, now, env);
      case Cancel(k, _) => CallLosesNothing(when, s, k, 0);
      case Pause(k) => CallLosesNothing(when, s, k, 0);
      case Resume(k, now, _) => CallLosesNothing(when, s, k, now);
      case Refresh(k, now, _) => RefreshLosesNothing(when, s, k, now);
      case SetMinValid(_) => SameTableTracked(when, s, Step(when, s, l));
      case Drain(_, _) => DrainLosesNothing(when, s);
      case Prune(_) => SameTableTracked(when, s, Step(when, s, l));
      case Dispatch(e, now, env) => DispatchLosesNothing(when, s, e, now, env);
      case Finish(v, now, env) => CompleteLosesNothing(when, s, v.slot, now, env);
    }
  }

  lemma {:induction false} RunLosesNothing(when: Calculator, s: Core, trace: seq<Label>)
    requires Inv(s) && NothingLost(when, s) && forall i :: 0 <= i < |trace| ==> Allocates(trace[i])
    ensures NothingLost(when, Run(when, s, trace))
    decreases |trace|
  {
    if trace != [] {
      var before := trace[..|trace| - 1];
      RunLosesNothing(when, s, before);
      RunKeeps(when, s, before);
      StepLosesNothing(when, Run(when, s, before), trace[|trace| - 1]);
    }
  }

  /** In every run without allocation failure, whatever executors and clock do, each live unpaused
      job is in the heap with its next run, or in the pending list, or running, or its last search
      found nothing; and every unoccupied slot is in the free list. */
  lemma NoLiveJobIsLost(when: Calculator, minValid: int, trace: seq<Label>, k: nat)
    requires forall i :: 0 <= i < |trace| ==> Allocates(trace[i])
    requires k < |Run(when, Init(minValid), trace).jobs|
    ensures var s := Run(when, Init(minValid), trace);
      var r := s.jobs[k];
      (Live(r) && !r.paused ==>
        (r.hasNext && EntryOf(r, k) in s.heap) ||
        (r.pending && k in s.pending && r.running == 0 && !r.hasNext) ||
        r.running > 0 ||
        (r.id in s.missed && when(r.job.schedule, s.missed[r.id]).None?)) &&
      (!r.occupied ==> k in s.free)
  {
    var s := Run(when, Init(minValid), trace);
    ReachableInv(when, minValid, trace);
    RunLosesNothing(when, Init(minValid), trace);
    assert SlotOk(s, k);
    assert Tracked(when, s, k);
  }
}
