/**
 One dispatchDue pass (core/scheduler_core.cpp): it terminates, dispatches in order of due
 time, and leaves nothing due and nothing pending but jobs that have run out.
 */
module DispatchPass {
  import opened Calendar
  import opened ScheduleCalculator
  import opened DueHeaps
  import opened CoreModel
  import opened CoreInvariant
  import opened CoreSteps
  import opened CoreHistory

  /** A label of the dispatch loop at time now. */
  predicate LoopLabel(l: Label, now: int) {
    l.Prune? || (l.Dispatch? && l.now == now)
  }

  /** One turn of the dispatch loop: drop a stale top entry, or dispatch a valid one. */
  ghost predicate Turn(when: Calculator, s: Core, l: Label, t: Core, now: int) {
    LoopLabel(l, now) && Enabled(s, l) &&
    t == if l.Prune? then PopEntry(s, l.entry) else DispatchEntry(when, s, l.entry, now, l.env)
  }

  lemma TurnIsStep(when: Calculator, s: Core, l: Label, t: Core, now: int)
    requires Turn(when, s, l, t, now)
    ensures t == Step(when, s, l)
  {
  }

  ghost predicate TurnAt(when: Calculator, pass: seq<Label>, states: seq<Core>, now: int, i: nat) {
    i < |pass| && i + 1 < |states| && Turn(when, states[i], pass[i], states[i + 1], now)
  }

  /** A run of the dispatch loop at time now, with the states it goes through. */
  ghost predicate IsPass(when: Calculator, pass: seq<Label>, states: seq<Core>, now: int) {
    |states| == |pass| + 1 && forall i :: 0 <= i < |pass| ==> TurnAt(when, pass, states, now, i)
  }

  lemma TurnAtLonger(when: Calculator, pass: seq<Label>, states: seq<Core>, now: int, l: Label, t: Core, i: nat)
    requires TurnAt(when, pass, states, now, i)
    ensures TurnAt(when, pass + [l], states + [t], now, i)
  {
    assert (pass + [l])[i] == pass[i] && (states + [t])[i] == states[i] && (states + [t])[i + 1] == states[i + 1];
  }

  lemma PassAppend(when: Calculator, pass: seq<Label>, states: seq<Core>, now: int, l: Label, t: Core)
    requires IsPass(when, pass, states, now) && Turn(when, states[|pass|], l, t, now)
    ensures IsPass(when, pass + [l], states + [t], now)
  {
    forall i | 0 <= i < |pass|
      ensures TurnAt(when, pass + [l], states + [t], now, i)
    {
      TurnAtLonger(when, pass, states, now, l, t, i);
    }
    assert TurnAt(when, pass + [l], states + [t], now, |pass|);
  }

  lemma TurnAtIsStep(when: Calculator, pass: seq<Label>, states: seq<Core>, now: int, n: nat)
    requires TurnAt(when, pass, states, now, n)
    ensures n < |pass| && n + 1 < |states| && states[n + 1] == Step(when, states[n], pass[n])
  {
    TurnIsStep(when, states[n], pass[n], states[n + 1], now);
  }

  lemma TurnKeeps(when: Calculator, s: Core, l: Label, t: Core, now: int)
    requires Inv(s) && Turn(when, s, l, t, now)
    ensures Inv(t)
  {
    if l.Prune? {
      PruneKeeps(s, l.entry);
    } else {
      DispatchKeeps(when, s, l.entry, now, l.env);
    }
  }

  /** A pass is a stretch of a run of the core. */
  lemma PassIsRun(when: Calculator, pass: seq<Label>, states: seq<Core>, now: int)
    requires IsPass(when, pass, states, now)
    ensures states[|pass|] == Run(when, states[0], pass)
  {
    var run: seq<Label> -> Core := t => Run(when, states[0], t);
    var step: (Core, Label) -> Core := (s, l) => Step(when, s, l);
    forall t: seq<Label>, l: Label
      ensures run(t + [l]) == step(run(t), l)
    {
      RunAppend(when, states[0], t, l);
    }
    forall i | 0 <= i < |pass|
      ensures states[i + 1] == step(states[i], pass[i])
    {
      TurnAtIsStep(when, pass, states, now, i);
    }
    ChainEnd(step, run, states, pass, |pass|);
    assert pass[..|pass|] == pass;
  }

  // ---------- What a dispatch adds to the heap ----------

  lemma AdvanceHeap(when: Calculator, s: Core, k: nat, due: int, stop: bool, push: bool) returns (more: multiset<DueEntry>)
    requires NeverEarly(when) && k < |s.jobs| && (stop || !OneShot(s.jobs[k].job))
    ensures Advance(when, s, k, due, stop, push).heap == s.heap + more && |more| <= 1
    ensures forall f :: f in more ==> f.epoch >= due + MINUTE
  {
    var t := Advance(when, s, k, due, stop, push);
    more := multiset{};
    if !stop {
      var r := Search(when, s.jobs[k], due + MINUTE);
      if r.occupied && !r.canceled && r.hasNext && push {
        more := multiset{EntryOf(r, k)};
      }
    }
  }

  lemma RetryHeap(s: Core, k: nat, now: int, push: bool) returns (more: multiset<DueEntry>)
    requires k < |s.jobs|
    ensures Retry(s, k, now, push).heap == s.heap + more && |more| <= 1
    ensures forall f :: f in more ==> f.epoch > now
  {
    var r := s.jobs[k].(hasNext := true, nextRun := now + RETRY_DELAY_SECONDS);
    more := if r.occupied && !r.canceled && push then multiset{EntryOf(r, k)} else multiset{};
  }

  lemma SettleHeap(s: Core, k: nat, now: int, env: Env)
    requires k < |s.jobs|
    ensures Settle(s, k, now, env).heap == s.heap
  {
  }

  lemma InlineHeap(when: Calculator, s: Core, k: nat, now: int, env: Env)
    returns (next: multiset<DueEntry>, retry: multiset<DueEntry>)
    requires NeverEarly(when) && k < |s.jobs|
    ensures DispatchInline(when, s, k, now, env).heap == s.heap + next + retry
    ensures |next| <= 1 && forall f :: f in next ==> f.epoch >= s.jobs[k].nextRun + MINUTE
    ensures |retry| <= 1 && forall f :: f in retry ==> f.epoch > now
  {
    var r := s.jobs[k];
    next, retry := multiset{}, multiset{};
    if !env.inlineExecutor {
      retry := RetryHeap(s, k, now, env.retryPush);
    } else {
      var s1 := Advance(when, s, k, r.nextRun, OneShot(r.job), env.push);
      next := AdvanceHeap(when, s, k, r.nextRun, OneShot(r.job), env.push);
      AdvanceFrameOnly(when, s, k, r.nextRun, OneShot(r.job), env.push);
      if !env.submit {
        retry := RetryHeap(s1, k, now, env.retryPush);
      } else {
        SettleHeap(Finished(Submitted(s1, k, r.nextRun, now), k), k, now, env);
      }
    }
  }

  lemma AdvanceFrameOnly(when: Calculator, s: Core, k: nat, due: int, stop: bool, push: bool)
    requires k < |s.jobs|
    ensures |Advance(when, s, k, due, stop, push).jobs| == |s.jobs|
  {
  }

  lemma DispatchOneHeap(when: Calculator, s: Core, k: nat, now: int, env: Env)
    returns (next: multiset<DueEntry>, retry: multiset<DueEntry>)
    requires NeverEarly(when) && k < |s.jobs|
    ensures DispatchOne(when, s, k, now, env, false).heap == s.heap + next + retry
    ensures |next| <= 1 && forall f :: f in next ==> f.epoch >= s.jobs[k].nextRun + MINUTE
    ensures |retry| <= 1 && forall f :: f in retry ==> f.epoch > now
  {
    var r := s.jobs[k];
    next, retry := multiset{}, multiset{};
    if Live(r) && !r.paused {
      if r.job.dispatch.Inline? {
        next, retry := InlineHeap(when, s, k, now, env);
      } else if CannotSubmit(r, env) {
        retry := RetryHeap(s, k, now, env.retryPush);
      } else {
        next := AdvanceHeap(when, Submitted(s, k, r.nextRun, now), k, r.nextRun, OneShot(r.job), env.push);
      }
    }
  }

  /** The heap loses the popped entry and gains at most one later occurrence and one retry after now. */
  lemma DispatchHeap(when: Calculator, s: Core, e: DueEntry, now: int, env: Env)
    returns (next: multiset<DueEntry>, retry: multiset<DueEntry>)
    requires NeverEarly(when) && ValidEntry(s, e)
    ensures DispatchEntry(when, s, e, now, env).heap == s.heap - multiset{e} + next + retry
    ensures |next| <= 1 && forall f :: f in next ==> f.epoch >= e.epoch + MINUTE
    ensures |retry| <= 1 && forall f :: f in retry ==> f.epoch > now
  {
    var r := s.jobs[e.slot];
    if r.paused || (r.running > 0 && !r.job.overlap.AllowParallel?) {
      next, retry := multiset{}, multiset{};
    } else {
      next, retry := DispatchOneHeap(when, PopEntry(s, e), e.slot, now, env);
    }
  }

  // ---------- Termination ----------

  function EntryWeight(e: DueEntry, now: int): nat {
    if e.epoch <= now then now - e.epoch + 1 else 0
  }

  /** The loop's measure: seconds of overdue time left in the heap. */
  ghost function Weight(m: multiset<DueEntry>, now: int): nat
    decreases |m|
  {
    if m == multiset{} then 0
    else
      var e :| e in m;
      EntryWeight(e, now) + Weight(m - multiset{e}, now)
  }

  lemma {:induction false} WeightRemove(m: multiset<DueEntry>, e: DueEntry, now: int)
    requires e in m
    ensures Weight(m, now) == EntryWeight(e, now) + Weight(m - multiset{e}, now)
    decreases |m|
  {
    var f :| f in m && Weight(m, now) == EntryWeight(f, now) + Weight(m - multiset{f}, now);
    if f != e {
      WeightRemove(m - multiset{f}, e, now);
      WeightRemove(m - multiset{e}, f, now);
      assert m - multiset{f} - multiset{e} == m - multiset{e} - multiset{f};
    }
  }

  lemma WeightAdd(m: multiset<DueEntry>, more: multiset<DueEntry>, now: int, bound: nat)
    requires |more| <= 1 && forall f :: f in more ==> EntryWeight(f, now) <= bound
    ensures Weight(m + more, now) <= Weight(m, now) + bound
  {
    if more == multiset{} {
      assert m + more == m;
    } else {
      var f :| f in more;
      assert |more - multiset{f}| == 0;
      assert more == multiset{f};
      WeightRemove(m + more, f, now);
      assert m + more - multiset{f} == m;
    }
  }

  /** Each turn of the loop strictly reduces the measure, whatever the executors answer. */
  lemma DispatchTerminates(when: Calculator, s: Core, e: DueEntry, now: int, env: Env)
    requires NeverEarly(when) && ValidEntry(s, e) && e in s.heap && e.epoch <= now
    ensures Weight(DispatchEntry(when, s, e, now, env).heap, now) < Weight(s.heap, now)
  {
    var next, retry := DispatchHeap(when, s, e, now, env);
    WeightRemove(s.heap, e, now);
    WeightAdd(s.heap - multiset{e}, next, now, EntryWeight(e, now) - 1);
    WeightAdd(s.heap - multiset{e} + next, retry, now, 0);
  }

  lemma PruneKeepsWeight(s: Core, e: DueEntry, now: int)
    requires e in s.heap
    ensures Weight(PopEntry(s, e).heap, now) <= Weight(s.heap, now)
  {
    WeightRemove(s.heap, e, now);
  }

  // ---------- Order ----------

  ghost predicate NotBefore(m: multiset<DueEntry>, floor: int) {
    forall f :: f in m ==> floor <= f.epoch
  }

  /** A dispatch leaves nothing older than its own due time in the heap. */
  lemma DispatchRaisesFloor(when: Calculator, s: Core, l: Label, t: Core, now: int)
    requires NeverEarly(when) && Turn(when, s, l, t, now)
    ensures l.Dispatch? ==> l.entry in s.heap && NotBefore(t.heap, l.entry.epoch)
    ensures l.Prune? ==> t.heap <= s.heap
  {
    if l.Dispatch? {
      var later, retry := DispatchHeap(when, s, l.entry, now, l.env);
      forall f | f in t.heap
        ensures l.entry.epoch <= f.epoch
      {
        assert f in s.heap || f in later || f in retry;
      }
    }
  }

  /** The dispatched due times do not decrease. */
  ghost predicate InOrder(pass: seq<Label>) {
    forall i, j :: 0 <= i < j < |pass| && pass[i].Dispatch? && pass[j].Dispatch? ==>
      pass[i].entry.epoch <= pass[j].entry.epoch
  }

  /** The first n labels are in order, and none of them is later than anything left in the heap m. */
  ghost predicate OrderedSoFar(pass: seq<Label>, n: nat, m: multiset<DueEntry>, floor: int) {
    n <= |pass| && InOrder(pass[..n]) &&
    (forall i :: 0 <= i < n && pass[i].Dispatch? ==> pass[i].entry.epoch <= floor && NotBefore(m, floor))
  }

  lemma OrderedNext(pass: seq<Label>, n: nat, m: multiset<DueEntry>, floor: int, m': multiset<DueEntry>)
    returns (floor': int)
    requires OrderedSoFar(pass, n, m, floor) && n < |pass|
    requires pass[n].Dispatch? ==> pass[n].entry in m && NotBefore(m', pass[n].entry.epoch)
    requires !pass[n].Dispatch? ==> m' <= m
    ensures OrderedSoFar(pass, n + 1, m', floor')
  {
    floor' := if pass[n].Dispatch? then pass[n].entry.epoch else floor;
    assert pass[..n + 1] == pass[..n] + [pass[n]];
    forall i | 0 <= i < n && pass[i].Dispatch?
      ensures pass[i].entry.epoch <= floor' && NotBefore(m', floor')
    {
      assert NotBefore(m, floor);
    }
  }

  /** Across all jobs, a pass dispatches in nondecreasing order of due time. */
  lemma PassIsInOrder(when: Calculator, pass: seq<Label>, states: seq<Core>, now: int)
    requires NeverEarly(when) && IsPass(when, pass, states, now)
    ensures InOrder(pass)
  {
    var n, floor := 0, 0;
    while n < |pass|
      invariant n <= |pass| && OrderedSoFar(pass, n, states[n].heap, floor)
    {
      assert TurnAt(when, pass, states, now, n);
      DispatchRaisesFloor(when, states[n], pass[n], states[n + 1], now);
      floor := OrderedNext(pass, n, states[n].heap, floor, states[n + 1].heap);
      n := n + 1;
    }
    assert pass[..n] == pass;
  }

  /** When the heap holds nothing due, no live job is due either. */
  lemma NothingDueLeft(s: Core, now: int, k: nat)
    requires Inv(s) && k < |s.jobs| && forall e :: e in s.heap ==> e.epoch > now
    ensures s.jobs[k].hasNext ==> s.jobs[k].nextRun > now
  {
    assert SlotOk(s, k);
  }

  // ---------- What a pass leaves pending ----------

  /** An inline recurring job whose search from its last due time found nothing; it waits in the pending
      list, from now on, for the next drain. */
  ghost predicate Exhausted(when: Calculator, r: JobRecord, now: int) {
    Live(r) && !r.paused && r.pending && !r.hasNext && r.running == 0 && r.job.dispatch.Inline? && !OneShot(r.job) &&
    r.scheduleFrom == now && r.nextRun <= now && when(r.job.schedule, r.nextRun + MINUTE).None?
  }

  ghost predicate OnlyExhausted(when: Calculator, s: Core, now: int) {
    forall k :: k in s.pending ==> k < |s.jobs| && Exhausted(when, s.jobs[k], now)
  }

  lemma SettlePends(s: Core, k: nat, due: int, now: int, env: Env)
    requires k < |s.jobs| && Live(s.jobs[k]) && !s.jobs[k].paused && !s.jobs[k].pending && s.jobs[k].running == 0
    requires !s.jobs[k].refreshPending
    ensures var t := Settle(Finished(Submitted(s, k, due, now), k), k, now, env);
      t.pending == s.pending ||
      (t.pending == s.pending + [k] && !OneShot(s.jobs[k].job) && !s.jobs[k].hasNext &&
       t.jobs == s.jobs[k := s.jobs[k].(scheduleFrom := now, pending := true)])
  {
    var s1 := Finished(Submitted(s, k, due, now), k);
    assert s1.jobs[k] == s.jobs[k];
    assert s1.jobs == s.jobs;
  }

  lemma InlinePends(when: Calculator, s: Core, k: nat, now: int, env: Env)
    requires k < |s.jobs| && Live(s.jobs[k]) && !s.jobs[k].paused && s.jobs[k].hasNext && FlagsOk(s.jobs[k])
    requires s.jobs[k].job.dispatch.Inline? && env.push && s.jobs[k].nextRun <= now && k !in s.pending
    ensures var t := DispatchInline(when, s, k, now, env); k in t.pending ==> k < |t.jobs| && Exhausted(when, t.jobs[k], now)
  {
    var r := s.jobs[k];
    if env.inlineExecutor {
      var s1 := Advance(when, s, k, r.nextRun, OneShot(r.job), env.push);
      assert s1.pending == s.pending;
      if env.submit {
        SettlePends(s1, k, r.nextRun, now, env);
      }
    }
  }

  /** An accepted dispatch of an inline recurring job ends in the pending list exactly when the search from its
      due time finds nothing. */
  lemma RunsOutIff(when: Calculator, s: Core, k: nat, now: int, env: Env)
    requires k < |s.jobs| && Live(s.jobs[k]) && !s.jobs[k].paused && s.jobs[k].hasNext && FlagsOk(s.jobs[k])
    requires s.jobs[k].job.dispatch.Inline? && !OneShot(s.jobs[k].job) && k !in s.pending
    requires env.inlineExecutor && env.submit && env.push && env.pend && s.jobs[k].nextRun <= now
    ensures var t := DispatchInline(when, s, k, now, env);
      (k in t.pending <==> when(s.jobs[k].job.schedule, s.jobs[k].nextRun + MINUTE).None?) &&
      (k in t.pending ==> k < |t.jobs| && Exhausted(when, t.jobs[k], now))
  {
    var r := s.jobs[k];
    InlinePends(when, s, k, now, env);
    var s1 := Advance(when, s, k, r.nextRun, false, true);
    var s2 := Finished(Submitted(s1, k, r.nextRun, now), k);
    assert s2.jobs[k] == s1.jobs[k] && s2.pending == s.pending;
  }

  lemma DispatchPends(when: Calculator, s: Core, e: DueEntry, now: int, env: Env)
    requires Inv(s) && ValidEntry(s, e) && e.epoch <= now && env.push && e.slot !in s.pending
    ensures var t := DispatchEntry(when, s, e, now, env);
      e.slot in t.pending ==> e.slot < |t.jobs| && Exhausted(when, t.jobs[e.slot], now)
  {
    var k, s1 := e.slot, PopEntry(s, e);
    assert SlotOk(s, k);
    if s.jobs[k].running > 0 && !s.jobs[k].job.overlap.AllowParallel? {
    } else if s.jobs[k].job.dispatch.Inline? {
      InlinePends(when, s1, k, now, env);
    } else {
      AsyncPends(when, s1, k, now, env);
    }
  }

  lemma AsyncPends(when: Calculator, s: Core, k: nat, now: int, env: Env)
    requires k < |s.jobs|
    ensures DispatchAsync(when, s, k, now, env, false).pending == s.pending
  {
  }

  lemma TurnPends(when: Calculator, s: Core, l: Label, t: Core, now: int)
    requires Inv(s) && Turn(when, s, l, t, now) && OnlyExhausted(when, s, now) && (l.Dispatch? ==> l.env.push)
    ensures OnlyExhausted(when, t, now)
  {
    if l.Dispatch? {
      var k := l.entry.slot;
      DispatchPends(when, s, l.entry, now, l.env);
      var u, retired := DispatchShape(when, s, l.entry, now, l.env);
      OthersPend(when, s, u, k, retired, l.env.grow, now);
    }
  }

  lemma OthersPend(when: Calculator, s: Core, u: Core, k: nat, retired: bool, grow: bool, now: int)
    requires Tame(s, u, k) && OnlyExhausted(when, s, now)
    ensures var t := Closed(u, k, retired, grow);
      forall j :: j in t.pending && j != k ==> j < |t.jobs| && Exhausted(when, t.jobs[j], now)
  {
    var t := Closed(u, k, retired, grow);
    forall j | j in t.pending && j != k
      ensures j < |t.jobs| && Exhausted(when, t.jobs[j], now)
    {
      assert t.pending == u.pending;
      assert t.jobs[j] == s.jobs[j];
    }
  }

  /** A pass that starts with nothing pending, and whose pushes succeed, leaves pending only inline recurring
      jobs whose search found nothing. */
  lemma PassPends(when: Calculator, pass: seq<Label>, states: seq<Core>, now: int)
    requires IsPass(when, pass, states, now) && Inv(states[0]) && states[0].pending == []
    requires forall i :: 0 <= i < |pass| && pass[i].Dispatch? ==> pass[i].env.push
    ensures OnlyExhausted(when, states[|pass|], now)
  {
    var n := 0;
    while n < |pass|
      invariant n <= |pass| && Inv(states[n]) && OnlyExhausted(when, states[n], now)
    {
      assert TurnAt(when, pass, states, now, n);
      TurnPends(when, states[n], pass[n], states[n + 1], now);
      TurnKeeps(when, states[n], pass[n], states[n + 1], now);
      n := n + 1;
    }
  }
}
