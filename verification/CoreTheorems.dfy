/** What every run of the scheduler core guarantees. */
module CoreTheorems {
  import opened Wrappers
  import opened ScheduleCalculator
  import opened DueHeaps
  import opened CoreModel
  import opened CoreInvariant
  import opened CoreSteps
  import opened CoreHistory

  // ---------- The heap agrees with a scan of the table ----------

  /** r is the earliest next run of any live job, by a plain scan; None when no job has one. */
  ghost predicate EarliestRun(s: Core, r: Option<int>) {
    match r
    case None => forall k :: 0 <= k < |s.jobs| ==> !(Live(s.jobs[k]) && s.jobs[k].hasNext)
    case Some(t) =>
      (exists k :: 0 <= k < |s.jobs| && Live(s.jobs[k]) && s.jobs[k].hasNext && s.jobs[k].nextRun == t) &&
      (forall k :: 0 <= k < |s.jobs| && Live(s.jobs[k]) && s.jobs[k].hasNext ==> t <= s.jobs[k].nextRun)
  }

  lemma HeapAgreesWithScan(s: Core, e: DueEntry)
    requires Inv(s) && Minimal(e, s.heap) && ValidEntry(s, e)
    ensures EarliestRun(s, Some(e.epoch))
  {
    forall k | 0 <= k < |s.jobs| && s.jobs[k].hasNext
      ensures e.epoch <= s.jobs[k].nextRun
    {
      assert SlotOk(s, k);
      assert EntryOf(s.jobs[k], k) in s.heap;
    }
  }

  lemma EmptyHeapHasNoRun(s: Core)
    requires Inv(s) && s.heap == multiset{}
    ensures EarliestRun(s, None)
  {
    forall k | 0 <= k < |s.jobs|
      ensures !s.jobs[k].hasNext
    {
      assert SlotOk(s, k);
    }
  }

  /** In every reachable state a valid top of the lazily pruned heap, stale and duplicate entries
      included, is the earliest next run of the table; an empty heap means there is none. */
  lemma NextDueIsExact(when: Calculator, minValid: int, trace: seq<Label>)
    ensures var s := Run(when, Init(minValid), trace);
      (s.heap == multiset{} ==> EarliestRun(s, None)) &&
      (forall e :: Minimal(e, s.heap) && ValidEntry(s, e) ==> EarliestRun(s, Some(e.epoch)))
  {
    var s := Run(when, Init(minValid), trace);
    ReachableInv(when, minValid, trace);
    if s.heap == multiset{} {
      EmptyHeapHasNoRun(s);
    }
    forall e | Minimal(e, s.heap) && ValidEntry(s, e)
      ensures EarliestRun(s, Some(e.epoch))
    {
      HeapAgreesWithScan(s, e);
    }
  }

  // ---------- Conservation and overlap ----------

  /** Counts match what is in flight, and the overlap policy is never broken. */
  lemma ConservationAndOverlap(when: Calculator, minValid: int, trace: seq<Label>, k: nat)
    requires k < |Run(when, Init(minValid), trace).jobs|
    ensures var s := Run(when, Init(minValid), trace);
      var r := s.jobs[k];
      SumRunning(s.jobs) == |s.inflight| &&
      r.running == s.inflight[InvocationOf(r, k)] &&
      (!r.job.overlap.AllowParallel? ==> r.running <= 1) &&
      (r.queued ==> r.job.overlap.QueueOne? && r.running == 1 && Live(r) && !r.paused && !r.hasNext)
  {
    var s := Run(when, Init(minValid), trace);
    ReachableInv(when, minValid, trace);
    assert SlotOk(s, k);
    if !s.jobs[k].occupied {
      assert InvocationOf(s.jobs[k], k) !in s.inflight;
    }
  }

  // ---------- One-shot jobs ----------

  /** A one-shot job is submitted at most once in any run, and never before its time. */
  lemma OneShotOnceAndNotEarly(when: Calculator, minValid: int, trace: seq<Label>, i: nat)
    requires i < |Run(when, Init(minValid), trace).log|
    requires OneShot(Run(when, Init(minValid), trace).log[i].job)
    ensures var log := Run(when, Init(minValid), trace).log;
      log[i].at >= log[i].job.schedule.onceAt &&
      forall j :: 0 <= j < |log| && j != i ==> log[j].id != log[i].id
  {
    ReachableInv(when, minValid, trace);
    var s := Run(when, Init(minValid), trace);
    LoggedJobs(when, Init(minValid), trace);
    assert forall j :: 0 <= j < i && s.log[j].id == s.log[i].id ==> s.log[j].job == s.log[i].job;
  }

  /** Submissions under one id are submissions of one job. */
  ghost predicate OneJobPerId(log: seq<Submission>) {
    forall i, j :: 0 <= i < j < |log| && log[i].id == log[j].id ==> log[i].job == log[j].job
  }

  lemma {:induction false} LoggedJobs(when: Calculator, s: Core, trace: seq<Label>)
    requires Inv(s) && OneJobPerId(s.log)
    ensures OneJobPerId(Run(when, s, trace).log)
    decreases |trace|
  {
    if trace != [] {
      var t := Run(when, s, trace[..|trace| - 1]);
      LoggedJobs(when, s, trace[..|trace| - 1]);
      RunKeeps(when, s, trace[..|trace| - 1]);
      StepLogsOwnJob(when, t, trace[|trace| - 1]);
    }
  }

  lemma StepLogsOwnJob(when: Calculator, s: Core, l: Label)
    requires Inv(s) && OneJobPerId(s.log)
    ensures OneJobPerId(Step(when, s, l).log)
  {
    var t := Step(when, s, l);
    StepEvolves(when, s, l);
    forall i, j | 0 <= i < j < |t.log| && t.log[i].id == t.log[j].id
      ensures t.log[i].job == t.log[j].job
    {
      if j >= |s.log| {
        var k :| 0 <= k < |s.jobs| && Live(s.jobs[k]) && s.jobs[k].id == t.log[j].id && s.jobs[k].job == t.log[j].job;
        assert SlotOk(s, k);
        if i >= |s.log| {
          var m :| 0 <= m < |s.jobs| && Live(s.jobs[m]) && s.jobs[m].id == t.log[i].id && s.jobs[m].job == t.log[i].job;
          assert s.index[s.jobs[k].id] == k && s.index[s.jobs[m].id] == m;
        }
      }
    }
  }

  // ---------- Cancellation ----------

  /** No live job carries id, and none ever will. */
  ghost predicate Gone(s: Core, id: nat) {
    id < s.nextId && forall k :: 0 <= k < |s.jobs| && s.jobs[k].id == id ==> !Live(s.jobs[k])
  }

  lemma GoneStays(s: Core, t: Core, id: nat)
    requires Inv(s) && Evolves(s, t) && Gone(s, id) && id > 0
    ensures Gone(t, id)
    ensures forall i :: |s.log| <= i < |t.log| ==> t.log[i].id != id
  {
    forall k | 0 <= k < |t.jobs| && t.jobs[k].id == id
      ensures !Live(t.jobs[k])
    {
      if k < |s.jobs| {
        assert OccupantOk(s.jobs[k], t.jobs[k], s.nextId);
      }
    }
  }

  lemma {:induction false} GoneForever(when: Calculator, s: Core, id: nat, trace: seq<Label>)
    requires Inv(s) && Gone(s, id) && id > 0
    ensures Gone(Run(when, s, trace), id) && |s.log| <= |Run(when, s, trace).log|
    ensures forall i :: |s.log| <= i < |Run(when, s, trace).log| ==> Run(when, s, trace).log[i].id != id
    decreases |trace|
  {
    if trace != [] {
      var before := trace[..|trace| - 1];
      GoneForever(when, s, id, before);
      RunKeeps(when, s, before);
      StepEvolves(when, Run(when, s, before), trace[|trace| - 1]);
      GoneStays(Run(when, s, before), Run(when, s, trace), id);
    }
  }

  /** The same for the stretch of a run that an object has appended to its trace. */
  lemma GoneThroughRun(when: Calculator, minValid: int, base: seq<Label>, steps: seq<Label>, id: nat)
    requires Gone(Run(when, Init(minValid), base), id) && id > 0
    ensures var s, t := Run(when, Init(minValid), base), Run(when, Init(minValid), base + steps);
      Gone(t, id) && |s.log| <= |t.log| && forall i :: |s.log| <= i < |t.log| ==> t.log[i].id != id
  {
    ReachableInv(when, minValid, base);
    RunConcat(when, Init(minValid), base, steps);
    GoneForever(when, Run(when, Init(minValid), base), id, steps);
  }

  lemma CanceledIsGone(s: Core, k: nat, grow: bool)
    requires Inv(s) && k < |s.jobs| && Live(s.jobs[k])
    ensures Gone(CancelSlot(s, k, grow), s.jobs[k].id) && CancelSlot(s, k, grow).log == s.log
  {
    var t := CancelSlot(s, k, grow);
    forall j | 0 <= j < |t.jobs| && Live(t.jobs[j])
      ensures t.jobs[j].id != s.jobs[k].id
    {
      assert j != k && t.jobs[j] == s.jobs[j];
      assert s.index[s.jobs[j].id] == j && s.index[s.jobs[k].id] == k;
    }
  }

  /** After a successful cancel no continuation of the run ever submits that id again. */
  lemma CancelIsFinal(when: Calculator, minValid: int, before: seq<Label>, k: nat, grow: bool, after: seq<Label>)
    requires Enabled(Run(when, Init(minValid), before), Cancel(k, grow))
    ensures var s := Run(when, Init(minValid), before);
      var t := Run(when, Step(when, s, Cancel(k, grow)), after);
      |s.log| <= |t.log| &&
      forall i :: |s.log| <= i < |t.log| ==> t.log[i].id != s.jobs[k].id
  {
    var s := Run(when, Init(minValid), before);
    ReachableInv(when, minValid, before);
    assert SlotOk(s, k);
    CanceledIsGone(s, k, grow);
    StepKeeps(when, s, Cancel(k, grow));
    GoneForever(when, Step(when, s, Cancel(k, grow)), s.jobs[k].id, after);
  }

  /** Every job still in the table is canceled. */
  ghost predicate AllCanceled(s: Core) {
    forall k :: 0 <= k < |s.jobs| ==> !Live(s.jobs[k])
  }

  lemma AllCanceledStays(when: Calculator, s: Core, l: Label)
    requires Inv(s) && AllCanceled(s) && !l.Add?
    ensures AllCanceled(Step(when, s, l))
  {
    var t := Step(when, s, l);
    StepEvolves(when, s, l);
    forall k | 0 <= k < |t.jobs|
      ensures !Live(t.jobs[k])
    {
      StepKeeps(when, s, l);
      assert SlotOk(t, k);
      assert k < |s.jobs| ==> OccupantOk(s.jobs[k], t.jobs[k], s.nextId);
    }
  }

  /** With nothing left in flight, a table of canceled jobs is an empty table. */
  lemma CanceledAndIdleIsEmpty(s: Core)
    requires Inv(s) && AllCanceled(s) && s.inflight == multiset{}
    ensures forall k :: 0 <= k < |s.jobs| ==> !s.jobs[k].occupied
    ensures s.index == map[] && SumRunning(s.jobs) == 0
  {
    forall k | 0 <= k < |s.jobs|
      ensures !s.jobs[k].occupied
    {
      assert SlotOk(s, k);
    }
    assert forall id :: id !in s.index;
  }

  lemma {:induction false} RunKeepsCanceled(when: Calculator, s: Core, trace: seq<Label>)
    requires Inv(s) && AllCanceled(s) && forall i :: 0 <= i < |trace| ==> !trace[i].Add?
    ensures Inv(Run(when, s, trace)) && AllCanceled(Run(when, s, trace))
    decreases |trace|
  {
    if trace != [] {
      var last := |trace| - 1;
      RunKeepsCanceled(when, s, trace[..last]);
      AllCanceledStays(when, Run(when, s, trace[..last]), trace[last]);
      StepKeeps(when, Run(when, s, trace[..last]), trace[last]);
    }
  }

  /** Once every job is canceled, any run without a further addJob, whatever else it holds, that has nothing
      left in flight has emptied the table, the index and the counts. */
  lemma CancelAllDrains(when: Calculator, s: Core, trace: seq<Label>)
    requires Inv(s) && AllCanceled(s) && forall i :: 0 <= i < |trace| ==> !trace[i].Add?
    requires Run(when, s, trace).inflight == multiset{}
    ensures var t := Run(when, s, trace);
      t.index == map[] && SumRunning(t.jobs) == 0 && forall k :: 0 <= k < |t.jobs| ==> !t.jobs[k].occupied
  {
    RunKeepsCanceled(when, s, trace);
    CanceledAndIdleIsEmpty(Run(when, s, trace));
  }

  /** The steps that deliver the given completion events, in order, each at its own time and with its own answers. */
  function Completions(events: seq<Invocation>, now: nat -> int, env: nat -> Env): seq<Label> {
    if events == [] then []
    else
      var last := |events| - 1;
      Completions(events[..last], now, env) + [Finish(events[last], now(last), env(last))]
  }

  lemma {:induction false} CompletionsAddNothing(events: seq<Invocation>, now: nat -> int, env: nat -> Env)
    ensures |Completions(events, now, env)| == |events|
    ensures forall i :: 0 <= i < |events| ==> Completions(events, now, env)[i].Finish?
    decreases |events|
  {
    if events != [] {
      CompletionsAddNothing(events[..|events| - 1], now, env);
    }
  }

  lemma CompletionDelivered(when: Calculator, s: Core, v: Invocation, now: int, env: Env)
    requires Inv(s) && AllCanceled(s) && v in s.inflight
    ensures Step(when, s, Finish(v, now, env)).inflight == s.inflight - multiset{v}
  {
    assert SlotOk(s, v.slot);
  }

  lemma {:induction false} DeliveredSoFar(
    when: Calculator, s: Core, events: seq<Invocation>, now: nat -> int, env: nat -> Env)
    requires Inv(s) && AllCanceled(s) && multiset(events) <= s.inflight
    ensures Run(when, s, Completions(events, now, env)).inflight == s.inflight - multiset(events)
    decreases |events|
  {
    if events != [] {
      var last := |events| - 1;
      var before := Completions(events[..last], now, env);
      assert events == events[..last] + [events[last]];
      DeliveredSoFar(when, s, events[..last], now, env);
      CompletionsAddNothing(events[..last], now, env);
      RunKeepsCanceled(when, s, before);
      CompletionDelivered(when, Run(when, s, before), events[last], now(last), env(last));
      RunAppend(when, s, before, Finish(events[last], now(last), env(last)));
    }
  }

  /** Delivering the in-flight completions, in any order and at any times, is such a run. */
  lemma DeliveryDrains(when: Calculator, s: Core, events: seq<Invocation>, now: nat -> int, env: nat -> Env)
    requires Inv(s) && AllCanceled(s) && multiset(events) == s.inflight
    ensures var t := Run(when, s, Completions(events, now, env));
      t.inflight == multiset{} && t.index == map[] && SumRunning(t.jobs) == 0 &&
      forall k :: 0 <= k < |t.jobs| ==> !t.jobs[k].occupied
  {
    DeliveredSoFar(when, s, events, now, env);
    CompletionsAddNothing(events, now, env);
    CancelAllDrains(when, s, Completions(events, now, env));
  }

  // ---------- Slot reuse ----------

  /** Later states of slot k: the same job at the same generation, or a higher generation. */
  ghost predicate SameOrNewer(r: JobRecord, q: JobRecord) {
    q.generation > r.generation ||
    (q.generation == r.generation && (r.occupied ==> q.occupied && q.id == r.id && q.job == r.job))
  }

  lemma {:induction false} SlotHistory(when: Calculator, s: Core, trace: seq<Label>, k: nat)
    requires Inv(s) && k < |s.jobs|
    ensures k < |Run(when, s, trace).jobs| && SameOrNewer(s.jobs[k], Run(when, s, trace).jobs[k])
    decreases |trace|
  {
    if trace != [] {
      var before := trace[..|trace| - 1];
      SlotHistory(when, s, before, k);
      RunKeeps(when, s, before);
      StepEvolves(when, Run(when, s, before), trace[|trace| - 1]);
      assert OccupantOk(Run(when, s, before).jobs[k], Run(when, s, trace).jobs[k], Run(when, s, before).nextId);
    }
  }

  /** A heap entry made for one job never becomes valid for another, however often the slot is reused. */
  lemma StaleEntryNeverDispatches(when: Calculator, minValid: int, before: seq<Label>, after: seq<Label>, e: DueEntry)
    requires var s := Run(when, Init(minValid), before);
      e.slot < |s.jobs| && s.jobs[e.slot].occupied && s.jobs[e.slot].generation == e.generation
    requires ValidEntry(Run(when, Run(when, Init(minValid), before), after), e)
    ensures Run(when, Run(when, Init(minValid), before), after).jobs[e.slot].id ==
      Run(when, Init(minValid), before).jobs[e.slot].id
  {
    ReachableInv(when, minValid, before);
    SlotHistory(when, Run(when, Init(minValid), before), after, e.slot);
  }

  /** Entries never run ahead of their slot, and lag strictly behind a free one. */
  lemma EntriesLagFreeSlots(when: Calculator, minValid: int, trace: seq<Label>, e: DueEntry)
    requires e in Run(when, Init(minValid), trace).heap
    ensures var s := Run(when, Init(minValid), trace);
      e.slot < |s.jobs| && e.generation <= s.jobs[e.slot].generation &&
      (!s.jobs[e.slot].occupied ==> e.generation < s.jobs[e.slot].generation)
  {
    ReachableInv(when, minValid, trace);
  }

  /** A genuine completion always still matches its record, so handleEvent never drops it. */
  lemma CompletionsStillMatch(when: Calculator, minValid: int, trace: seq<Label>, v: Invocation, now: int, env: Env)
    requires v in Run(when, Init(minValid), trace).inflight
    ensures Enabled(Run(when, Init(minValid), trace), Finish(v, now, env))
  {
    ReachableInv(when, minValid, trace);
  }

  // ---------- Index, table and free list ----------

  /** The index holds exactly the occupied slots; free-list entries are distinct unoccupied slots. */
  lemma ContainersAgree(when: Calculator, minValid: int, trace: seq<Label>, id: nat, k: nat)
    ensures var s := Run(when, Init(minValid), trace);
      ((id in s.index && s.index[id] == k) <==> (k < |s.jobs| && s.jobs[k].occupied && s.jobs[k].id == id)) &&
      (forall i :: 0 <= i < |s.free| ==> s.free[i] < |s.jobs| && !s.jobs[s.free[i]].occupied) &&
      (forall i, j :: 0 <= i < j < |s.free| ==> s.free[i] != s.free[j])
  {
    ReachableInv(when, minValid, trace);
  }

  /** Nothing a caller can observe of the live jobs differs between s and t. */
  ghost predicate SameLiveState(s: Core, t: Core) {
    |t.jobs| == |s.jobs| && t.free == s.free && t.freeCapacity == s.freeCapacity && t.pending == s.pending &&
    t.index == s.index && t.heap == s.heap && t.inflight == s.inflight && t.log == s.log && t.missed == s.missed &&
    (forall k :: 0 <= k < |s.jobs| && s.jobs[k].occupied ==> t.jobs[k] == s.jobs[k]) &&
    (forall k :: 0 <= k < |s.jobs| && !s.jobs[k].occupied ==>
      !t.jobs[k].occupied && t.jobs[k].generation == s.jobs[k].generation)
  }

  lemma FailedAddKeepsAll(
    when: Calculator, s: Core, job: Job, paused: bool, callback: bool, now: int, env: AddEnv)
    requires Inv(s) && !AddSucceeds(s, job, paused, callback, now, env)
    ensures SameLiveState(s, Step(when, s, Add(job, paused, callback, now, env)))
  {
  }

  /** An addJob that fails, at whichever allocation, changes no live job and no container. */
  lemma FailedAddChangesNothing(
    when: Calculator, minValid: int, trace: seq<Label>, job: Job, paused: bool, callback: bool, now: int, env: AddEnv)
    requires !AddSucceeds(Run(when, Init(minValid), trace), job, paused, callback, now, env)
    ensures var s := Run(when, Init(minValid), trace);
      SameLiveState(s, Step(when, s, Add(job, paused, callback, now, env)))
  {
    ReachableInv(when, minValid, trace);
    FailedAddKeepsAll(when, Run(when, Init(minValid), trace), job, paused, callback, now, env);
  }
}
