/**
 The scheduler core as a transition system (core/scheduler_core.cpp). A state holds the
 job table, the free list, the pending list, the id index as a map and the due heap as a
 multiset, together with a history of what was submitted. A label is one atomic piece of
 an API call, tick or completion event, with the answers of the outside world (allocator,
 executors, clock) written into it. A label that is not enabled changes nothing, so every
 sequence of labels is a run.
 */
module CoreModel {
  import opened Calendar
  import opened ScheduleFields
  import opened ScheduleCalculator
  import opened DueHeaps

  const RETRY_DELAY_SECONDS := 1

  datatype DispatchPolicy = Inline | Async

  datatype OverlapPolicy = SkipIfRunning | QueueOne | AllowParallel

  /** What addJob fixes for the lifetime of a job. */
  datatype Job = Job(
    schedule: ScheduleSpec,
    dispatch: DispatchPolicy,
    overlap: OverlapPolicy,
    executorId: nat,
    hasDedicatedTask: bool)

  /** One slot of the job table (core/job_record.h). */
  datatype JobRecord = JobRecord(
    id: nat,
    generation: nat,
    occupied: bool,
    job: Job,
    paused: bool,
    canceled: bool,
    queued: bool,
    hasNext: bool,
    pending: bool,
    refreshPending: bool,
    running: nat,
    nextRun: int,
    scheduleFrom: int)

  predicate OneShot(j: Job) { j.schedule.isOneShot || j.schedule.kind.OneShotUtc? }

  predicate Live(r: JobRecord) { r.occupied && !r.canceled }

  /** A submission in flight, and the event that reports its end. */
  datatype Invocation = Invocation(id: nat, generation: nat, slot: nat)

  /** A successful submit: which job, for which due time, at which clock reading. */
  datatype Submission = Submission(id: nat, job: Job, due: int, at: int)

  datatype Core = Core(
    jobs: seq<JobRecord>,
    free: seq<nat>,
    freeCapacity: nat,
    pending: seq<nat>,
    index: map<nat, nat>,
    heap: multiset<DueEntry>,
    nextId: nat,
    minValid: int,
    // history, not part of the program's memory:
    inflight: multiset<Invocation>, // accepted by an executor, completion not yet handled
    log: seq<Submission>,           // every successful submission, oldest first
    missed: map<nat, int>)          // ids whose last search found nothing, with the search start

  function Init(minValid: int): Core {
    Core([], [], 0, [], map[], multiset{}, 1, minValid, multiset{}, [], map[])
  }

  function ANY_SPEC(): ScheduleSpec {
    ScheduleSpec(Cron, false, 0, Any(), Any(), Any(), Any(), Any(), 0, 0, 1, 0.0, 0.5)
  }

  function EmptyRecord(generation: nat): JobRecord {
    JobRecord(0, generation, false, Job(ANY_SPEC(), Inline, SkipIfRunning, 0, false),
              false, false, false, false, false, false, 0, 0, 0)
  }

  predicate ClockValid(s: Core, now: int) { now >= s.minValid }

  /** Answers of the executors and the allocator during one dispatch or completion. */
  datatype Env = Env(
    inlineExecutor: bool, // the inline executor exists
    executor: bool,       // the job's executor exists
    submit: bool,         // it accepts the invocation
    push: bool,           // the heap can take the next occurrence
    retryPush: bool,      // the heap can take a retry
    pend: bool,           // the pending list can grow
    grow: bool)           // the free list can grow

  // ---------- Pieces of the operations; each touches one slot ----------

  function Put(s: Core, k: nat, r: JobRecord): Core
    requires k < |s.jobs|
  {
    s.(jobs := s.jobs[k := r])
  }

  function EntryOf(r: JobRecord, k: nat): DueEntry { DueEntry(r.nextRun, k, r.generation) }

  function InvocationOf(r: JobRecord, k: nat): Invocation { Invocation(r.id, r.generation, k) }

  /** computeNextForJob on one record. */
  ghost function Search(when: Calculator, r: JobRecord, from: int): JobRecord {
    if r.canceled || r.paused then r.(hasNext := false)
    else if OneShot(r.job) then r.(refreshPending := false, nextRun := r.job.schedule.onceAt, hasNext := true)
    else
      match when(r.job.schedule, from)
      case None => r.(refreshPending := false, hasNext := false)
      case Some(t) => r.(refreshPending := false, hasNext := true, nextRun := t)
  }

  ghost function MissedAfter(when: Calculator, missed: map<nat, int>, r: JobRecord, from: int): map<nat, int> {
    if r.canceled || r.paused || OneShot(r.job) then missed
    else if when(r.job.schedule, from).None? then missed[r.id := from]
    else missed - {r.id}
  }

  /** Stores r and pushes its next run; a failed push leaves the job without a next run. */
  function Arm(s: Core, k: nat, r: JobRecord, push: bool): Core
    requires k < |s.jobs|
  {
    if !r.occupied || r.canceled || !r.hasNext then Put(s, k, r)
    else if push then Put(s, k, r).(heap := s.heap + multiset{EntryOf(r, k)})
    else Put(s, k, r.(hasNext := false))
  }

  ghost function Schedule(when: Calculator, s: Core, k: nat, from: int, push: bool): Core
    requires k < |s.jobs|
  {
    Arm(s.(missed := MissedAfter(when, s.missed, s.jobs[k], from)), k, Search(when, s.jobs[k], from), push)
  }

  function Retry(s: Core, k: nat, now: int, push: bool): Core
    requires k < |s.jobs|
  {
    Arm(s, k, s.jobs[k].(hasNext := true, nextRun := now + RETRY_DELAY_SECONDS), push)
  }

  function QueueScheduling(s: Core, k: nat, from: int, pend: bool): Core
    requires k < |s.jobs|
  {
    var r := s.jobs[k];
    if !r.occupied || r.canceled || r.paused then
      Put(s, k, r.(pending := false, hasNext := false, refreshPending := false))
    else if r.pending then Put(s, k, r.(scheduleFrom := from, hasNext := false))
    else if !pend then Put(s, k, r.(scheduleFrom := from, hasNext := false))
    else Put(s, k, r.(scheduleFrom := from, hasNext := false, pending := true)).(pending := s.pending + [k])
  }

  function Cleared(r: JobRecord): JobRecord {
    r.(pending := false, hasNext := false, refreshPending := false)
  }

  /** The free list after a push; only a full list asks the allocator. */
  function FreePushed(s: Core, k: nat, grow: bool): Core {
    if |s.free| < s.freeCapacity then s.(free := s.free + [k])
    else if !grow then s
    else s.(free := s.free + [k], freeCapacity := if s.freeCapacity == 0 then 4 else s.freeCapacity * 2)
  }

  /** The record of a slot given back: blank, one generation on. */
  function Retired(r: JobRecord): JobRecord {
    r.(id := 0, generation := r.generation + 1, occupied := false, paused := false, canceled := false,
       queued := false, hasNext := false, pending := false, refreshPending := false, running := 0)
  }

  function Retire(s: Core, k: nat, grow: bool): Core
    requires k < |s.jobs|
  {
    FreePushed(Put(s, k, Retired(s.jobs[k])).(index := s.index - {s.jobs[k].id}), k, grow)
  }

  function Submitted(s: Core, k: nat, due: int, now: int): Core
    requires k < |s.jobs|
  {
    var r := s.jobs[k];
    Put(s, k, r.(running := r.running + 1))
      .(inflight := s.inflight + multiset{InvocationOf(r, k)}, log := s.log + [Submission(r.id, r.job, due, now)])
  }

  function Finished(s: Core, k: nat): Core
    requires k < |s.jobs|
  {
    var r := s.jobs[k];
    Put(s, k, r.(running := if r.running > 0 then r.running - 1 else 0))
      .(inflight := s.inflight - multiset{InvocationOf(r, k)})
  }

  // ---------- dispatchOne and handleCompletion ----------

  predicate CannotSubmit(r: JobRecord, env: Env) {
    !env.executor || (r.job.hasDedicatedTask && r.job.executorId != 1) || !env.submit
  }

  /** The record's next occurrence after the due time just dispatched. */
  ghost function Advance(when: Calculator, s: Core, k: nat, due: int, stop: bool, push: bool): Core
    requires k < |s.jobs|
  {
    if stop then Put(s, k, s.jobs[k].(hasNext := false)) else Schedule(when, s, k, due + MINUTE, push)
  }

  ghost function DispatchInline(when: Calculator, s: Core, k: nat, now: int, env: Env): Core
    requires k < |s.jobs|
  {
    var r := s.jobs[k];
    if !env.inlineExecutor then Retry(s, k, now, env.retryPush)
    else
      var s1 := Advance(when, s, k, r.nextRun, OneShot(r.job), env.push);
      if !env.submit then Retry(s1, k, now, env.retryPush)
      else Settle(Finished(Submitted(s1, k, r.nextRun, now), k), k, now, env)
  }

  ghost function DispatchAsync(when: Calculator, s: Core, k: nat, now: int, env: Env, deferred: bool): Core
    requires k < |s.jobs|
  {
    var r := s.jobs[k];
    if CannotSubmit(r, env) then Retry(s, k, now, env.retryPush)
    else Advance(when, Submitted(s, k, r.nextRun, now), k, r.nextRun, deferred || OneShot(r.job), env.push)
  }

  ghost function DispatchOne(when: Calculator, s: Core, k: nat, now: int, env: Env, deferred: bool): Core
    requires k < |s.jobs|
  {
    var r := s.jobs[k];
    if !r.occupied || r.canceled || r.paused then s
    else if r.job.dispatch.Inline? then DispatchInline(when, s, k, now, env)
    else DispatchAsync(when, s, k, now, env, deferred)
  }

  /** handleCompletion after the count went down, for a job with no queued run to dispatch. */
  function Settle(s: Core, k: nat, now: int, env: Env): Core
    requires k < |s.jobs|
  {
    var r := s.jobs[k];
    if r.canceled then (if r.running == 0 then Retire(s, k, env.grow) else s)
    else if r.running > 0 then s
    else if r.refreshPending then
      QueueScheduling(Put(s, k, r.(refreshPending := false, queued := false, hasNext := false)), k, now, env.pend)
    else if r.hasNext then s
    else if OneShot(r.job) then Retire(s, k, env.grow)
    else if r.paused then s
    else QueueScheduling(s, k, now, env.pend)
  }

  /** A queued run waits and this completion makes it due. */
  predicate Deferred(r: JobRecord) {
    !r.canceled && r.running == 0 && !r.refreshPending && r.queued
  }

  ghost function Complete(when: Calculator, s: Core, k: nat, now: int, env: Env): Core
    requires k < |s.jobs|
  {
    var s1 := Finished(s, k);
    var r := s1.jobs[k];
    if !Deferred(r) then Settle(s1, k, now, env)
    else if r.paused then s1
    else DispatchOne(when, Put(s1, k, r.(queued := false)), k, now, env, true)
  }

  // ---------- API calls ----------

  function CancelSlot(s: Core, k: nat, grow: bool): Core
    requires k < |s.jobs|
  {
    var r := Cleared(s.jobs[k]).(canceled := true, paused := false, queued := false);
    var s1 := Put(s, k, r);
    if r.running == 0 then Retire(s1, k, grow) else s1
  }

  function PauseSlot(s: Core, k: nat): Core
    requires k < |s.jobs|
  {
    Put(s, k, Cleared(s.jobs[k]).(paused := true, queued := false))
  }

  function ResumeSlot(s: Core, k: nat, now: int, pend: bool): Core
    requires k < |s.jobs|
  {
    var s1 := Put(s, k, s.jobs[k].(paused := false, queued := false));
    if s.jobs[k].running == 0 then QueueScheduling(s1, k, now, pend) else s1
  }

  predicate Refreshable(r: JobRecord) { Live(r) && !r.paused && !OneShot(r.job) }

  ghost function RefreshSlot(when: Calculator, s: Core, k: nat, now: int, push: bool): Core
    requires k < |s.jobs|
  {
    var r := s.jobs[k].(pending := false, hasNext := false, nextRun := 0);
    if r.running > 0 && !r.job.overlap.AllowParallel? then
      Put(s, k, r.(refreshPending := true, queued := false))
    else
      Schedule(when, Put(s, k, r.(refreshPending := false)), k, now, push)
  }

  /** What refreshAllSchedules makes of a record. */
  ghost function RefreshedRecord(when: Calculator, r: JobRecord, now: int, push: bool): JobRecord {
    var q := r.(pending := false, hasNext := false, nextRun := 0);
    if !Refreshable(r) then r
    else if q.running > 0 && !q.job.overlap.AllowParallel? then q.(refreshPending := true, queued := false)
    else
      match when(r.job.schedule, now)
      case None => q.(refreshPending := false)
      case Some(t) => q.(refreshPending := false, nextRun := t, hasNext := push)
  }

  /** The body of the drain loop for slot k, after its list entry is taken off. */
  ghost function Drained(when: Calculator, s: Core, k: nat, push: bool): Core
    requires k < |s.jobs|
  {
    var s1 := Put(s, k, s.jobs[k].(pending := false));
    if !s1.jobs[k].occupied || s1.jobs[k].canceled || s1.jobs[k].paused || s1.jobs[k].running > 0
    then Put(s1, k, s1.jobs[k].(hasNext := false))
    else Schedule(when, s1, k, s1.jobs[k].scheduleFrom, push)
  }

  /** One iteration of drainPendingSchedules. */
  ghost function DrainLast(when: Calculator, s: Core, push: bool): Core
    requires |s.pending| > 0 && s.pending[|s.pending| - 1] < |s.jobs|
  {
    var last := |s.pending| - 1;
    Drained(when, s.(pending := s.pending[..last]), s.pending[last], push)
  }

  predicate ValidEntry(s: Core, e: DueEntry) {
    e.slot < |s.jobs| &&
    var r := s.jobs[e.slot];
    Live(r) && r.hasNext && r.generation == e.generation && r.nextRun == e.epoch
  }

  function PopEntry(s: Core, e: DueEntry): Core { s.(heap := s.heap - multiset{e}) }

  /** The body of the dispatchDue loop once the entry for slot k is popped. */
  ghost function Processed(when: Calculator, s: Core, k: nat, now: int, env: Env): Core
    requires k < |s.jobs|
  {
    var r := s.jobs[k];
    if r.paused then Put(s, k, r.(hasNext := false))
    else if r.running > 0 && !r.job.overlap.AllowParallel? then
      Put(s, k, r.(hasNext := false, queued := r.queued || r.job.overlap.QueueOne?))
    else DispatchOne(when, s, k, now, env, false)
  }

  /** One iteration of the dispatchDue loop on the entry e. */
  ghost function DispatchEntry(when: Calculator, s: Core, e: DueEntry, now: int, env: Env): Core
    requires e.slot < |s.jobs|
  {
    Processed(when, PopEntry(s, e), e.slot, now, env)
  }

  /** Answers of the allocator during addJob. */
  datatype AddEnv = AddEnv(name: bool, table: bool, index: bool, push: bool, pend: bool)

  function FreshRecord(id: nat, generation: nat, job: Job, paused: bool): JobRecord {
    EmptyRecord(generation).(id := id, occupied := true, job := job, paused := paused)
  }

  /** The slot addJob takes: the last free one, else a new one. */
  function AddSlot(s: Core): nat {
    if |s.free| > 0 then s.free[|s.free| - 1] else |s.jobs|
  }

  function Placed(s: Core, job: Job, paused: bool): Core
    requires AddSlot(s) <= |s.jobs|
  {
    var k := AddSlot(s);
    if k < |s.jobs| then
      s.(jobs := s.jobs[k := FreshRecord(s.nextId, s.jobs[k].generation, job, paused)],
         free := if |s.free| > 0 then s.free[..|s.free| - 1] else s.free,
         index := s.index[s.nextId := k], nextId := s.nextId + 1)
    else
      s.(jobs := s.jobs + [FreshRecord(s.nextId, 1, job, paused)],
         index := s.index[s.nextId := k], nextId := s.nextId + 1)
  }

  /** What a failed addJob leaves: the id is spent and a reused slot is blank again. */
  function RolledBack(s: Core): Core {
    var k := AddSlot(s);
    if k < |s.jobs| then s.(jobs := s.jobs[k := EmptyRecord(s.jobs[k].generation)], nextId := s.nextId + 1)
    else s.(nextId := s.nextId + 1)
  }

  /** Whether addJob returns an id. */
  predicate AddSucceeds(s: Core, job: Job, paused: bool, callback: bool, now: int, env: AddEnv) {
    callback && Validate(job.schedule) && env.name && (|s.free| > 0 || env.table) && env.index &&
    (paused || ClockValid(s, now) || env.pend)
  }

  ghost function AddJob(
    when: Calculator, s: Core, job: Job, paused: bool, callback: bool, now: int, env: AddEnv): Core
    requires AddSlot(s) <= |s.jobs|
  {
    if !callback || !Validate(job.schedule) then s
    else if !env.name || (|s.free| == 0 && !env.table) then s.(nextId := s.nextId + 1)
    else if !AddSucceeds(s, job, paused, callback, now, env) then RolledBack(s)
    else
      var k := AddSlot(s);
      var s1 := Placed(s, job, paused);
      if paused then s1
      else if ClockValid(s, now) then Schedule(when, s1, k, now, env.push)
      else QueueScheduling(s1, k, now, env.pend)
  }

  // ---------- What refreshing and draining make of a record ----------

  lemma RefreshedSlot(when: Calculator, s: Core, k: nat, now: int, push: bool)
    requires k < |s.jobs| && Refreshable(s.jobs[k])
    ensures RefreshSlot(when, s, k, now, push).jobs == s.jobs[k := RefreshedRecord(when, s.jobs[k], now, push)]
  {
    var t := RefreshSlot(when, s, k, now, push);
    assert t.jobs[k] == RefreshedRecord(when, s.jobs[k], now, push);
  }

  /** What a drain with successful pushes makes of the record of a listed slot. */
  ghost function DrainedRecord(when: Calculator, r: JobRecord): JobRecord {
    var q := r.(pending := false);
    if !q.occupied || q.canceled || q.paused || q.running > 0 then q.(hasNext := false)
    else Search(when, q, q.scheduleFrom)
  }

  lemma DrainLastJobs(when: Calculator, s: Core)
    requires |s.pending| > 0 && s.pending[|s.pending| - 1] < |s.jobs|
    ensures var last := |s.pending| - 1;
      var k, t := s.pending[last], DrainLast(when, s, true);
      t.jobs == s.jobs[k := DrainedRecord(when, s.jobs[k])] && t.pending == s.pending[..last] && t.minValid == s.minValid
  {
    var k, t := s.pending[|s.pending| - 1], DrainLast(when, s, true);
    assert t.jobs[k] == DrainedRecord(when, s.jobs[k]);
  }

  // ---------- Runs ----------

  datatype Label =
    | Add(job: Job, startPaused: bool, callback: bool, now: int, add: AddEnv)
    | Cancel(slot: nat, grow: bool)
    | Pause(slot: nat)
    | Resume(slot: nat, now: int, pend: bool)
    | Refresh(slot: nat, now: int, push: bool)
    | SetMinValid(minimum: int)
    | Drain(now: int, push: bool)
    | Prune(entry: DueEntry)
    | Dispatch(entry: DueEntry, now: int, env: Env)
    | Finish(event: Invocation, now: int, env: Env)

  ghost predicate Enabled(s: Core, l: Label) {
    match l
    case Add(_, _, _, _, _) => AddSlot(s) <= |s.jobs|
    case Cancel(k, _) => k < |s.jobs| && Live(s.jobs[k])
    case Pause(k) => k < |s.jobs| && Live(s.jobs[k])
    case Resume(k, _, _) => k < |s.jobs| && Live(s.jobs[k])
    case Refresh(k, _, _) => k < |s.jobs| && Refreshable(s.jobs[k])
    case SetMinValid(_) => true
    case Drain(now, _) => ClockValid(s, now) && |s.pending| > 0 && s.pending[|s.pending| - 1] < |s.jobs|
    case Prune(e) => Minimal(e, s.heap) && !ValidEntry(s, e)
    case Dispatch(e, now, _) => ClockValid(s, now) && Minimal(e, s.heap) && ValidEntry(s, e) && e.epoch <= now
    case Finish(v, _, _) =>
      v in s.inflight && v.slot < |s.jobs| && s.jobs[v.slot].occupied && InvocationOf(s.jobs[v.slot], v.slot) == v
  }

  ghost function Step(when: Calculator, s: Core, l: Label): Core {
    if !Enabled(s, l) then s
    else
      match l
      case Add(job, paused, callback, now, env) => AddJob(when, s, job, paused, callback, now, env)
      case Cancel(k, grow) => CancelSlot(s, k, grow)
      case Pause(k) => PauseSlot(s, k)
      case Resume(k, now, pend) => ResumeSlot(s, k, now, pend)
      case Refresh(k, now, push) => RefreshSlot(when, s, k, now, push)
      case SetMinValid(m) => s.(minValid := m)
      case Drain(_, push) => DrainLast(when, s, push)
      case Prune(e) => PopEntry(s, e)
      case Dispatch(e, now, env) => DispatchEntry(when, s, e, now, env)
      case Finish(v, now, env) => Complete(when, s, v.slot, now, env)
  }

  ghost function Run(when: Calculator, s: Core, trace: seq<Label>): Core {
    if trace == [] then s else Step(when, Run(when, s, trace[..|trace| - 1]), trace[|trace| - 1])
  }

  // ---------- The labels a loop takes ----------

  /** cancelAll over the first n slots. */
  function CancelLabels(jobs: seq<JobRecord>, n: nat, grow: nat -> bool): seq<Label>
    requires n <= |jobs|
  {
    if n == 0 then []
    else CancelLabels(jobs, n - 1, grow) + if Live(jobs[n - 1]) then [Cancel(n - 1, grow(n - 1))] else []
  }

  /** refreshAllSchedules over the first n slots. */
  function RefreshLabels(jobs: seq<JobRecord>, n: nat, now: int, grow: nat -> bool): seq<Label>
    requires n <= |jobs|
  {
    if n == 0 then []
    else
      RefreshLabels(jobs, n - 1, now, grow) +
      if Refreshable(jobs[n - 1]) then [Refresh(n - 1, now, grow(n - 1))] else []
  }

  /** n turns of the drain loop. */
  function DrainLabels(now: int, env: nat -> Env, n: nat): seq<Label> {
    if n == 0 then [] else DrainLabels(now, env, n - 1) + [Drain(now, env(n - 1).push)]
  }

  // ---------- Steps and runs ----------

  lemma RunAppend(when: Calculator, s: Core, trace: seq<Label>, l: Label)
    ensures Run(when, s, trace + [l]) == Step(when, Run(when, s, trace), l)
  {
    assert (trace + [l])[..|trace|] == trace;
  }

  /** Whatever step and run are: states that follow one another by steps are where the run leads. */
  lemma {:induction false} ChainEnd<S(!new), L(!new)>(
    step: (S, L) -> S, run: seq<L> -> S, states: seq<S>, trace: seq<L>, n: nat)
    requires n <= |trace| < |states| && run([]) == states[0]
    requires forall t: seq<L>, l: L :: run(t + [l]) == step(run(t), l)
    requires forall i :: 0 <= i < |trace| ==> states[i + 1] == step(states[i], trace[i])
    ensures states[n] == run(trace[..n])
  {
    if n > 0 {
      ChainEnd(step, run, states, trace, n - 1);
      assert trace[..n] == trace[..n - 1] + [trace[n - 1]];
    }
  }

  lemma {:induction false} ChainConcat<S(!new), L(!new)>(
    step: (S, L) -> S, run: (S, seq<L>) -> S, s: S, t: seq<L>, u: seq<L>)
    requires forall r: S :: run(r, []) == r
    requires forall r: S, v: seq<L>, l: L :: run(r, v + [l]) == step(run(r, v), l)
    ensures run(s, t + u) == run(run(s, t), u)
    decreases |u|
  {
    if u == [] {
      assert t + u == t;
    } else {
      var last := |u| - 1;
      ChainConcat(step, run, s, t, u[..last]);
      assert u == u[..last] + [u[last]];
      assert t + u == t + u[..last] + [u[last]];
    }
  }

  lemma RunConcat(when: Calculator, s: Core, t: seq<Label>, u: seq<Label>)
    ensures Run(when, s, t + u) == Run(when, Run(when, s, t), u)
  {
    var run: (Core, seq<Label>) -> Core := (r, v) => Run(when, r, v);
    var step: (Core, Label) -> Core := (r, l) => Step(when, r, l);
    forall r: Core, v: seq<Label>, l: Label
      ensures run(r, v + [l]) == step(run(r, v), l)
    {
      RunAppend(when, r, v, l);
    }
    ChainConcat(step, run, s, t, u);
  }
}
