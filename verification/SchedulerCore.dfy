/**
 The scheduler core as the source writes it: a class that updates its job table, lists,
 index and heap in place (core/scheduler_core.cpp). Each method is proved to move the
 abstract state exactly as CoreModel says, so every object of this class is at all times
 in a state some run of the model reaches, and the theorems about runs apply to it.
 */
module SchedulerCores {
  import opened Wrappers
  import opened ScheduleCalculator
  import opened Calendar
  import opened DueHeaps
  import IdIndexes
  import opened CoreModel
  import opened CoreInvariant
  import opened CoreSteps
  import opened CoreHistory
  import opened CoreTheorems
  import opened DispatchPass

  /** Slot k holds the live job id. */
  predicate LiveAt(jobs: seq<JobRecord>, k: int, id: nat) {
    0 <= k < |jobs| && Live(jobs[k]) && jobs[k].id == id
  }

  datatype AddResult = Added(id: nat) | InvalidSchedule | NoMemory

  class SchedulerCore {
    const when: Calculator // ScheduleCalculator::computeNext over the date library
    const index: IdIndexes.SchedulerIdIndex
    const heap: DueHeap
    var jobs: seq<JobRecord>
    var freeSlots: seq<nat>
    var freeCapacity: nat
    var pendingSchedules: seq<nat>
    var nextId: nat
    var minValid: int

    ghost const start: int
    ghost const run: seq<Label> -> Core // the model's Run from Init(start)
    ghost var inflight: multiset<Invocation>
    ghost var log: seq<Submission>
    ghost var missed: map<nat, int>
    ghost var trace: seq<Label>

    ghost function View(): Core
      reads this, heap, index
    {
      Core(jobs, freeSlots, freeCapacity, pendingSchedules, index.Contents, multiset(heap.entries), nextId, minValid,
           inflight, log, missed)
    }

    /** The containers are well formed. */
    ghost predicate Wired()
      reads this, heap, index, index.entries
    {
      heap.Valid() && index.Valid() && NeverEarly(when)
    }

    /** The value `run` is the model's Run; it is consulted only where Run itself is spoken of. */
    ghost predicate RunsModel() {
      forall t {:trigger Run(when, Init(start), t)} :: run(t) == Run(when, Init(start), t)
    }

    /** The object is in the state that the run `trace` of the model reaches. */
    ghost predicate Valid()
      reads this, heap, index, index.entries
    {
      Wired() && RunsModel() && View() == run(trace)
    }

    /** Every theorem about runs holds of the object: its state is reached by its trace. */
    lemma Reached()
      requires Valid()
      ensures View() == Run(when, Init(start), trace) && Inv(View())
    {
      ReachableInv(when, start, trace);
    }

    lemma IndexIsExact()
      requires Valid()
      ensures IndexOk(View())
    {
      Reached();
    }

    /** What handling an event needs: less than Valid(), so that it is also defined after an event that no
        invocation in flight accounts for. */
    ghost predicate Usable()
      reads this, heap, index, index.entries
    {
      Wired() && RunsModel() && OnlyAsyncQueued(jobs)
    }

    lemma ValidIsUsable()
      requires Valid()
      ensures Usable()
    {
      Reached();
      forall k | 0 <= k < |jobs|
        ensures jobs[k].job.dispatch.Inline? ==> !jobs[k].queued
      {
        assert SlotOk(View(), k);
      }
    }

    lemma QueuedIsAsync(k: nat)
      requires Valid() && k < |jobs|
      ensures jobs[k].job.dispatch.Inline? ==> !jobs[k].queued
    {
      Reached();
      assert SlotOk(View(), k);
    }

    lemma PendingInRange()
      requires Valid()
      ensures PendingOk(View())
    {
      Reached();
    }

    lemma RoomToSeat()
      requires Valid()
      ensures CanSeat(View()) && FreeOk(View()) && nextId > 0 && nextId !in index.Contents
    {
      Reached();
    }

    lemma Sound()
      requires Valid()
      ensures Inv(View())
    {
      Reached();
    }

    lemma CancelEndsGone(k: nat, grow: bool)
      requires Valid() && k < |jobs| && Live(jobs[k])
      ensures Gone(CancelSlot(View(), k, grow), jobs[k].id)
    {
      Reached();
      CanceledIsGone(View(), k, grow);
    }

    lemma CountIsInflight()
      requires Valid()
      ensures SumRunning(jobs) == |inflight|
    {
      Reached();
    }

    lemma NothingDue(now: int)
      requires Valid() && forall e :: e in View().heap ==> e.epoch > now
      ensures AllLater(View(), now)
    {
      Reached();
      forall k | 0 <= k < |jobs| && jobs[k].hasNext
        ensures jobs[k].nextRun > now
      {
        NothingDueLeft(View(), now, k);
      }
    }

    lemma ExhaustedOnly(base: seq<Label>, pass: seq<Label>, states: seq<Core>, now: int, env: nat -> Env)
      requires InPass(base, pass, states, now) && states[0].pending == [] && AnswersFrom(pass, env)
      ensures (forall i :: env(i).push) ==> OnlyExhausted(when, View(), now)
    {
      if forall i :: env(i).push {
        ReachableInv(when, start, base);
        assert states[0] == Run(when, Init(start), base);
        forall i | 0 <= i < |pass| && pass[i].Dispatch?
          ensures pass[i].env.push
        {
          assert AnswerFrom(pass[i], env);
        }
        PassPends(when, pass, states, now);
      }
    }

    /** A valid top entry is the earliest next run of the table; an empty heap means there is none. */
    lemma TopIsEarliest()
      requires Valid() && (heap.entries == [] || ValidEntry(View(), heap.entries[0]))
      ensures EarliestRun(View(), if heap.entries == [] then None else Some(heap.entries[0].epoch))
    {
      Reached();
      NextDueIsExact(when, start, trace);
      if heap.entries != [] {
        RootIsMinimal(heap.entries);
      }
    }

    /** What is gone at some point of the trace is gone for good, and was not submitted since. */
    lemma GoneSince(base: seq<Label>, steps: seq<Label>, id: nat)
      requires Valid() && trace == base + steps && Gone(run(base), id) && id > 0
      ensures Gone(View(), id) && |run(base).log| <= |log|
      ensures forall i :: |run(base).log| <= i < |log| ==> log[i].id != id
    {
      GoneThroughRun(when, start, base, steps, id);
    }

    constructor (when: Calculator, hash: nat -> nat, minValid: int)
      requires NeverEarly(when)
      ensures Valid() && trace == [] && this.when == when && this.minValid == minValid
      ensures fresh(heap) && fresh(index) && fresh(index.entries)
    {
      this.when := when;
      this.minValid := minValid;
      start := minValid;
      run := t => Run(when, Init(minValid), t);
      index := new IdIndexes.SchedulerIdIndex(hash);
      heap := new DueHeap();
      jobs, freeSlots, freeCapacity, pendingSchedules, nextId := [], [], 0, [], 1;
      inflight, log, missed, trace := multiset{}, [], map[], [];
    }

    // ---------- Private pieces ----------

    method ComputeNextForJob(record: JobRecord, from: int) returns (updated: JobRecord)
      ensures updated == Search(when, record, from)
    {
      updated := record;
      if record.canceled || record.paused {
        updated := updated.(hasNext := false);
        return;
      }
      updated := updated.(refreshPending := false);
      if OneShot(record.job) {
        updated := updated.(nextRun := record.job.schedule.onceAt, hasNext := true);
        return;
      }
      var next := when(record.job.schedule, from);
      if next.Some? {
        updated := updated.(nextRun := next.value);
      }
      updated := updated.(hasNext := next.Some?);
    }

    /** Pushes the next run of slot k; on a failed push the job is left without one. */
    method ArmSlot(k: nat, grow: bool)
      requires Wired() && k < |jobs|
      modifies this`jobs, heap
      ensures Wired() && View() == Arm(old(View()), k, old(jobs)[k], grow)
    {
      var record := jobs[k];
      if record.occupied && !record.canceled && record.hasNext {
        var pushed := heap.Push(EntryOf(record, k), grow);
        if !pushed {
          jobs := jobs[k := record.(hasNext := false)];
        }
      }
      assert old(jobs)[k := record] == old(jobs);
    }

    method ScheduleSlot(k: nat, from: int, grow: bool)
      requires Wired() && k < |jobs|
      modifies this`jobs, this`missed, heap
      ensures Wired() && View() == Schedule(when, old(View()), k, from, grow)
    {
      missed := MissedAfter(when, missed, jobs[k], from);
      var record := ComputeNextForJob(jobs[k], from);
      jobs := jobs[k := record];
      ghost var s := View();
      ArmSlot(k, grow);
      ArmAfterPut(old(View()).(missed := s.missed), k, record, grow);
    }

    method RetrySlot(k: nat, now: int, grow: bool)
      requires Wired() && k < |jobs|
      modifies this`jobs, heap
      ensures Wired() && View() == Retry(old(View()), k, now, grow)
    {
      var record := jobs[k].(hasNext := true, nextRun := now + RETRY_DELAY_SECONDS);
      jobs := jobs[k := record];
      ArmSlot(k, grow);
      ArmAfterPut(old(View()), k, record, grow);
    }

    method QueueSlot(k: nat, from: int, grow: bool) returns (ok: bool)
      requires Wired() && k < |jobs|
      modifies this`jobs, this`pendingSchedules
      ensures Wired() && View() == QueueScheduling(old(View()), k, from, grow)
      ensures ok <==> grow || old(jobs)[k].pending || !Live(old(jobs)[k]) || old(jobs)[k].paused
    {
      var record := jobs[k];
      if !record.occupied || record.canceled || record.paused {
        jobs := jobs[k := record.(pending := false, hasNext := false, refreshPending := false)];
        return true;
      }
      record := record.(scheduleFrom := from, hasNext := false);
      if record.pending {
        jobs := jobs[k := record];
        return true;
      }
      if !grow {
        jobs := jobs[k := record];
        return false;
      }
      jobs := jobs[k := record.(pending := true)];
      pendingSchedules := pendingSchedules + [k];
      return true;
    }

    method PushFree(k: nat, grow: bool)
      requires Wired()
      modifies this`freeSlots, this`freeCapacity
      ensures Wired() && View() == FreePushed(old(View()), k, grow)
    {
      if |freeSlots| >= freeCapacity {
        if !grow {
          return;
        }
        freeCapacity := if freeCapacity == 0 then 4 else freeCapacity * 2;
      }
      freeSlots := freeSlots + [k];
    }

    method Unindex(id: nat)
      requires Wired()
      modifies index`size, index`deletedCount, index`Contents, index.entries
      ensures Wired() && index.Contents == old(index.Contents) - {id}
    {
      var removed := index.Remove(id);
    }

    method BlankSlot(k: nat)
      requires Wired() && k < |jobs|
      modifies this`jobs
      ensures Wired() && jobs == old(jobs)[k := Retired(old(jobs)[k])]
    {
      var record := jobs[k];
      jobs := jobs[k := record.(occupied := false, canceled := false, paused := false, queued := false, hasNext := false,
                                pending := false, refreshPending := false, running := 0, id := 0,
                                generation := record.generation + 1)];
    }

    method RetireJob(k: nat, grow: bool)
      requires Wired() && k < |jobs|
      modifies this`jobs, this`freeSlots, this`freeCapacity
      modifies index`size, index`deletedCount, index`Contents, index.entries
      ensures Wired() && View() == Retire(old(View()), k, grow)
    {
      Unindex(jobs[k].id);
      BlankSlot(k);
      PushFree(k, grow);
    }

    method FindJobSlot(id: nat) returns (r: Option<nat>)
      requires Valid()
      ensures r.Some? ==> LiveAt(jobs, r.value, id)
      ensures r.None? ==> forall k :: !LiveAt(jobs, k, id)
    {
      IndexIsExact();
      r := index.Get(id);
      if r.None? || r.value >= |jobs| {
        return None;
      }
      var record := jobs[r.value];
      if !record.occupied || record.canceled || record.id != id {
        return None;
      }
    }

    // ---------- dispatchOne and handleCompletion ----------

    method AdvanceSlot(k: nat, due: int, stop: bool, grow: bool)
      requires Wired() && k < |jobs|
      modifies this`jobs, this`missed, heap
      ensures Wired() && View() == Advance(when, old(View()), k, due, stop, grow)
    {
      if stop {
        jobs := jobs[k := jobs[k].(hasNext := false)];
      } else {
        ScheduleSlot(k, due + MINUTE, grow);
      }
    }

    /** Counts an accepted submission. For an inline job the source counts it before it schedules the
        next occurrence; nothing in between looks at the count. */
    method MarkSubmitted(k: nat, due: int, now: int)
      requires Wired() && k < |jobs|
      modifies this`jobs, this`inflight, this`log
      ensures Wired() && View() == Submitted(old(View()), k, due, now)
    {
      var record := jobs[k];
      jobs := jobs[k := record.(running := record.running + 1)];
      inflight := inflight + multiset{InvocationOf(record, k)};
      log := log + [Submission(record.id, record.job, due, now)];
    }

    method MarkFinished(k: nat)
      requires Wired() && k < |jobs|
      modifies this`jobs, this`inflight
      ensures Wired() && View() == Finished(old(View()), k)
    {
      var record := jobs[k];
      inflight := inflight - multiset{InvocationOf(record, k)};
      if record.running > 0 {
        jobs := jobs[k := record.(running := record.running - 1)];
      }
      assert old(jobs)[k := record] == old(jobs);
    }

    method ClearQueued(k: nat)
      requires Wired() && k < |jobs|
      modifies this`jobs
      ensures Wired() && View() == Put(old(View()), k, old(jobs)[k].(queued := false))
    {
      jobs := jobs[k := jobs[k].(queued := false)];
    }

    /** dispatchOne for an inline job: the callback runs, and completes, inside submit. */
    method DispatchInlineJob(k: nat, now: int, env: Env)
      requires Wired() && k < |jobs| && jobs[k].occupied && !jobs[k].queued
      modifies this`jobs, this`freeSlots, this`freeCapacity, this`pendingSchedules, this`inflight, this`log, this`missed
      modifies heap, index`size, index`deletedCount, index`Contents, index.entries
      ensures Wired() && View() == DispatchInline(when, old(View()), k, now, env)
      decreases 0, 2
    {
      if !env.inlineExecutor {
        RetrySlot(k, now, env.retryPush);
        return;
      }
      var currentDue := jobs[k].nextRun;
      ghost var s := View();
      AdvanceSlot(k, currentDue, OneShot(jobs[k].job), env.push);
      AdvanceKeepsRecord(when, s, k, currentDue, OneShot(s.jobs[k].job), env.push);
      if !env.submit {
        RetrySlot(k, now, env.retryPush);
        return;
      }
      InlineCompletes(when, View(), k, currentDue, now, env);
      MarkSubmitted(k, currentDue, now);
      HandleCompletion(k, now, env);
    }

    /** dispatchOne for a job whose executor reports back by an event. */
    method DispatchAsyncJob(k: nat, now: int, env: Env, deferred: bool)
      requires Wired() && k < |jobs|
      modifies this`jobs, this`inflight, this`log, this`missed, heap
      ensures Wired() && View() == DispatchAsync(when, old(View()), k, now, env, deferred)
    {
      var record := jobs[k];
      var currentDue := record.nextRun;
      if !env.executor || (record.job.hasDedicatedTask && record.job.executorId != 1) || !env.submit {
        RetrySlot(k, now, env.retryPush);
        return;
      }
      MarkSubmitted(k, currentDue, now);
      AdvanceSlot(k, currentDue, deferred || OneShot(record.job), env.push);
    }

    method DispatchOne(k: nat, now: int, env: Env, deferred: bool)
      requires Wired() && k < |jobs| && (jobs[k].job.dispatch.Inline? ==> !jobs[k].queued)
      modifies this`jobs, this`freeSlots, this`freeCapacity, this`pendingSchedules, this`inflight, this`log, this`missed
      modifies heap, index`size, index`deletedCount, index`Contents, index.entries
      ensures Wired() && View() == CoreModel.DispatchOne(when, old(View()), k, now, env, deferred)
      decreases 0, 3
    {
      var record := jobs[k];
      if !record.occupied || record.canceled || record.paused {
        return;
      }
      if record.job.dispatch.Inline? {
        DispatchInlineJob(k, now, env);
      } else {
        DispatchAsyncJob(k, now, env, deferred);
      }
    }

    method HandleCompletion(k: nat, now: int, env: Env)
      requires Wired() && k < |jobs| && jobs[k].occupied
      requires jobs[k].job.dispatch.Inline? ==> !jobs[k].queued
      modifies this`jobs, this`freeSlots, this`freeCapacity, this`pendingSchedules, this`inflight, this`log, this`missed
      modifies heap, index`size, index`deletedCount, index`Contents, index.entries
      ensures Wired() && View() == Complete(when, old(View()), k, now, env)
      decreases if jobs[k].queued then 1 else 0, 1
    {
      MarkFinished(k);
      var record := jobs[k];
      if Deferred(record) {
        if !record.paused {
          ClearQueued(k);
          DispatchOne(k, now, env, true);
        }
      } else {
        SettleSlot(k, now, env);
      }
    }

    /** The branches of handleCompletion that dispatch nothing. */
    method SettleSlot(k: nat, now: int, env: Env)
      requires Wired() && k < |jobs| && jobs[k].occupied
      modifies this`jobs, this`freeSlots, this`freeCapacity, this`pendingSchedules
      modifies index`size, index`deletedCount, index`Contents, index.entries
      ensures Wired() && View() == Settle(old(View()), k, now, env)
    {
      var record := jobs[k];
      if record.canceled {
        if record.running == 0 {
          RetireJob(k, env.grow);
        }
        return;
      }
      if record.refreshPending && record.running == 0 {
        jobs := jobs[k := record.(refreshPending := false, queued := false, hasNext := false)];
        var queued := QueueSlot(k, now, env.pend);
        return;
      }
      if record.running == 0 && !record.paused && !record.hasNext && !OneShot(record.job) {
        var queued := QueueSlot(k, now, env.pend);
        return;
      }
      if record.running == 0 && !record.hasNext && OneShot(record.job) {
        RetireJob(k, env.grow);
      }
    }

    // ---------- addJob ----------

    /** Puts the record into the slot addJob takes. */
    method PlaceRecord(record: JobRecord) returns (k: nat, reused: bool, generation: nat)
      requires Wired() && CanSeat(View())
      modifies this`jobs, this`freeSlots
      ensures Wired() && View() == Seated(old(View()), record)
      ensures k == AddSlot(old(View())) && reused == (|old(freeSlots)| > 0)
      ensures reused ==> generation == old(jobs)[k].generation
    {
      reused, generation := |freeSlots| > 0, 0;
      if reused {
        k := freeSlots[|freeSlots| - 1];
        freeSlots := freeSlots[..|freeSlots| - 1];
        generation := jobs[k].generation;
        jobs := jobs[k := record.(generation := generation)];
      } else {
        k := |jobs|;
        jobs := jobs + [record];
      }
    }

    /** Undoes PlaceRecord. The free list has just lost an entry, so it need not grow. */
    method RollBack(k: nat, reused: bool, generation: nat, id: nat)
      requires Wired() && k < |jobs|
      requires reused ==> |freeSlots| < freeCapacity
      requires !reused ==> k == |jobs| - 1
      modifies this`jobs, this`freeSlots, this`freeCapacity
      modifies index`size, index`deletedCount, index`Contents, index.entries
      ensures Wired() && View() == Undo(old(View()), k, reused, generation, id)
    {
      Unindex(id);
      if reused {
        jobs := jobs[k := EmptyRecord(generation)];
        PushFree(k, false);
      } else {
        jobs := jobs[..|jobs| - 1];
      }
    }

    method IndexSlot(id: nat, k: nat, grow: bool) returns (ok: bool)
      requires Wired() && id > 0
      modifies index, index.entries
      ensures Wired() && (index.entries == old(index.entries) || fresh(index.entries))
      ensures View() == if ok then Indexed(old(View()), id, k) else old(View())
      ensures !ok ==> !grow
    {
      ok := index.Set(id, k, grow);
    }

    /** Seats the record and indexes it, or leaves everything as it was. */
    method Seat(record: JobRecord, grow: bool) returns (k: nat, reused: bool, generation: nat, ok: bool)
      requires Wired() && CanSeat(View()) && |freeSlots| <= freeCapacity
      requires record.id > 0 && record.id !in index.Contents
      modifies this`jobs, this`freeSlots, this`freeCapacity, index, index.entries
      ensures Wired() && (index.entries == old(index.entries) || fresh(index.entries))
      ensures k == AddSlot(old(View())) && reused == (|old(freeSlots)| > 0)
      ensures reused ==> generation == old(jobs)[k].generation
      ensures ok ==> View() == Indexed(Seated(old(View()), record), record.id, k)
      ensures !ok ==> View() == Unseated(old(View()))
      ensures !ok ==> !grow
    {
      ghost var before := View();
      k, reused, generation := PlaceRecord(record);
      ok := IndexSlot(record.id, k, grow);
      if !ok {
        SeatFails(before, record, generation);
        RollBack(k, reused, generation, record.id);
      }
    }

    /** Gives the newly seated job its first run, or queues it until the clock is valid. */
    method StartJob(k: nat, prime: bool, now: int, push: bool, pend: bool) returns (ok: bool)
      requires Wired() && k < |jobs| && Live(jobs[k]) && !jobs[k].pending && (prime ==> !jobs[k].paused)
      modifies this`jobs, this`pendingSchedules, this`missed, heap
      ensures Wired() && View() == Started(when, old(View()), k, prime, now, push, pend)
      ensures ok <==> prime || old(jobs)[k].paused || pend
    {
      ok := true;
      if prime {
        missed := MissedAfter(when, missed, jobs[k], now);
        ArmSlot(k, push);
      } else if !jobs[k].paused {
        ok := QueueSlot(k, now, pend);
      }
    }

    /** Starts the job just seated in state s, or gives its seat back. */
    method StartOrUndo(k: nat, reused: bool, generation: nat, record: JobRecord, prime: bool, now: int, env: AddEnv,
                       ghost s: Core) returns (ok: bool)
      requires Wired() && CanSeat(s) && View() == Indexed(Seated(s, record), record.id, k)
      requires k == AddSlot(s) && reused == (|s.free| > 0) && |s.free| <= s.freeCapacity
      requires (reused ==> generation == s.jobs[k].generation) && record.id !in s.index
      requires Startable(record) && (prime ==> !record.paused)
      modifies this`jobs, this`freeSlots, this`freeCapacity, this`pendingSchedules, this`missed, heap
      modifies index`size, index`deletedCount, index`Contents, index.entries
      ensures Wired() && (ok <==> prime || record.paused || env.pend)
      ensures View() == if ok then Installed(when, s, record, prime, now, env.push, env.pend) else Unseated(s)
    {
      SeatedRecord(s, record);
      ok := StartJob(k, prime, now, env.push, env.pend);
      if !ok {
        QueueFails(s, record, generation, now);
        RollBack(k, reused, generation, record.id);
      }
    }

    /** Seats, indexes and starts the record; a failure at either allocation is rolled back. */
    method Install(record: JobRecord, prime: bool, now: int, env: AddEnv)
      returns (ok: bool, indexed: bool)
      requires Wired() && CanSeat(View()) && |freeSlots| <= freeCapacity
      requires record.id > 0 && record.id !in index.Contents && Startable(record) && (prime ==> !record.paused)
      modifies this`jobs, this`freeSlots, this`freeCapacity, this`pendingSchedules, this`missed, heap, index, index.entries
      ensures Wired() && (index.entries == old(index.entries) || fresh(index.entries))
      ensures ok <==> indexed && (prime || record.paused || env.pend)
      ensures env.index ==> indexed
      ensures ok ==> View() == Installed(when, old(View()), record, prime, now, env.push, env.pend)
      ensures !ok ==> View() == Unseated(old(View()))
    {
      ghost var s := View();
      var k, reused, generation;
      k, reused, generation, indexed := Seat(record, env.index);
      if !indexed {
        return false, false;
      }
      ok := StartOrUndo(k, reused, generation, record, prime, now, env, s);
    }

    /** The record addJob builds before it looks for a slot. */
    method NewRecord(job: Job, startPaused: bool, now: int) returns (record: JobRecord)
      ensures record == FirstRecord(when, View(), job, startPaused, now)
    {
      record := FreshRecord(nextId, 1, job, startPaused);
      if !startPaused && now >= minValid {
        record := ComputeNextForJob(record, now);
      }
    }

    method TakeId()
      requires Wired() && CanSeat(View())
      modifies this`nextId
      ensures Wired() && View() == old(View()).(nextId := old(nextId) + 1) && CanSeat(View())
    {
      nextId := nextId + 1;
    }

    method TryAdd(record: JobRecord, prime: bool, now: int, env: AddEnv) returns (r: AddResult, ghost used: AddEnv)
      requires Wired() && CanSeat(View()) && |freeSlots| <= freeCapacity && nextId > 0 && nextId !in index.Contents
      requires Startable(record) && record.id == nextId && (prime ==> !record.paused)
      modifies this`jobs, this`freeSlots, this`freeCapacity, this`pendingSchedules, this`nextId, this`missed
      modifies heap, index, index.entries
      ensures Wired() && (index.entries == old(index.entries) || fresh(index.entries))
      ensures used == env.(index := used.index) && (env.index ==> used.index)
      ensures View() == Attempt(when, old(View()), record, prime, now, used)
      ensures r == if Fits(old(View()), record, prime, used) then Added(old(nextId)) else NoMemory
    {
      TakeId();
      if !env.name || (|freeSlots| == 0 && !env.table) {
        return NoMemory, env;
      }
      var ok, indexed := Install(record, prime, now, env);
      return if ok then Added(record.id) else NoMemory, env.(index := indexed);
    }

    /** addJob after its arguments were found valid; the step is not yet recorded. */
    method AddValid(job: Job, startPaused: bool, now: int, env: AddEnv) returns (r: AddResult, ghost used: AddEnv)
      requires Valid() && Validate(job.schedule)
      modifies this`jobs, this`freeSlots, this`freeCapacity, this`pendingSchedules, this`nextId, this`missed
      modifies heap, index, index.entries
      ensures Wired() && (index.entries == old(index.entries) || fresh(index.entries))
      ensures used == env.(index := used.index) && (env.index ==> used.index)
      ensures View() == Step(when, old(View()), Add(job, startPaused, true, now, used))
      ensures r == if AddSucceeds(old(View()), job, startPaused, true, now, used) then Added(old(nextId)) else NoMemory
    {
      ghost var s := View();
      RoomToSeat();
      FirstRecordStartable(when, View(), job, startPaused, now);
      var record := NewRecord(job, startPaused, now);
      r, used := TryAdd(record, !startPaused && now >= minValid, now, env);
      AttemptIsAdd(when, s, job, startPaused, now, used);
    }

    /** addJob, not yet recorded. */
    method CheckAndAdd(job: Job, startPaused: bool, callbackValid: bool, now: int, env: AddEnv)
      returns (r: AddResult, ghost used: AddEnv)
      requires Valid()
      modifies this`jobs, this`freeSlots, this`freeCapacity, this`pendingSchedules, this`nextId, this`missed
      modifies heap, index, index.entries
      ensures Wired() && (index.entries == old(index.entries) || fresh(index.entries))
      ensures used == env.(index := used.index) && (env.index ==> used.index)
      ensures View() == Step(when, old(View()), Add(job, startPaused, callbackValid, now, used))
      ensures r == AddAnswer(old(View()), job, startPaused, callbackValid, now, used)
    {
      if !callbackValid || !Validate(job.schedule) {
        return InvalidSchedule, env;
      }
      r, used := AddValid(job, startPaused, now, env);
    }

    /** Adds a job. The index decides for itself whether it has to grow, so `used` is env with the
        index's own answer. */
    method AddJob(job: Job, startPaused: bool, callbackValid: bool, now: int, env: AddEnv)
      returns (r: AddResult, ghost used: AddEnv)
      requires Valid()
      modifies this`jobs, this`freeSlots, this`freeCapacity, this`pendingSchedules, this`nextId, this`missed
      modifies this`trace, heap, index, index.entries
      ensures Valid() && (index.entries == old(index.entries) || fresh(index.entries))
      ensures used == env.(index := used.index) && (env.index ==> used.index)
      ensures trace == old(trace) + [Add(job, startPaused, callbackValid, now, used)]
      ensures View() == Step(when, old(View()), Add(job, startPaused, callbackValid, now, used))
      ensures r == AddAnswer(old(View()), job, startPaused, callbackValid, now, used)
      ensures if r.Added? then LiveAt(jobs, AddSlot(old(View())), r.id) else SameLiveState(old(View()), View())
    {
      ghost var before := View();
      Sound();
      r, used := CheckAndAdd(job, startPaused, callbackValid, now, env);
      AddEndsWell(when, before, job, startPaused, callbackValid, now, used);
      Record(Add(job, startPaused, callbackValid, now, used), before);
    }

    // ---------- Public calls ----------

    /** Appends the step just taken to the run. */
    ghost method Record(l: Label, before: Core)
      requires Wired() && RunsModel() && before == run(trace) && View() == Step(when, before, l)
      modifies this`trace
      ensures Valid() && View() == old(View()) && trace == old(trace) + [l]
    {
      RunAppend(when, Init(start), trace, l);
      trace := trace + [l];
    }

    method SetMinValidUnixSeconds(minimum: int)
      requires Valid()
      modifies this`minValid, this`trace
      ensures Valid() && View() == old(View()).(minValid := minimum) && trace == old(trace) + [SetMinValid(minimum)]
    {
      ghost var before := View();
      minValid := minimum;
      Record(SetMinValid(minimum), before);
    }

    method CancelAt(k: nat, grow: bool)
      requires Wired() && k < |jobs|
      modifies this`jobs, this`freeSlots, this`freeCapacity
      modifies index`size, index`deletedCount, index`Contents, index.entries
      ensures Wired() && View() == CancelSlot(old(View()), k, grow)
    {
      var record := jobs[k].(canceled := true, paused := false, queued := false);
      jobs := jobs[k := Cleared(record)];
      if jobs[k].running == 0 {
        RetireJob(k, grow);
      }
    }

    /** Cancels the live job with the id, in slot k; from then on its id is gone for good. */
    method CancelJob(id: nat, grow: bool) returns (ok: bool, ghost k: nat)
      requires Valid()
      modifies this`jobs, this`freeSlots, this`freeCapacity, this`trace
      modifies index`size, index`deletedCount, index`Contents, index.entries
      ensures Valid() && (ok <==> exists j :: LiveAt(old(jobs), j, id))
      ensures ok ==> LiveAt(old(jobs), k, id) && View() == CancelSlot(old(View()), k, grow) && Gone(View(), id)
      ensures trace == old(trace) + if ok then [Cancel(k, grow)] else []
      ensures !ok ==> View() == old(View())
    {
      k := 0;
      var found := FindJobSlot(id);
      if found.None? {
        return false, k;
      }
      k := found.value;
      ghost var before := View();
      CancelEndsGone(k, grow);
      CancelAt(found.value, grow);
      Record(Cancel(k, grow), before);
      return true, k;
    }

    method PauseJob(id: nat) returns (ok: bool, ghost k: nat)
      requires Valid()
      modifies this`jobs, this`trace
      ensures Valid() && (ok <==> exists j :: LiveAt(old(jobs), j, id))
      ensures ok ==> LiveAt(old(jobs), k, id) && View() == PauseSlot(old(View()), k)
      ensures trace == old(trace) + if ok then [Pause(k)] else []
      ensures !ok ==> View() == old(View())
    {
      k := 0;
      var found := FindJobSlot(id);
      if found.None? {
        return false, k;
      }
      var slot := found.value;
      ghost var before := View();
      jobs := jobs[slot := Cleared(jobs[slot].(paused := true, queued := false))];
      assert View() == PauseSlot(before, slot);
      Record(Pause(slot), before);
      return true, slot;
    }

    /** Resuming reports NoMemory (ok is false) only when the idle job could not be queued. */
    method ResumeJob(id: nat, now: int, grow: bool) returns (found: bool, ok: bool, ghost k: nat)
      requires Valid()
      modifies this`jobs, this`pendingSchedules, this`trace
      ensures Valid() && (found <==> exists j :: LiveAt(old(jobs), j, id))
      ensures found ==> LiveAt(old(jobs), k, id) && View() == ResumeSlot(old(View()), k, now, grow)
      ensures trace == old(trace) + if found then [Resume(k, now, grow)] else []
      ensures !found ==> View() == old(View())
      ensures ok <==> found && (grow || old(jobs)[k].pending || old(jobs)[k].running > 0)
    {
      k := 0;
      var slot := FindJobSlot(id);
      if slot.None? {
        return false, false, k;
      }
      k := slot.value;
      ghost var before := View();
      jobs := jobs[slot.value := jobs[slot.value].(paused := false, queued := false)];
      found, ok := true, true;
      if jobs[slot.value].running == 0 {
        ok := QueueSlot(slot.value, now, grow);
      }
      assert View() == ResumeSlot(before, k, now, grow);
      Record(Resume(k, now, grow), before);
    }

    /** cancelAll has gone through the first n slots since the table was `was` and the trace `base`. */
    ghost predicate Canceling(base: seq<Label>, was: seq<JobRecord>, n: nat, grow: nat -> bool)
      reads this, heap, index, index.entries
    {
      Valid() && n <= |was| && CanceledBelow(was, jobs, n) && trace == base + CancelLabels(was, n, grow)
    }

    /** The body of the cancelAll loop. */
    method CancelStep(k: nat, grow: nat -> bool, ghost base: seq<Label>, ghost was: seq<JobRecord>)
      requires k < |jobs| && Canceling(base, was, k, grow)
      modifies this`jobs, this`freeSlots, this`freeCapacity, this`trace
      modifies index`size, index`deletedCount, index`Contents, index.entries
      ensures Canceling(base, was, k + 1, grow) && |jobs| == |old(jobs)|
    {
      ghost var before := View();
      if jobs[k].occupied && !jobs[k].canceled {
        CanceledNext(was, before, k, grow(k));
        CancelIsStep(when, before, k, grow(k));
        CancelAt(k, grow(k));
        Record(Cancel(k, grow(k)), before);
      }
      assert base + CancelLabels(was, k, grow) + [Cancel(k, grow(k))] == base + (CancelLabels(was, k, grow) + [Cancel(k, grow(k))]);
    }

    /** Cancels every live job, in table order, and does nothing else. Afterwards every job still in the
        table is canceled and waits for its completions only. */
    method CancelAll(grow: nat -> bool)
      requires Valid()
      modifies this`jobs, this`freeSlots, this`freeCapacity, this`trace
      modifies index`size, index`deletedCount, index`Contents, index.entries
      ensures Valid() && AllCanceled(View()) && |jobs| == |old(jobs)|
      ensures trace == old(trace) + CancelLabels(old(jobs), |old(jobs)|, grow)
    {
      ghost var base, was := trace, jobs;
      assert trace == base + CancelLabels(was, 0, grow);
      var k := 0;
      while k < |jobs|
        invariant k <= |jobs| == |was| && Canceling(base, was, k, grow)
        decreases |was| - k
      {
        CancelStep(k, grow, base, was);
        k := k + 1;
      }
    }

    method RefreshAt(k: nat, now: int, grow: bool)
      requires Wired() && k < |jobs| && Refreshable(jobs[k])
      modifies this`jobs, this`missed, heap
      ensures Wired() && View() == RefreshSlot(when, old(View()), k, now, grow)
    {
      var record := jobs[k].(pending := false);
      if record.running > 0 && !record.job.overlap.AllowParallel? {
        jobs := jobs[k := record.(refreshPending := true, queued := false, hasNext := false, nextRun := 0)];
        return;
      }
      jobs := jobs[k := record.(refreshPending := false, hasNext := false, nextRun := 0)];
      ScheduleSlot(k, now, grow);
    }

    /** refreshAllSchedules has gone through the first n slots since the table was `was` and the trace `base`. */
    ghost predicate Refreshing(base: seq<Label>, was: seq<JobRecord>, n: nat, now: int, grow: nat -> bool)
      reads this, heap, index, index.entries
    {
      Valid() && n <= |was| && RefreshedBelow(when, was, jobs, n, now, grow) &&
      trace == base + RefreshLabels(was, n, now, grow)
    }

    /** The body of the refreshAllSchedules loop. */
    method RefreshStep(k: nat, now: int, grow: nat -> bool, ghost base: seq<Label>, ghost was: seq<JobRecord>)
      requires k < |jobs| && Refreshing(base, was, k, now, grow)
      modifies this`jobs, this`missed, this`trace, heap
      ensures Refreshing(base, was, k + 1, now, grow) && |jobs| == |old(jobs)|
    {
      ghost var before := View();
      if Refreshable(jobs[k]) {
        RefreshAt(k, now, grow(k));
        RefreshedSlot(when, before, k, now, grow(k));
        Record(Refresh(k, now, grow(k)), before);
      }
      RefreshedNext(when, was, before.jobs, k, now, grow);
    }

    /** Recomputes every live, unpaused recurring job from now, or marks it for when it stops running;
        one-shot, paused and canceled jobs are untouched. */
    method RefreshAllSchedules(now: int, grow: nat -> bool)
      requires Valid()
      modifies this`jobs, this`missed, this`trace, heap
      ensures Valid() && AllRefreshed(when, old(jobs), jobs, now, grow)
      ensures trace == old(trace) + RefreshLabels(old(jobs), |old(jobs)|, now, grow)
    {
      ghost var base, was := trace, jobs;
      assert trace == base + RefreshLabels(was, 0, now, grow);
      var k := 0;
      while k < |jobs|
        invariant k <= |jobs| == |was| && Refreshing(base, was, k, now, grow)
        decreases |was| - k
      {
        RefreshStep(k, now, grow, base, was);
        k := k + 1;
      }
    }

    // ---------- Events and ticks ----------

    /** A completion event. One that names the record its slot holds is completed; any other is ignored.
        Executors report an accepted invocation at most once, so a matching event is in flight and the
        step is one of the model's. */
    method HandleEvent(event: Invocation, now: int, env: Env)
      requires Usable()
      modifies this`jobs, this`freeSlots, this`freeCapacity, this`pendingSchedules, this`inflight, this`log, this`missed
      modifies this`trace, heap, index`size, index`deletedCount, index`Contents, index.entries
      ensures Usable() && View() == Handled(when, old(View()), event, now, env)
      ensures old(Valid()) && (Matching(old(jobs), event) ==> event in old(inflight)) ==>
        Valid() && trace == old(trace) + [Finish(event, now, env)]
    {
      ghost var before, valid := View(), Valid();
      if event.slot >= |jobs| || !jobs[event.slot].occupied || jobs[event.slot].id != event.id ||
         jobs[event.slot].generation != event.generation {
        RecordFinish(event, now, env, before, valid);
        return;
      }
      CompleteQueuesNothing(when, before, event.slot, now, env);
      HandleCompletion(event.slot, now, env);
      RecordFinish(event, now, env, before, valid && event in before.inflight);
    }

    /** Records the handling of an event, if it was a step of the model. */
    ghost method RecordFinish(event: Invocation, now: int, env: Env, before: Core, genuine: bool)
      requires Usable() && View() == Handled(when, before, event, now, env)
      requires genuine ==> before == run(trace) && (Matching(before.jobs, event) ==> event in before.inflight)
      modifies this`trace
      ensures Usable() && View() == old(View())
      ensures genuine ==> Valid() && trace == old(trace) + [Finish(event, now, env)]
    {
      if genuine {
        HandledIsStep(when, before, event, now, env);
        Record(Finish(event, now, env), before);
      }
    }

    /** The body of the drain loop after the entry is taken off the list. */
    method DrainSlot(k: nat, grow: bool)
      requires Wired() && k < |jobs|
      modifies this`jobs, this`missed, heap
      ensures Wired() && View() == Drained(when, old(View()), k, grow)
    {
      var record := jobs[k].(pending := false);
      jobs := jobs[k := record];
      if !record.occupied || record.canceled || record.paused || record.running > 0 {
        jobs := jobs[k := record.(hasNext := false)];
      } else {
        ScheduleSlot(k, record.scheduleFrom, grow);
      }
    }

    method DrainOne(now: int, grow: bool)
      requires Valid() && now >= minValid && |pendingSchedules| > 0
      modifies this`jobs, this`pendingSchedules, this`missed, this`trace, heap
      ensures Valid() && trace == old(trace) + [Drain(now, grow)]
      ensures pendingSchedules == old(pendingSchedules)[..|old(pendingSchedules)| - 1]
    {
      ghost var before := View();
      PendingInRange();
      DrainIsStep(when, before, now, grow);
      var last := |pendingSchedules| - 1;
      var k := pendingSchedules[last];
      pendingSchedules := pendingSchedules[..last];
      DrainSlot(k, grow);
      Record(Drain(now, grow), before);
    }

    /** Drains the whole pending list, last entry first, once the clock is valid. */
    method DrainPendingSchedules(now: int, env: nat -> Env)
      requires Valid()
      modifies this`jobs, this`pendingSchedules, this`missed, this`trace, heap
      ensures Valid() && (now >= minValid ==> pendingSchedules == [])
      ensures now < minValid ==> View() == old(View())
      ensures trace == old(trace) + if now >= minValid then DrainLabels(now, env, |old(pendingSchedules)|) else []
    {
      if now < minValid {
        return;
      }
      var turn := 0;
      while |pendingSchedules| > 0
        invariant Valid() && turn + |pendingSchedules| == |old(pendingSchedules)|
        invariant trace == old(trace) + DrainLabels(now, env, turn)
        decreases |pendingSchedules|
      {
        DrainOne(now, env(turn).push);
        turn := turn + 1;
      }
    }

    method ValidateTop() returns (ok: bool)
      requires Wired() && heap.entries != []
      ensures ok <==> ValidEntry(View(), heap.entries[0])
    {
      var entry := heap.Top();
      if entry.slot >= |jobs| {
        return false;
      }
      var record := jobs[entry.slot];
      return record.occupied && !record.canceled && record.hasNext && record.generation == entry.generation &&
             record.nextRun == entry.epoch;
    }

    /** Pops a stale top entry, as one turn of a pass. */
    method PopStale(now: int) returns (ghost l: Label)
      requires Valid() && heap.entries != [] && !ValidEntry(View(), heap.entries[0])
      modifies this`trace, heap
      ensures Valid() && trace == old(trace) + [l] && Turn(when, old(View()), l, View(), now) && l.Prune?
      ensures |heap.entries| < |old(heap.entries)|
      ensures Weight(multiset(heap.entries), now) <= Weight(old(multiset(heap.entries)), now)
    {
      ghost var before := View();
      var entry := heap.Pop();
      l := Prune(entry);
      PruneIsTurn(when, before, entry, now);
      Record(l, before);
    }

    /** After the run `base`, the dispatch loop at time now went through `states`, from where base led. */
    ghost predicate InPass(base: seq<Label>, pass: seq<Label>, states: seq<Core>, now: int)
      reads this, heap, index, index.entries
    {
      Valid() && trace == base + pass && PassTo(when, pass, states, now, View()) && states[0] == run(base)
    }

    lemma ExtendPass(base: seq<Label>, pass: seq<Label>, states: seq<Core>, now: int, s: Core, l: Label)
      requires Valid() && trace == base + pass + [l]
      requires PassTo(when, pass, states, now, s) && Turn(when, s, l, View(), now) && states[0] == run(base)
      ensures InPass(base, pass + [l], states + [View()], now)
    {
      PassExtend(when, pass, states, now, s, l, View());
      assert base + pass + [l] == base + (pass + [l]);
    }

    /** One turn of pruneInvalidDueEntries. */
    method PruneTurn(now: int, ghost base: seq<Label>, ghost pass0: seq<Label>, ghost pass: seq<Label>,
                     ghost states: seq<Core>)
      returns (done: bool, ghost pass': seq<Label>, ghost states': seq<Core>)
      requires InPass(base, pass, states, now) && MorePrunes(pass0, pass)
      modifies this`trace, heap
      ensures InPass(base, pass', states', now) && MorePrunes(pass0, pass')
      ensures done ==> heap.entries == old(heap.entries) && (heap.entries == [] || ValidEntry(View(), heap.entries[0]))
      ensures !done ==> |heap.entries| < |old(heap.entries)|
      ensures Weight(multiset(heap.entries), now) <= Weight(old(multiset(heap.entries)), now)
    {
      done, pass', states' := true, pass, states;
      if |heap.entries| == 0 {
        return;
      }
      var valid := ValidateTop();
      if valid {
        return;
      }
      ghost var s := View();
      ghost var l := PopStale(now);
      ExtendPass(base, pass, states, now, s, l);
      done, pass', states' := false, pass + [l], states + [View()];
    }

    method PruneInvalidDueEntries(now: int, ghost base: seq<Label>, ghost pass0: seq<Label>, ghost states0: seq<Core>)
      returns (ghost pass: seq<Label>, ghost states: seq<Core>)
      requires InPass(base, pass0, states0, now)
      modifies this`trace, heap
      ensures InPass(base, pass, states, now) && MorePrunes(pass0, pass)
      ensures heap.entries == [] || ValidEntry(View(), heap.entries[0])
      ensures Weight(multiset(heap.entries), now) <= Weight(old(multiset(heap.entries)), now)
    {
      pass, states := pass0, states0;
      var done := false;
      while !done
        invariant InPass(base, pass, states, now) && MorePrunes(pass0, pass)
        invariant done ==> heap.entries == [] || ValidEntry(View(), heap.entries[0])
        invariant Weight(multiset(heap.entries), now) <= Weight(old(multiset(heap.entries)), now)
        decreases |heap.entries|, !done
      {
        done, pass, states := PruneTurn(now, base, pass0, pass, states);
      }
    }

    /** The body of the dispatchDue loop after the entry for slot k is popped. */
    method DispatchPopped(k: nat, now: int, env: Env)
      requires Wired() && k < |jobs| && (jobs[k].job.dispatch.Inline? ==> !jobs[k].queued)
      modifies this`jobs, this`freeSlots, this`freeCapacity, this`pendingSchedules, this`inflight, this`log, this`missed
      modifies heap, index`size, index`deletedCount, index`Contents, index.entries
      ensures Wired() && View() == Processed(when, old(View()), k, now, env)
    {
      var record := jobs[k];
      if record.paused {
        jobs := jobs[k := record.(hasNext := false)];
      } else if record.running > 0 && !record.job.overlap.AllowParallel? {
        if record.job.overlap.QueueOne? {
          record := record.(queued := true);
        }
        jobs := jobs[k := record.(hasNext := false)];
      } else {
        DispatchOne(k, now, env, false);
      }
    }

    method PopTop() returns (entry: DueEntry)
      requires Wired() && heap.entries != []
      modifies heap
      ensures Wired() && entry == old(heap.entries)[0] && View() == PopEntry(old(View()), entry)
      ensures Minimal(entry, old(View()).heap)
    {
      entry := heap.Pop();
    }

    /** One dispatching turn of the loop: the measure drops. */
    method DispatchTurn(now: int, env: Env) returns (ghost l: Label)
      requires Valid() && heap.entries != [] && ValidEntry(View(), heap.entries[0])
      requires minValid <= now && heap.entries[0].epoch <= now
      modifies this`jobs, this`freeSlots, this`freeCapacity, this`pendingSchedules, this`inflight, this`log, this`missed
      modifies this`trace, heap, index`size, index`deletedCount, index`Contents, index.entries
      ensures Valid() && trace == old(trace) + [l] && Turn(when, old(View()), l, View(), now)
      ensures l.Dispatch? && l.env == env
      ensures Weight(View().heap, now) < Weight(old(View()).heap, now)
    {
      ghost var before := View();
      QueuedIsAsync(heap.entries[0].slot);
      var entry := PopTop();
      l := Dispatch(entry, now, env);
      DispatchPopped(entry.slot, now, env);
      DispatchIsTurn(when, before, entry, now, env);
      Record(l, before);
    }

    /** One turn of the dispatchDue loop: prune, then dispatch the top entry if it is due. */
    method LoopTurn(now: int, env: nat -> Env, turn: nat, ghost base: seq<Label>, ghost pass0: seq<Label>,
                    ghost states0: seq<Core>)
      returns (done: bool, ghost pass: seq<Label>, ghost states: seq<Core>)
      requires InPass(base, pass0, states0, now) && minValid <= now && AnswersFrom(pass0, env)
      modifies this`jobs, this`freeSlots, this`freeCapacity, this`pendingSchedules, this`inflight, this`log, this`missed
      modifies this`trace, heap, index`size, index`deletedCount, index`Contents, index.entries
      ensures InPass(base, pass, states, now) && AnswersFrom(pass, env)
      ensures done ==> heap.entries == [] || heap.entries[0].epoch > now
      ensures !done ==> Weight(View().heap, now) < Weight(old(View()).heap, now)
    {
      pass, states := PruneInvalidDueEntries(now, base, pass0, states0);
      PrunesAnswer(pass0, pass, env);
      if |heap.entries| == 0 || heap.entries[0].epoch > now {
        return true, pass, states;
      }
      ghost var s := View();
      ghost var l := DispatchTurn(now, env(turn));
      DispatchAnswers(pass, l, env, turn);
      ExtendPass(base, pass, states, now, s, l);
      return false, pass + [l], states + [View()];
    }

    /** Drains the pending list and dispatches until nothing is due at now, and does nothing else: `pass`
        and `states` are the turns of the loop and the states it went through from the drained one. */
    method DispatchDue(now: int, env: nat -> Env)
      returns (ghost drains: seq<Label>, ghost pass: seq<Label>, ghost states: seq<Core>)
      requires Valid()
      modifies this`jobs, this`freeSlots, this`freeCapacity, this`pendingSchedules, this`inflight, this`log, this`missed
      modifies this`trace, heap, index`size, index`deletedCount, index`Contents, index.entries
      ensures Valid() && trace == old(trace) + drains + pass
      ensures now < minValid ==> View() == old(View()) && drains == [] && pass == []
      ensures minValid <= now ==> drains == DrainLabels(now, env, |old(pendingSchedules)|)
      ensures minValid <= now ==> InPass(old(trace) + drains, pass, states, now) && AnswersFrom(pass, env)
      ensures minValid <= now ==> states[0].pending == [] && AllLater(View(), now)
      ensures minValid <= now && (forall i :: env(i).push) ==> OnlyExhausted(when, View(), now)
    {
      drains, pass, states := [], [], [View()];
      DrainPendingSchedules(now, env);
      if now >= minValid {
        drains := DrainLabels(now, env, |old(pendingSchedules)|);
        pass, states := DispatchLoop(now, env);
      }
    }

    /** The loop of dispatchDue; it ends because every dispatching turn lowers the weight of the heap. */
    method DispatchLoop(now: int, env: nat -> Env) returns (ghost pass: seq<Label>, ghost states: seq<Core>)
      requires Valid() && minValid <= now && pendingSchedules == []
      modifies this`jobs, this`freeSlots, this`freeCapacity, this`pendingSchedules, this`inflight, this`log, this`missed
      modifies this`trace, heap, index`size, index`deletedCount, index`Contents, index.entries
      ensures InPass(old(trace), pass, states, now) && AnswersFrom(pass, env)
      ensures states[0].pending == [] && AllLater(View(), now)
      ensures (forall i :: env(i).push) ==> OnlyExhausted(when, View(), now)
    {
      pass, states := [], [View()];
      assert trace == old(trace) + pass;
      var done, turn := false, 0;
      while !done
        invariant InPass(old(trace), pass, states, now) && AnswersFrom(pass, env)
        invariant done ==> heap.entries == [] || heap.entries[0].epoch > now
        decreases !done, Weight(View().heap, now)
      {
        done, pass, states := LoopTurn(now, env, turn, old(trace), pass, states);
        turn := turn + 1;
      }
      if heap.entries != [] {
        RootIsMinimal(heap.entries);
      }
      NothingDue(now);
      ExhaustedOnly(old(trace), pass, states, now, env);
    }

    /** The earliest next run of any live job, exactly as a scan of the table would find it; only stale heap
        entries are dropped on the way. */
    method NextDueEpoch() returns (r: Option<int>, ghost prunes: seq<Label>)
      requires Valid()
      modifies this`trace, heap
      ensures Valid() && EarliestRun(View(), r)
      ensures trace == old(trace) + prunes && MorePrunes([], prunes)
    {
      assert trace == trace + [];
      ghost var states;
      prunes, states := PruneInvalidDueEntries(0, trace, [], [View()]);
      TopIsEarliest();
      if |heap.entries| == 0 {
        return None, prunes;
      }
      var entry := heap.Top();
      return Some(entry.epoch), prunes;
    }

    method ActiveInvocationCount() returns (count: nat)
      requires Valid()
      ensures count == |inflight|
    {
      count := 0;
      var k := 0;
      while k < |jobs|
        invariant 0 <= k <= |jobs| && count == SumRunning(jobs[..k])
      {
        assert jobs[..k + 1][..k] == jobs[..k];
        count := count + jobs[k].running;
        k := k + 1;
      }
      assert jobs[..k] == jobs;
      CountIsInflight();
    }
  }

  // ---------- The labels a loop appends ----------

  /** `more` is `pass` followed by prunes. */
  ghost predicate MorePrunes(pass: seq<Label>, more: seq<Label>) {
    pass <= more && forall i :: |pass| <= i < |more| ==> more[i].Prune?
  }

  /** Every dispatch of the pass got one of the given answers. */
  ghost predicate AnswersFrom(pass: seq<Label>, env: nat -> Env) {
    forall i :: 0 <= i < |pass| ==> AnswerFrom(pass[i], env)
  }

  ghost predicate AnswerFrom(l: Label, env: nat -> Env) { l.Dispatch? ==> exists j :: l.env == env(j) }

  lemma PrunesAnswer(pass: seq<Label>, more: seq<Label>, env: nat -> Env)
    requires AnswersFrom(pass, env) && MorePrunes(pass, more)
    ensures AnswersFrom(more, env)
  {
  }

  lemma DispatchAnswers(pass: seq<Label>, l: Label, env: nat -> Env, turn: nat)
    requires AnswersFrom(pass, env) && l.Dispatch? && l.env == env(turn)
    ensures AnswersFrom(pass + [l], env)
  {
    assert AnswerFrom(l, env);
  }

  // ---------- Table loops ----------

  /** The first n slots have been refreshed and the others are as they were. */
  ghost predicate RefreshedBelow(
    when: Calculator, was: seq<JobRecord>, jobs: seq<JobRecord>, n: nat, now: int, grow: nat -> bool)
  {
    |jobs| == |was| && forall j :: 0 <= j < |jobs| ==>
      jobs[j] == if j < n then RefreshedRecord(when, was[j], now, grow(j)) else was[j]
  }

  /** Every record is what refreshAllSchedules makes of it. */
  ghost predicate AllRefreshed(when: Calculator, was: seq<JobRecord>, jobs: seq<JobRecord>, now: int, grow: nat -> bool) {
    RefreshedBelow(when, was, jobs, |jobs|, now, grow)
  }

  lemma RefreshedNext(
    when: Calculator, was: seq<JobRecord>, jobs: seq<JobRecord>, k: nat, now: int, grow: nat -> bool)
    requires k < |jobs| && RefreshedBelow(when, was, jobs, k, now, grow)
    ensures RefreshedBelow(when, was, jobs[k := RefreshedRecord(when, jobs[k], now, grow(k))], k + 1, now, grow)
    ensures !Refreshable(jobs[k]) ==> jobs[k := RefreshedRecord(when, jobs[k], now, grow(k))] == jobs
  {
  }

  lemma PruneIsTurn(when: Calculator, s: Core, e: DueEntry, now: int)
    requires Minimal(e, s.heap) && !ValidEntry(s, e)
    ensures Turn(when, s, Prune(e), PopEntry(s, e), now) && PopEntry(s, e) == Step(when, s, Prune(e))
    ensures Weight(PopEntry(s, e).heap, now) <= Weight(s.heap, now)
  {
    PruneKeepsWeight(s, e, now);
  }

  lemma DispatchIsTurn(when: Calculator, s: Core, e: DueEntry, now: int, env: Env)
    requires Minimal(e, s.heap) && ValidEntry(s, e) && e.epoch <= now && ClockValid(s, now) && NeverEarly(when)
    ensures var t := DispatchEntry(when, s, e, now, env);
      Turn(when, s, Dispatch(e, now, env), t, now) && t == Step(when, s, Dispatch(e, now, env)) &&
      Weight(t.heap, now) < Weight(s.heap, now)
  {
    DispatchTerminates(when, s, e, now, env);
    TurnIsStep(when, s, Dispatch(e, now, env), DispatchEntry(when, s, e, now, env), now);
  }

  /** No heap entry and no job is due at or before now. */
  ghost predicate AllLater(s: Core, now: int) {
    (forall e :: e in s.heap ==> e.epoch > now) &&
    (forall k :: 0 <= k < |s.jobs| && s.jobs[k].hasNext ==> s.jobs[k].nextRun > now)
  }

  /** A pass from states[0] that has arrived in s. */
  ghost predicate PassTo(when: Calculator, pass: seq<Label>, states: seq<Core>, now: int, s: Core) {
    IsPass(when, pass, states, now) && states[|pass|] == s
  }

  lemma PassExtend(when: Calculator, pass: seq<Label>, states: seq<Core>, now: int, s: Core, l: Label, t: Core)
    requires PassTo(when, pass, states, now, s) && Turn(when, s, l, t, now)
    ensures PassTo(when, pass + [l], states + [t], now, t)
  {
    PassAppend(when, pass, states, now, l, t);
  }

  /** Runs are queued behind asynchronous invocations only. */
  ghost predicate OnlyAsyncQueued(jobs: seq<JobRecord>) {
    forall k :: 0 <= k < |jobs| ==> jobs[k].job.dispatch.Inline? ==> !jobs[k].queued
  }

  lemma SettleQueuesNothing(s: Core, k: nat, now: int, env: Env)
    requires k < |s.jobs| && !s.jobs[k].queued
    ensures var t := Settle(s, k, now, env); |t.jobs| == |s.jobs| && !t.jobs[k].queued
  {
  }

  lemma CompleteQueuesNothing(when: Calculator, s: Core, k: nat, now: int, env: Env)
    requires k < |s.jobs| && s.jobs[k].occupied && OnlyAsyncQueued(s.jobs)
    ensures OnlyAsyncQueued(Complete(when, s, k, now, env).jobs)
  {
    var t := Complete(when, s, k, now, env);
    var u, retired := CompleteShape(when, s, k, now, env);
    if s.jobs[k].job.dispatch.Inline? {
      SettleQueuesNothing(Finished(s, k), k, now, env);
    }
    forall j | 0 <= j < |t.jobs|
      ensures t.jobs[j].job.dispatch.Inline? ==> !t.jobs[j].queued
    {
      if j != k {
        assert t.jobs[j] == s.jobs[j];
      }
    }
  }

  /** What handleEvent makes of the state. */
  ghost function Handled(when: Calculator, s: Core, v: Invocation, now: int, env: Env): Core {
    if Matching(s.jobs, v) then Complete(when, s, v.slot, now, env) else s
  }

  lemma HandledIsStep(when: Calculator, s: Core, event: Invocation, now: int, env: Env)
    requires Matching(s.jobs, event) ==> event in s.inflight
    ensures Step(when, s, Finish(event, now, env)) == Handled(when, s, event, now, env)
  {
    assert Enabled(s, Finish(event, now, env)) <==> Matching(s.jobs, event);
  }

  lemma DrainIsStep(when: Calculator, s: Core, now: int, push: bool)
    requires ClockValid(s, now) && |s.pending| > 0 && s.pending[|s.pending| - 1] < |s.jobs|
    ensures var n := |s.pending| - 1;
      var s1 := s.(pending := s.pending[..n]);
      Step(when, s, Drain(now, push)) == Drained(when, s1, s.pending[n], push) &&
      Drained(when, s1, s.pending[n], push).pending == s.pending[..n]
  {
  }

  /** The event names the record its slot holds. */
  predicate Matching(jobs: seq<JobRecord>, event: Invocation) {
    event.slot < |jobs| && jobs[event.slot].occupied && InvocationOf(jobs[event.slot], event.slot) == event
  }

  /** The first n slots hold no live job and the others are as they were. */
  ghost predicate CanceledBelow(was: seq<JobRecord>, jobs: seq<JobRecord>, n: nat) {
    |jobs| == |was| && forall j :: 0 <= j < |jobs| ==> if j < n then !Live(jobs[j]) else jobs[j] == was[j]
  }

  lemma CancelIsStep(when: Calculator, s: Core, k: nat, grow: bool)
    requires k < |s.jobs| && Live(s.jobs[k])
    ensures Step(when, s, Cancel(k, grow)) == CancelSlot(s, k, grow)
  {
  }

  lemma CanceledNext(was: seq<JobRecord>, s: Core, k: nat, grow: bool)
    requires k < |s.jobs| && CanceledBelow(was, s.jobs, k)
    ensures CanceledBelow(was, CancelSlot(s, k, grow).jobs, k + 1)
  {
    var t := CancelSlot(s, k, grow);
    assert !Live(t.jobs[k]);
    assert forall j :: 0 <= j < |s.jobs| && j != k ==> t.jobs[j] == s.jobs[j];
  }

  lemma AdvanceKeepsRecord(when: Calculator, s: Core, k: nat, due: int, stop: bool, push: bool)
    requires k < |s.jobs|
    ensures var t := Advance(when, s, k, due, stop, push);
      |t.jobs| == |s.jobs| && t.jobs[k].occupied == s.jobs[k].occupied && t.jobs[k].queued == s.jobs[k].queued
  {
  }

  /** With no run queued, a completion only settles. */
  lemma InlineCompletes(when: Calculator, s: Core, k: nat, due: int, now: int, env: Env)
    requires k < |s.jobs| && !s.jobs[k].queued
    ensures Complete(when, Submitted(s, k, due, now), k, now, env) ==
      Settle(Finished(Submitted(s, k, due, now), k), k, now, env)
  {
  }

  /** Storing a record before arming it changes nothing. */
  lemma ArmAfterPut(s: Core, k: nat, r: JobRecord, push: bool)
    requires k < |s.jobs|
    ensures Arm(Put(s, k, r), k, r, push) == Arm(s, k, r, push)
  {
    assert s.jobs[k := r][k := r] == s.jobs[k := r];
    assert s.jobs[k := r][k := r.(hasNext := false)] == s.jobs[k := r.(hasNext := false)];
  }

  // ---------- addJob ----------

  ghost predicate CanSeat(s: Core) {
    AddSlot(s) <= |s.jobs| && (|s.free| > 0 ==> AddSlot(s) < |s.jobs|)
  }

  /** s with the record in the slot addJob takes; the index is not yet told. */
  ghost function Seated(s: Core, record: JobRecord): Core
    requires CanSeat(s)
  {
    var k := AddSlot(s);
    if |s.free| > 0 then
      s.(jobs := s.jobs[k := record.(generation := s.jobs[k].generation)], free := s.free[..|s.free| - 1])
    else s.(jobs := s.jobs + [record])
  }

  /** u differs from s in having a record seated, under whatever index. */
  ghost predicate SeatTaken(s: Core, u: Core, id: nat)
    requires CanSeat(s)
  {
    var k := AddSlot(s);
    |u.jobs| > k && u.index - {id} == s.index &&
    u == if |s.free| > 0 then s.(jobs := s.jobs[k := u.jobs[k]], free := s.free[..|s.free| - 1], index := u.index)
         else s.(jobs := s.jobs + [u.jobs[k]], index := u.index)
  }

  /** s after a seat was given back. */
  ghost function Unseated(s: Core): Core
    requires CanSeat(s)
  {
    var k := AddSlot(s);
    if |s.free| > 0 then s.(jobs := s.jobs[k := EmptyRecord(s.jobs[k].generation)]) else s
  }

  ghost function Undo(u: Core, k: nat, reused: bool, generation: nat, id: nat): Core
    requires k < |u.jobs|
  {
    if reused then u.(jobs := u.jobs[k := EmptyRecord(generation)], free := u.free + [k], index := u.index - {id})
    else u.(jobs := u.jobs[..k], index := u.index - {id})
  }

  lemma UndoUnseats(s: Core, u: Core, generation: nat, id: nat)
    requires CanSeat(s) && SeatTaken(s, u, id) && (|s.free| > 0 ==> generation == s.jobs[AddSlot(s)].generation)
    ensures Undo(u, AddSlot(s), |s.free| > 0, generation, id) == Unseated(s)
  {
    if |s.free| > 0 {
      assert s.free[..|s.free| - 1] + [AddSlot(s)] == s.free;
    }
  }

  lemma UnseatedIsRolledBack(s: Core)
    requires FreeOk(s)
    ensures Unseated(s.(nextId := s.nextId + 1)) == RolledBack(s)
  {
  }

  ghost function Indexed(s: Core, id: nat, k: nat): Core { s.(index := s.index[id := k]) }

  lemma SeatFails(s: Core, record: JobRecord, generation: nat)
    requires CanSeat(s) && record.id !in s.index
    requires |s.free| > 0 ==> generation == s.jobs[AddSlot(s)].generation
    ensures AddSlot(s) < |Seated(s, record).jobs|
    ensures Undo(Seated(s, record), AddSlot(s), |s.free| > 0, generation, record.id) == Unseated(s)
  {
    assert s.index - {record.id} == s.index;
    UndoUnseats(s, Seated(s, record), generation, record.id);
  }

  lemma SeatedRecord(s: Core, record: JobRecord)
    requires CanSeat(s)
    ensures AddSlot(s) < |Seated(s, record).jobs|
    ensures Seated(s, record).jobs[AddSlot(s)].(generation := record.generation) == record
  {
  }

  /** A job that could not be queued can be undone as if it had just been seated. */
  lemma QueueFails(s: Core, record: JobRecord, generation: nat, now: int)
    requires CanSeat(s) && record.id !in s.index && AddSlot(s) < |Seated(s, record).jobs|
    requires Startable(record) && !record.paused
    requires |s.free| > 0 ==> generation == s.jobs[AddSlot(s)].generation
    ensures var u := QueueScheduling(Indexed(Seated(s, record), record.id, AddSlot(s)), AddSlot(s), now, false);
      Undo(u, AddSlot(s), |s.free| > 0, generation, record.id) == Unseated(s)
  {
    var u := QueueScheduling(Indexed(Seated(s, record), record.id, AddSlot(s)), AddSlot(s), now, false);
    assert s.index[record.id := AddSlot(s)] - {record.id} == s.index;
    assert SeatTaken(s, u, record.id);
    UndoUnseats(s, u, generation, record.id);
  }

  ghost function Started(when: Calculator, u: Core, k: nat, prime: bool, now: int, push: bool, pend: bool): Core
    requires k < |u.jobs|
  {
    if prime then Arm(u.(missed := MissedAfter(when, u.missed, u.jobs[k], now)), k, u.jobs[k], push)
    else if u.jobs[k].paused then u
    else QueueScheduling(u, k, now, pend)
  }

  predicate Startable(r: JobRecord) { Live(r) && !r.pending }

  ghost function Installed(
    when: Calculator, s: Core, record: JobRecord, prime: bool, now: int, push: bool, pend: bool): Core
    requires CanSeat(s)
  {
    Started(when, Indexed(Seated(s, record), record.id, AddSlot(s)), AddSlot(s), prime, now, push, pend)
  }

  ghost function FirstRecord(when: Calculator, s: Core, job: Job, paused: bool, now: int): JobRecord {
    var r := FreshRecord(s.nextId, 1, job, paused);
    if !paused && ClockValid(s, now) then Search(when, r, now) else r
  }

  lemma FirstRecordStartable(when: Calculator, s: Core, job: Job, paused: bool, now: int)
    ensures var r := FirstRecord(when, s, job, paused, now);
      r.id == s.nextId && Startable(r) && r.paused == paused
  {
  }

  /** Every allocation addJob makes goes well. */
  predicate Fits(s: Core, record: JobRecord, prime: bool, env: AddEnv) {
    env.name && (|s.free| > 0 || env.table) && env.index && (record.paused || prime || env.pend)
  }

  /** addJob of a valid job, in the order the source goes about it. */
  ghost function Attempt(when: Calculator, s: Core, record: JobRecord, prime: bool, now: int, env: AddEnv): Core
    requires CanSeat(s)
  {
    var t := s.(nextId := s.nextId + 1);
    if !env.name || (|s.free| == 0 && !env.table) then t
    else if !Fits(s, record, prime, env) then Unseated(t)
    else Installed(when, t, record, prime, now, env.push, env.pend)
  }

  lemma AttemptIsAdd(when: Calculator, s: Core, job: Job, paused: bool, now: int, env: AddEnv)
    requires Validate(job.schedule) && CanSeat(s) && FreeOk(s)
    ensures var record, prime := FirstRecord(when, s, job, paused, now), !paused && ClockValid(s, now);
      Attempt(when, s, record, prime, now, env) == Step(when, s, Add(job, paused, true, now, env)) &&
      (Fits(s, record, prime, env) <==> AddSucceeds(s, job, paused, true, now, env))
  {
    UnseatedIsRolledBack(s);
    FirstRecordStartable(when, s, job, paused, now);
    if AddSucceeds(s, job, paused, true, now, env) {
      InstalledIsAdded(when, s, job, paused, now, env);
    }
  }

  lemma InstalledIsAdded(when: Calculator, s: Core, job: Job, paused: bool, now: int, env: AddEnv)
    requires FreeOk(s) && AddSucceeds(s, job, paused, true, now, env)
    ensures
      Installed(when, s.(nextId := s.nextId + 1), FirstRecord(when, s, job, paused, now), !paused && ClockValid(s, now), now,
                env.push, env.pend) ==
      CoreModel.AddJob(when, s, job, paused, true, now, env)
  {
    if !paused && ClockValid(s, now) {
      PrimedIsScheduled(when, s, job, now, env);
    } else {
      SeatedIsPlaced(s, job, paused);
    }
  }

  lemma SeatedIsPlaced(s: Core, job: Job, paused: bool)
    requires FreeOk(s)
    ensures Indexed(Seated(s.(nextId := s.nextId + 1), FreshRecord(s.nextId, 1, job, paused)), s.nextId, AddSlot(s)) ==
      Placed(s, job, paused)
  {
  }

  /** Searching before the record is seated comes to the same as searching in its slot. */
  lemma PrimedIsScheduled(when: Calculator, s: Core, job: Job, now: int, env: AddEnv)
    requires FreeOk(s)
    ensures
      Installed(when, s.(nextId := s.nextId + 1), Search(when, FreshRecord(s.nextId, 1, job, false), now), true, now,
                env.push, env.pend) ==
      Schedule(when, Placed(s, job, false), AddSlot(s), now, env.push)
  {
    var k, p := AddSlot(s), Placed(s, job, false);
    SearchThenSeat(when, s, job, now);
    ArmAfterPut(p.(missed := MissedAfter(when, p.missed, p.jobs[k], now)), k, Search(when, p.jobs[k], now), env.push);
  }

  lemma SearchThenSeat(when: Calculator, s: Core, job: Job, now: int)
    requires FreeOk(s)
    ensures var p, r := Placed(s, job, false), Search(when, FreshRecord(s.nextId, 1, job, false), now);
      Indexed(Seated(s.(nextId := s.nextId + 1), r), r.id, AddSlot(s)) ==
      Put(p, AddSlot(s), Search(when, p.jobs[AddSlot(s)], now))
  {
    var p, k, f := Placed(s, job, false), AddSlot(s), FreshRecord(s.nextId, 1, job, false);
    SearchIgnoresGeneration(when, f, p.jobs[k].generation, now);
    assert p.jobs[k] == f.(generation := p.jobs[k].generation);
    if |s.free| == 0 {
      assert s.jobs + [Search(when, f, now)] == p.jobs[k := Search(when, f, now)];
    }
  }

  lemma SearchIgnoresGeneration(when: Calculator, r: JobRecord, generation: nat, from: int)
    ensures Search(when, r.(generation := generation), from) == Search(when, r, from).(generation := generation)
  {
  }

  /** What addJob returns. */
  function AddAnswer(s: Core, job: Job, paused: bool, callback: bool, now: int, env: AddEnv): AddResult {
    if !callback || !Validate(job.schedule) then InvalidSchedule
    else if AddSucceeds(s, job, paused, callback, now, env) then Added(s.nextId)
    else NoMemory
  }

  /** A successful addJob leaves its job live; a failed one leaves everything observable as it was. */
  ghost predicate AddEnds(when: Calculator, s: Core, job: Job, paused: bool, callback: bool, now: int, env: AddEnv) {
    var t := Step(when, s, Add(job, paused, callback, now, env));
    if AddSucceeds(s, job, paused, callback, now, env) then LiveAt(t.jobs, AddSlot(s), s.nextId) else SameLiveState(s, t)
  }

  lemma AddEndsWell(when: Calculator, s: Core, job: Job, paused: bool, callback: bool, now: int, env: AddEnv)
    requires Inv(s)
    ensures AddEnds(when, s, job, paused, callback, now, env)
  {
    if AddSucceeds(s, job, paused, callback, now, env) {
      AddedIsLive(when, s, job, paused, now, env);
    } else {
      FailedAddKeepsAll(when, s, job, paused, callback, now, env);
    }
  }

  lemma AddedIsLive(when: Calculator, s: Core, job: Job, paused: bool, now: int, env: AddEnv)
    requires FreeOk(s) && AddSucceeds(s, job, paused, true, now, env)
    ensures LiveAt(CoreModel.AddJob(when, s, job, paused, true, now, env).jobs, AddSlot(s), s.nextId)
  {
    PlacedIsLive(s, job, paused);
  }

  lemma PlacedIsLive(s: Core, job: Job, paused: bool)
    requires FreeOk(s)
    ensures LiveAt(Placed(s, job, paused).jobs, AddSlot(s), s.nextId)
  {
  }
}
