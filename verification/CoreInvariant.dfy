/** The invariant that every step of the scheduler core keeps. */
module CoreInvariant {
  import opened DueHeaps
  import opened CoreModel

  function SumRunning(jobs: seq<JobRecord>): nat {
    if jobs == [] then 0 else SumRunning(jobs[..|jobs| - 1]) + jobs[|jobs| - 1].running
  }

  lemma {:induction false} SumUpdate(jobs: seq<JobRecord>, k: nat, r: JobRecord)
    requires k < |jobs|
    ensures SumRunning(jobs[k := r]) == SumRunning(jobs) - jobs[k].running + r.running
    decreases |jobs|
  {
    var last := |jobs| - 1;
    if k == last {
      assert jobs[k := r][..last] == jobs[..last];
    } else {
      SumUpdate(jobs[..last], k, r);
      assert jobs[k := r][..last] == jobs[..last][k := r];
    }
  }

  // ---------- Relations between the containers ----------

  /** Free-list entries are distinct unoccupied slots. */
  ghost predicate FreeOk(s: Core) {
    |s.free| <= s.freeCapacity &&
    (forall i :: 0 <= i < |s.free| ==> s.free[i] < |s.jobs| && !s.jobs[s.free[i]].occupied) &&
    (forall i, j :: 0 <= i < j < |s.free| ==> s.free[i] != s.free[j])
  }

  ghost predicate PendingOk(s: Core) {
    forall i :: 0 <= i < |s.pending| ==> s.pending[i] < |s.jobs|
  }

  /** No heap entry is newer than its slot, and a free slot is newer than all its entries. */
  ghost predicate HeapOk(s: Core) {
    forall e :: e in s.heap ==>
      e.slot < |s.jobs| && e.generation <= s.jobs[e.slot].generation &&
      (!s.jobs[e.slot].occupied ==> e.generation < s.jobs[e.slot].generation)
  }

  /** The index maps an id to a slot exactly when that slot is occupied by the id. */
  ghost predicate IndexOk(s: Core) {
    (forall id :: id in s.index ==>
      s.index[id] < |s.jobs| && s.jobs[s.index[id]].occupied && s.jobs[s.index[id]].id == id) &&
    (forall k :: 0 <= k < |s.jobs| && s.jobs[k].occupied ==>
      0 < s.jobs[k].id < s.nextId && s.jobs[k].id in s.index && s.index[s.jobs[k].id] == k)
  }

  /** Everything in flight still names the record it was submitted from. */
  ghost predicate InflightOk(s: Core) {
    SumRunning(s.jobs) == |s.inflight| &&
    forall v :: v in s.inflight ==>
      v.slot < |s.jobs| && s.jobs[v.slot].occupied && v == InvocationOf(s.jobs[v.slot], v.slot)
  }

  /** One-shot jobs are submitted once, and not early. */
  ghost predicate LogOk(log: seq<Submission>, nextId: nat) {
    (forall i :: 0 <= i < |log| ==> 0 < log[i].id < nextId) &&
    (forall i :: 0 <= i < |log| && OneShot(log[i].job) ==> log[i].at >= log[i].job.schedule.onceAt) &&
    (forall i, j :: 0 <= i < j < |log| && log[i].id == log[j].id ==> !OneShot(log[i].job))
  }

  ghost predicate Containers(s: Core) {
    s.nextId > 0 && FreeOk(s) && PendingOk(s) && HeapOk(s) && IndexOk(s) && InflightOk(s) &&
    LogOk(s.log, s.nextId)
  }

  // ---------- The state of one slot ----------

  /** What holds of the flags of a record, whatever the containers hold. */
  ghost predicate FlagsOk(r: JobRecord) {
    (!r.occupied ==> r.running == 0 && r.id == 0 && !r.canceled) &&
    (!r.occupied || r.canceled || r.paused ==> !r.hasNext && !r.pending && !r.queued && !r.refreshPending) &&
    (r.canceled ==> r.running > 0 && !r.paused) &&
    (r.pending ==> r.running == 0 && !r.hasNext) &&
    (r.queued ==> r.job.overlap.QueueOne? && r.running == 1 && !r.hasNext && !OneShot(r.job)) &&
    (r.refreshPending ==> r.running > 0 && !r.hasNext && !OneShot(r.job) && !r.job.overlap.AllowParallel?) &&
    (!r.job.overlap.AllowParallel? ==> r.running <= 1) &&
    (r.job.dispatch.Inline? ==> r.running == 0) &&
    (OneShot(r.job) ==> r.running <= 1) &&
    (OneShot(r.job) && r.hasNext ==> r.running == 0 && r.nextRun >= r.job.schedule.onceAt)
  }

  /** Past submissions under the record's id are submissions of this very job. */
  ghost predicate HistoryOk(log: seq<Submission>, r: JobRecord) {
    (forall i :: 0 <= i < |log| && log[i].id == r.id ==> log[i].job == r.job) &&
    (OneShot(r.job) && r.running == 0 ==> forall i :: 0 <= i < |log| ==> log[i].id != r.id)
  }

  ghost predicate SlotOk(s: Core, k: nat)
    requires k < |s.jobs|
  {
    var r := s.jobs[k];
    FlagsOk(r) &&
    (r.hasNext ==> EntryOf(r, k) in s.heap) &&
    (r.pending ==> k in s.pending) &&
    (r.occupied ==> r.running == s.inflight[InvocationOf(r, k)] && HistoryOk(s.log, r))
  }

  ghost predicate Inv(s: Core) {
    Containers(s) && forall k :: 0 <= k < |s.jobs| ==> SlotOk(s, k)
  }

  /** The invariant with slot k left out. */
  ghost predicate InvBut(s: Core, k: nat) {
    k < |s.jobs| && Containers(s) && (forall j :: 0 <= j < |s.jobs| && j != k ==> SlotOk(s, j))
  }

  // ---------- Steps that touch one occupied slot ----------

  /** From s to t only slot k changes; it stays occupied by the same job, and a canceled job stays
      canceled and submits nothing. */
  ghost predicate Tame(s: Core, t: Core, k: nat) {
    k < |s.jobs| == |t.jobs| &&
    t.jobs == s.jobs[k := t.jobs[k]] &&
    s.jobs[k].occupied && t.jobs[k].occupied &&
    t.jobs[k].id == s.jobs[k].id && t.jobs[k].generation == s.jobs[k].generation && t.jobs[k].job == s.jobs[k].job &&
    t.free == s.free && t.freeCapacity == s.freeCapacity && t.index == s.index && t.nextId == s.nextId &&
    (forall e: DueEntry :: e.slot != k ==> t.heap[e] == s.heap[e]) &&
    (forall e :: e in t.heap ==> e in s.heap || (e.slot == k && e.generation == s.jobs[k].generation)) &&
    (forall j :: j != k ==> (j in t.pending <==> j in s.pending)) &&
    t.inflight == s.inflight[InvocationOf(s.jobs[k], k) := t.inflight[InvocationOf(s.jobs[k], k)]] &&
    (s.jobs[k].running == s.inflight[InvocationOf(s.jobs[k], k)] ==>
      t.jobs[k].running == t.inflight[InvocationOf(s.jobs[k], k)]) &&
    (s.jobs[k].canceled ==> t.jobs[k].canceled && t.log == s.log) &&
    LogGrows(s, t, k)
  }

  /** New submissions belong to slot k. */
  ghost predicate LogGrows(s: Core, t: Core, k: nat)
    requires k < |s.jobs|
  {
    |s.log| <= |t.log| && t.log[..|s.log|] == s.log &&
    forall i :: |s.log| <= i < |t.log| ==> t.log[i].id == s.jobs[k].id && t.log[i].job == s.jobs[k].job
  }

  lemma LogGrowsOn(s: Core, t: Core, u: Core, k: nat)
    requires k < |s.jobs| && k < |t.jobs| && LogGrows(s, t, k) && LogGrows(t, u, k)
    requires t.jobs[k].id == s.jobs[k].id && t.jobs[k].job == s.jobs[k].job
    ensures LogGrows(s, u, k)
  {
    assert u.log[..|s.log|] == u.log[..|t.log|][..|s.log|];
    forall i | |s.log| <= i < |u.log|
      ensures u.log[i].id == s.jobs[k].id && u.log[i].job == s.jobs[k].job
    {
      if i < |t.log| {
        assert u.log[i] == u.log[..|t.log|][i];
      }
    }
  }

  lemma TameTransitive(s: Core, t: Core, u: Core, k: nat)
    requires Tame(s, t, k) && Tame(t, u, k)
    ensures Tame(s, u, k)
  {
    LogGrowsOn(s, t, u, k);
  }

  lemma OtherSlotsKept(s: Core, t: Core, k: nat, j: nat)
    requires Containers(s) && Tame(s, t, k) && j < |s.jobs| && j != k && SlotOk(s, j)
    ensures SlotOk(t, j)
  {
    var r := s.jobs[j];
    assert t.jobs[j] == r;
    assert InvocationOf(r, j) != InvocationOf(s.jobs[k], k);
    if r.occupied {
      forall i | 0 <= i < |t.log| && t.log[i].id == r.id
        ensures i < |s.log| && t.log[i] == s.log[i]
      {
        if i < |s.log| {
          assert t.log[i] == t.log[..|s.log|][i];
        }
      }
    }
  }

  lemma HeapAndIndexKept(s: Core, t: Core, k: nat)
    requires Tame(s, t, k) && HeapOk(s) && IndexOk(s)
    ensures HeapOk(t) && IndexOk(t)
  {
  }

  lemma ListsKept(s: Core, t: Core, k: nat)
    requires Tame(s, t, k) && FreeOk(s) && PendingOk(s)
    ensures FreeOk(t) && PendingOk(t)
  {
    forall i | 0 <= i < |t.pending|
      ensures t.pending[i] < |t.jobs|
    {
      assert t.pending[i] in t.pending;
    }
  }

  lemma InflightKept(s: Core, t: Core, k: nat)
    requires Tame(s, t, k) && InflightOk(s)
    requires s.jobs[k].running == s.inflight[InvocationOf(s.jobs[k], k)]
    ensures InflightOk(t)
  {
    SumUpdate(s.jobs, k, t.jobs[k]);
  }

  /** A tame step keeps everything but the state of its own slot. */
  lemma TameKeeps(s: Core, t: Core, k: nat)
    requires InvBut(s, k) && Tame(s, t, k) && LogOk(t.log, t.nextId)
    requires s.jobs[k].running == s.inflight[InvocationOf(s.jobs[k], k)]
    ensures InvBut(t, k) && t.jobs[k].running == t.inflight[InvocationOf(t.jobs[k], k)]
  {
    HeapAndIndexKept(s, t, k);
    ListsKept(s, t, k);
    InflightKept(s, t, k);
    forall j | 0 <= j < |t.jobs| && j != k
      ensures SlotOk(t, j)
    {
      OtherSlotsKept(s, t, k, j);
    }
  }

  lemma TameInv(s: Core, t: Core, k: nat)
    requires Inv(s) && Tame(s, t, k) && LogOk(t.log, t.nextId) && SlotOk(t, k)
    ensures Inv(t)
  {
    assert SlotOk(s, k);
    TameKeeps(s, t, k);
  }
}
