/**
 A cron job in one dispatchDue pass (core/scheduler_core.cpp): with an accepting executor
 and no allocation failure, the dispatched due times are exactly the matching minutes.
 */
module CronPass {
  import opened Wrappers
  import opened Calendar
  import opened ScheduleCalculator
  import opened DueHeaps
  import opened CoreModel
  import opened CoreInvariant
  import opened CoreSteps
  import opened CoreHistory
  import opened DispatchPass

  // ---------- The reference: all matching times of an interval ----------

  /** The times of [from, to] that satisfy p, in order. */
  ghost function Occurrences(p: int -> bool, from: int, to: int): seq<int>
    decreases to - from
  {
    if to < from then [] else Occurrences(p, from, to - 1) + if p(to) then [to] else []
  }

  lemma {:induction false} OccurrencesSkip(p: int -> bool, from: int, x: int, y: int)
    requires x <= y && forall u :: x < u <= y ==> !p(u)
    ensures Occurrences(p, from, y) == Occurrences(p, from, x)
    decreases y - x
  {
    if y < from {
    } else if x < y {
      OccurrencesSkip(p, from, x, y - 1);
    }
  }

  lemma OccurrencesLast(p: int -> bool, from: int, y: int)
    requires from <= y
    ensures p(y) ==> y in Occurrences(p, from, y)
    ensures !p(y) ==> Occurrences(p, from, y) == Occurrences(p, from, y - 1)
  {
  }

  lemma {:induction false} OccurrencesUpTo(p: int -> bool, from: int, x: int, y: int)
    requires x <= y && forall u :: u in Occurrences(p, from, y) ==> u <= x
    ensures Occurrences(p, from, y) == Occurrences(p, from, x)
    decreases y - x
  {
    if x < y && from <= y {
      OccurrencesLast(p, from, y);
      OccurrencesUpTo(p, from, x, y - 1);
    }
  }

  /** Due times submitted under id, in order. */
  function DuesOf(log: seq<Submission>, id: nat): seq<int> {
    if log == [] then []
    else DuesOf(log[..|log| - 1], id) + if log[|log| - 1].id == id then [log[|log| - 1].due] else []
  }

  lemma {:induction false} DuesOfOthers(log: seq<Submission>, more: seq<Submission>, id: nat)
    requires forall i :: 0 <= i < |more| ==> more[i].id != id
    ensures DuesOf(log + more, id) == DuesOf(log, id)
    decreases |more|
  {
    if more == [] {
      assert log + more == log;
    } else {
      var last := |more| - 1;
      assert (log + more)[..|log + more| - 1] == log + more[..last];
      DuesOfOthers(log, more[..last], id);
    }
  }

  lemma DuesOfNext(log: seq<Submission>, sub: Submission)
    ensures DuesOf(log + [sub], sub.id) == DuesOf(log, sub.id) + [sub.due]
  {
    assert (log + [sub])[..|log|] == log;
  }

  // ---------- The job under observation ----------

  /** A live cron job that every due entry dispatches: inline, or asynchronous and allowed to run in parallel. */
  ghost predicate ExactCronJob(r: JobRecord) {
    Live(r) && !r.paused && !OneShot(r.job) && r.job.schedule.kind.Cron? &&
    (r.job.dispatch.Inline? || r.job.overlap.AllowParallel?)
  }

  /** The bounded search for an arbitrary predicate. */
  ghost function SearchFrom(p: int -> bool, from: int): Option<int> {
    FirstHit(p, RoundToNextMinute(from), SearchLimit(from))
  }

  /** p holds of whole minutes only, and the calculator's answer for spec is the search for p. */
  ghost predicate Describes(when: Calculator, spec: ScheduleSpec, p: int -> bool) {
    (forall u :: p(u) ==> u % MINUTE == 0) &&
    (forall from :: when(spec, from) == SearchFrom(p, from))
  }

  lemma FiresDescribes(a: Almanac, spec: ScheduleSpec)
    requires ResolvedKind(spec).Cron?
    ensures Describes(CalculatorOf(a), spec, Fires(a, spec))
  {
  }

  /** From `first` on, `dues` has been dispatched; the record's next run is what is left to do. */
  ghost predicate Progress(p: int -> bool, r: JobRecord, first: int, dues: seq<int>, now: int) {
    (forall i :: 0 <= i < |dues| ==> dues[i] <= now) &&
    if r.hasNext then
      first <= r.nextRun && p(r.nextRun) && dues == Occurrences(p, first, r.nextRun - 1)
    else
      dues != [] && dues == Occurrences(p, first, dues[|dues| - 1]) &&
      SearchFrom(p, dues[|dues| - 1] + MINUTE).None?
  }

  /** The next occurrence after a match skips nothing. */
  lemma NextSkipsNothing(p: int -> bool, due: int, t: int)
    requires (forall u :: p(u) ==> u % MINUTE == 0) && p(due) && SearchFrom(p, due + MINUTE) == Some(t)
    ensures due < t && p(t) && forall u :: due < u < t ==> !p(u)
  {
    FirstHitIsLeast(p, RoundToNextMinute(due + MINUTE), SearchLimit(due + MINUTE));
    assert RoundToNextMinute(due + MINUTE) == due + MINUTE;
  }

  lemma ProgressNext(p: int -> bool, r: JobRecord, q: JobRecord, first: int, dues: seq<int>, now: int)
    requires (forall u :: p(u) ==> u % MINUTE == 0) && Progress(p, r, first, dues, now)
    requires r.hasNext && r.nextRun <= now
    requires match SearchFrom(p, r.nextRun + MINUTE)
      case Some(t) => q.hasNext && q.nextRun == t
      case None => !q.hasNext
    ensures Progress(p, q, first, dues + [r.nextRun], now)
  {
    assert Occurrences(p, first, r.nextRun) == dues + [r.nextRun];
    if q.hasNext {
      NextSkipsNothing(p, r.nextRun, q.nextRun);
      OccurrencesSkip(p, first, r.nextRun, q.nextRun - 1);
    }
  }

  // ---------- One turn of the loop ----------

  /** From s to t the job in slot k was submitted for its next run and moved to the one after. */
  ghost predicate OwnEffect(when: Calculator, s: Core, t: Core, k: nat, now: int)
    requires k < |s.jobs|
  {
    k < |t.jobs| &&
    var r, q := s.jobs[k], t.jobs[k];
    t.log == s.log + [Submission(r.id, r.job, r.nextRun, now)] &&
    ExactCronJob(q) && q.id == r.id && q.job == r.job &&
    match when(r.job.schedule, r.nextRun + MINUTE)
      case Some(n) => q.hasNext && q.nextRun == n
      case None => !q.hasNext
  }

  /** The state in which an accepted inline submission is settled. */
  ghost function Settling(when: Calculator, s: Core, e: DueEntry, now: int): Core
    requires e.slot < |s.jobs|
  {
    var r := s.jobs[e.slot];
    var s2 := Advance(when, PopEntry(s, e), e.slot, r.nextRun, false, true);
    s2.(log := s2.log + [Submission(r.id, r.job, r.nextRun, now)])
  }

  lemma SettlingEffect(when: Calculator, s: Core, e: DueEntry, now: int, env: Env)
    requires e.slot < |s.jobs| && ExactCronJob(s.jobs[e.slot])
    requires s.jobs[e.slot].running == 0 && !s.jobs[e.slot].refreshPending
    ensures e.slot < |Settling(when, s, e, now).jobs|
    ensures OwnEffect(when, s, Settle(Settling(when, s, e, now), e.slot, now, env), e.slot, now)
  {
    OwnAdvance(when, PopEntry(s, e), e.slot);
    OwnSettle(Settling(when, s, e, now), e.slot, now, env);
  }

  lemma EntryIsInline(when: Calculator, s: Core, e: DueEntry, now: int, env: Env)
    requires ValidEntry(s, e) && ExactCronJob(s.jobs[e.slot]) && s.jobs[e.slot].running == 0
    requires s.jobs[e.slot].job.dispatch.Inline?
    ensures DispatchEntry(when, s, e, now, env) == DispatchInline(when, PopEntry(s, e), e.slot, now, env)
  {
  }

  lemma InlineIsSettled(when: Calculator, s: Core, k: nat, now: int, env: Env)
    requires k < |s.jobs| && !OneShot(s.jobs[k].job) && env.inlineExecutor && env.submit && env.push
    ensures var s1 := Advance(when, s, k, s.jobs[k].nextRun, false, true);
      k < |s1.jobs| &&
      DispatchInline(when, s, k, now, env) ==
      Settle(Finished(Submitted(s1, k, s.jobs[k].nextRun, now), k), k, now, env)
  {
  }

  /** What is left of dispatchEntry for an idle inline job whose submission is accepted. */
  lemma OwnTurn(when: Calculator, s: Core, e: DueEntry, now: int, env: Env)
    requires ValidEntry(s, e) && ExactCronJob(s.jobs[e.slot]) && s.jobs[e.slot].running == 0
    requires s.jobs[e.slot].job.dispatch.Inline? && env.inlineExecutor && env.submit && env.push
    ensures e.slot < |Settling(when, s, e, now).jobs|
    ensures DispatchEntry(when, s, e, now, env) == Settle(Settling(when, s, e, now), e.slot, now, env)
  {
    var k, r := e.slot, s.jobs[e.slot];
    EntryIsInline(when, s, e, now, env);
    InlineIsSettled(when, PopEntry(s, e), k, now, env);
    SameJobAdvanced(when, PopEntry(s, e), k, r.nextRun);
    InlineRoundTrip(Advance(when, PopEntry(s, e), k, r.nextRun, false, true), k, r.nextRun, now);
  }

  /** An accepted parallel asynchronous dispatch. */
  lemma ParallelTurn(when: Calculator, s: Core, e: DueEntry, now: int, env: Env)
    requires ValidEntry(s, e) && ExactCronJob(s.jobs[e.slot]) && !s.jobs[e.slot].job.dispatch.Inline?
    requires !CannotSubmit(s.jobs[e.slot], env) && env.push && !s.jobs[e.slot].refreshPending
    ensures OwnEffect(when, s, DispatchEntry(when, s, e, now, env), e.slot, now)
  {
    var k, r := e.slot, s.jobs[e.slot];
    var s1 := Submitted(PopEntry(s, e), k, r.nextRun, now);
    assert s1.jobs[k] == r.(running := r.running + 1);
    OwnAdvance(when, s1, k);
    assert DispatchEntry(when, s, e, now, env) == Advance(when, s1, k, r.nextRun, false, true);
  }

  lemma SameJobAdvanced(when: Calculator, s: Core, k: nat, due: int)
    requires k < |s.jobs|
    ensures var t := Advance(when, s, k, due, false, true);
      k < |t.jobs| && t.jobs[k].id == s.jobs[k].id && t.jobs[k].job == s.jobs[k].job
  {
  }

  /** The executor accepts the job of r, and the heap can take its next occurrence. */
  predicate Accepted(r: JobRecord, env: Env) {
    env.push && if r.job.dispatch.Inline? then env.inlineExecutor && env.submit else !CannotSubmit(r, env)
  }

  /** Dispatching the job itself logs its due time and moves it to its next occurrence. */
  lemma OwnDispatch(when: Calculator, s: Core, e: DueEntry, now: int, env: Env)
    requires Inv(s) && ValidEntry(s, e) && ExactCronJob(s.jobs[e.slot]) && Accepted(s.jobs[e.slot], env)
    ensures OwnEffect(when, s, DispatchEntry(when, s, e, now, env), e.slot, now)
  {
    assert SlotOk(s, e.slot);
    if s.jobs[e.slot].job.dispatch.Inline? {
      OwnTurn(when, s, e, now, env);
      SettlingEffect(when, s, e, now, env);
    } else {
      ParallelTurn(when, s, e, now, env);
    }
  }

  lemma OwnAdvance(when: Calculator, s: Core, k: nat)
    requires k < |s.jobs| && ExactCronJob(s.jobs[k]) && !s.jobs[k].refreshPending
    ensures var t, r := Advance(when, s, k, s.jobs[k].nextRun, false, true), s.jobs[k];
      |t.jobs| == |s.jobs| && t.log == s.log && t.jobs[k] == r.(hasNext := t.jobs[k].hasNext, nextRun := t.jobs[k].nextRun) &&
      match when(r.job.schedule, r.nextRun + MINUTE)
        case Some(n) => t.jobs[k].hasNext && t.jobs[k].nextRun == n
        case None => !t.jobs[k].hasNext
  {
  }

  lemma OwnSettle(s: Core, k: nat, now: int, env: Env)
    requires k < |s.jobs| && ExactCronJob(s.jobs[k]) && !s.jobs[k].refreshPending && s.jobs[k].running == 0
    ensures var t := Settle(s, k, now, env);
      |t.jobs| == |s.jobs| && t.log == s.log && ExactCronJob(t.jobs[k]) && t.jobs[k].id == s.jobs[k].id &&
      t.jobs[k].job == s.jobs[k].job && t.jobs[k].hasNext == s.jobs[k].hasNext && t.jobs[k].nextRun == s.jobs[k].nextRun
  {
  }

  /** From s to t slot k is untouched and nothing was submitted under its id. */
  ghost predicate Untouched(s: Core, t: Core, k: nat)
    requires k < |s.jobs|
  {
    k < |t.jobs| && t.jobs[k] == s.jobs[k] && |s.log| <= |t.log| && t.log[..|s.log|] == s.log &&
    forall i :: |s.log| <= i < |t.log| ==> t.log[i].id != s.jobs[k].id
  }

  lemma ClosedUntouched(s: Core, u: Core, j: nat, retired: bool, grow: bool, k: nat)
    requires Tame(s, u, j) && k < |s.jobs| && k != j && s.jobs[k].id != s.jobs[j].id
    ensures Untouched(s, Closed(u, j, retired, grow), k)
  {
  }

  /** Dispatching another job leaves this one and its submissions alone. */
  lemma OtherDispatch(when: Calculator, s: Core, e: DueEntry, now: int, env: Env, k: nat)
    requires Inv(s) && ValidEntry(s, e) && k < |s.jobs| && k != e.slot && s.jobs[k].occupied
    ensures Untouched(s, DispatchEntry(when, s, e, now, env), k)
  {
    var u, retired := DispatchShape(when, s, e, now, env);
    assert s.index[s.jobs[k].id] == k && s.index[s.jobs[e.slot].id] == e.slot;
    ClosedUntouched(s, u, e.slot, retired, env.grow, k);
  }

  /** From s to t the job in slot k was submitted for exactly the due times `dues`. */
  ghost predicate Observed(p: int -> bool, s: Core, t: Core, k: nat, now: int, dues: seq<int>)
    requires k < |s.jobs|
  {
    k < |t.jobs| && ExactCronJob(t.jobs[k]) && t.jobs[k].id == s.jobs[k].id && t.jobs[k].job == s.jobs[k].job &&
    DuesOf(t.log, s.jobs[k].id) == DuesOf(s.log, s.jobs[k].id) + dues &&
    Progress(p, t.jobs[k], s.jobs[k].nextRun, dues, now)
  }

  /** One submission of the observed job, then its next occurrence. */
  lemma ObservedNext(when: Calculator, p: int -> bool, s: Core, t: Core, u: Core, k: nat, now: int, dues: seq<int>)
    requires k < |s.jobs| && Observed(p, s, t, k, now, dues)
    requires t.jobs[k].hasNext && t.jobs[k].nextRun <= now
    requires OwnEffect(when, t, u, k, now) && Describes(when, s.jobs[k].job.schedule, p)
    ensures Observed(p, s, u, k, now, dues + [t.jobs[k].nextRun])
  {
    DuesOfNext(t.log, Submission(t.jobs[k].id, t.jobs[k].job, t.jobs[k].nextRun, now));
    ProgressNext(p, t.jobs[k], u.jobs[k], s.jobs[k].nextRun, dues, now);
  }

  lemma ObservedSame(p: int -> bool, s: Core, t: Core, u: Core, k: nat, now: int, dues: seq<int>)
    requires k < |s.jobs| && Observed(p, s, t, k, now, dues)
    requires Untouched(t, u, k)
    ensures Observed(p, s, u, k, now, dues)
  {
    assert u.log == t.log + u.log[|t.log|..];
    DuesOfOthers(t.log, u.log[|t.log|..], s.jobs[k].id);
  }

  /** The loop turn, if it dispatches slot k, finds an executor that accepts the job of r. */
  predicate Accepts(l: Label, k: nat, r: JobRecord) {
    l.Dispatch? && l.entry.slot == k ==> Accepted(r, l.env)
  }

  lemma PruneUntouched(s: Core, e: DueEntry, k: nat)
    requires k < |s.jobs|
    ensures Untouched(s, PopEntry(s, e), k)
  {
  }

  /** The job in slot k was submitted for its next run, which was due, and moved on. */
  ghost predicate DueEffect(when: Calculator, s: Core, t: Core, k: nat, now: int)
    requires k < |s.jobs|
  {
    s.jobs[k].hasNext && s.jobs[k].nextRun <= now && OwnEffect(when, s, t, k, now)
  }

  lemma DispatchEffect(when: Calculator, s: Core, e: DueEntry, now: int, env: Env, k: nat)
    requires Inv(s) && ValidEntry(s, e) && e.epoch <= now && k < |s.jobs| && ExactCronJob(s.jobs[k])
    requires e.slot == k ==> Accepted(s.jobs[k], env)
    ensures var t := DispatchEntry(when, s, e, now, env);
      if e.slot == k then DueEffect(when, s, t, k, now) else Untouched(s, t, k)
  {
    if e.slot == k {
      OwnDispatch(when, s, e, now, env);
    } else {
      OtherDispatch(when, s, e, now, env, k);
    }
  }

  /** A turn submits the job in slot k for its next run and moves it on, or leaves it alone. */
  lemma TurnEffect(when: Calculator, s: Core, l: Label, t: Core, now: int, k: nat)
    requires Inv(s) && Turn(when, s, l, t, now) && k < |s.jobs| && ExactCronJob(s.jobs[k]) && Accepts(l, k, s.jobs[k])
    ensures if l.Dispatch? && l.entry.slot == k then DueEffect(when, s, t, k, now) else Untouched(s, t, k)
  {
    if l.Dispatch? {
      DispatchEffect(when, s, l.entry, now, l.env, k);
    } else {
      PruneUntouched(s, l.entry, k);
    }
  }

  lemma ObservedStep(when: Calculator, p: int -> bool, s: Core, t: Core, u: Core, now: int, k: nat, dues: seq<int>)
    returns (more: seq<int>)
    requires k < |s.jobs| && Observed(p, s, t, k, now, dues) && Describes(when, s.jobs[k].job.schedule, p)
    requires Untouched(t, u, k) || DueEffect(when, t, u, k, now)
    ensures Observed(p, s, u, k, now, more)
  {
    if Untouched(t, u, k) {
      ObservedSame(p, s, t, u, k, now, dues);
      more := dues;
    } else {
      ObservedNext(when, p, s, t, u, k, now, dues);
      more := dues + [t.jobs[k].nextRun];
    }
  }

  lemma ObservedAt(
    when: Calculator, p: int -> bool, pass: seq<Label>, states: seq<Core>, now: int, k: nat, n: nat, dues: seq<int>)
    returns (more: seq<int>)
    requires TurnAt(when, pass, states, now, n) && Inv(states[n]) && k < |states[0].jobs|
    requires Observed(p, states[0], states[n], k, now, dues)
    requires Describes(when, states[0].jobs[k].job.schedule, p) && Accepts(pass[n], k, states[0].jobs[k])
    ensures Inv(states[n + 1]) && Observed(p, states[0], states[n + 1], k, now, more)
  {
    TurnKeeps(when, states[n], pass[n], states[n + 1], now);
    TurnEffect(when, states[n], pass[n], states[n + 1], now, k);
    more := ObservedStep(when, p, states[0], states[n], states[n + 1], now, k, dues);
  }

  lemma PassObserved(when: Calculator, p: int -> bool, pass: seq<Label>, states: seq<Core>, now: int, k: nat)
    returns (dues: seq<int>)
    requires IsPass(when, pass, states, now) && Inv(states[0]) && k < |states[0].jobs| && ExactCronJob(states[0].jobs[k])
    requires forall i :: 0 <= i < |pass| ==> Accepts(pass[i], k, states[0].jobs[k])
    requires Describes(when, states[0].jobs[k].job.schedule, p)
    requires states[0].jobs[k].hasNext && p(states[0].jobs[k].nextRun)
    ensures Observed(p, states[0], states[|pass|], k, now, dues) && Inv(states[|pass|])
  {
    var n := 0;
    dues := [];
    while n < |pass|
      invariant n <= |pass| && Inv(states[n]) && Observed(p, states[0], states[n], k, now, dues)
    {
      dues := ObservedAt(when, p, pass, states, now, k, n, dues);
      n := n + 1;
    }
  }

  /** All matches of [first, now]; or, when no next run is left, all matches up to the last one, after
      which a whole search window holds no further match. */
  ghost predicate ExactDues(p: int -> bool, first: int, now: int, dues: seq<int>, hasNext: bool) {
    if hasNext then dues == Occurrences(p, first, now)
    else
      dues != [] && dues == Occurrences(p, first, dues[|dues| - 1]) &&
      SearchFrom(p, dues[|dues| - 1] + MINUTE).None?
  }

  /** What a pass that left nothing due at now has dispatched for the observed job. */
  lemma ProgressEnd(p: int -> bool, r: JobRecord, first: int, dues: seq<int>, now: int)
    requires Progress(p, r, first, dues, now) && (r.hasNext ==> r.nextRun > now)
    ensures ExactDues(p, first, now, dues, r.hasNext)
  {
    if r.hasNext {
      OccurrencesUpTo(p, first, now, r.nextRun - 1);
    }
  }

  /** A finished pass dispatches an inline or parallel cron job at exactly the matching minutes from its next run
      through now, none missed and none doubled, unless a gap exceeds the search window. */
  lemma CronDuesAreExact(a: Almanac, pass: seq<Label>, states: seq<Core>, now: int, k: nat)
    returns (dues: seq<int>)
    requires IsPass(CalculatorOf(a), pass, states, now) && Inv(states[0])
    requires k < |states[0].jobs| && ExactCronJob(states[0].jobs[k])
    requires forall i :: 0 <= i < |pass| ==> Accepts(pass[i], k, states[0].jobs[k])
    requires states[0].jobs[k].hasNext && Fires(a, states[0].jobs[k].job.schedule)(states[0].jobs[k].nextRun)
    requires forall e :: e in states[|pass|].heap ==> e.epoch > now
    ensures var s, t := states[0], states[|pass|];
      k < |t.jobs| && DuesOf(t.log, s.jobs[k].id) == DuesOf(s.log, s.jobs[k].id) + dues &&
      ExactDues(Fires(a, s.jobs[k].job.schedule), s.jobs[k].nextRun, now, dues, t.jobs[k].hasNext)
  {
    var s, t := states[0], states[|pass|];
    var p := Fires(a, s.jobs[k].job.schedule);
    FiresDescribes(a, s.jobs[k].job.schedule);
    dues := PassObserved(CalculatorOf(a), p, pass, states, now, k);
    NothingDueLeft(t, now, k);
    ProgressEnd(p, t.jobs[k], s.jobs[k].nextRun, dues, now);
  }
}
