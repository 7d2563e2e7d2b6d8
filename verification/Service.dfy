/**
 The service task around the core (service/scheduler_service.cpp): it delivers completion
 events, refreshes schedules when the local day or the time zone changes, dispatches what
 is due and decides how long to sleep.
 */
module Services {
  import opened Wrappers
  import opened Calendar
  import opened ScheduleCalculator
  import opened CoreModel
  import opened CoreHistory
  import opened DispatchPass
  import opened CoreTheorems
  import opened SchedulerCores

  const IDLE_POLL_MS := 1000

  /** Start of the local day after the one now falls in. */
  function NextLocalMidnight(a: Almanac, now: int): (t: int)
    ensures now < t <= now + DAY
    ensures LocalDay(a, t) == LocalDay(a, now) + 1 && forall u :: now <= u < t ==> LocalDay(a, u) == LocalDay(a, now)
  {
    StartOfDayLocal(a, now + DAY)
  }

  /** The earlier of the next due time, if there is one, and the next local midnight. */
  function WakeAt(a: Almanac, now: int, nextDue: Option<int>): int {
    if nextDue.Some? && nextDue.value <= NextLocalMidnight(a, now) then nextDue.value else NextLocalMidnight(a, now)
  }

  /** The wait in milliseconds as the 32-bit number the source converts it to. The bound shows that the
      conversion loses nothing, and the idle poll is never the answer. */
  method NextWakeMs(a: Almanac, now: int, nextDue: Option<int>, idlePollMs: nat) returns (wait: nat)
    ensures wait == 1000 * (if WakeAt(a, now, nextDue) > now then WakeAt(a, now, nextDue) - now else 0)
    ensures wait <= 1000 * DAY
  {
    var wake, hasWake := 0, false;
    if nextDue.Some? {
      wake, hasWake := nextDue.value, true;
    }
    var midnight := StartOfDayLocal(a, now + DAY);
    if !hasWake || midnight < wake {
      wake, hasWake := midnight, true;
    }
    if !hasWake {
      return idlePollMs;
    }
    if wake <= now {
      return 0;
    }
    return ((wake - now) * 1000) % 0x1_0000_0000;
  }

  /** No job has a next run at or before now. */
  ghost predicate NoneDue(jobs: seq<JobRecord>, now: int) {
    forall k :: 0 <= k < |jobs| && jobs[k].hasNext ==> jobs[k].nextRun > now
  }

  /** The wait ends at the earliest next run of any armed job or at the next local midnight; it is never
      zero and never more than a day. A job that is only pending has no next run yet and is not waited for. */
  ghost predicate SleepsUntilNextRun(a: Almanac, s: Core, now: int, next: Option<int>, wait: nat) {
    EarliestRun(s, next) && wait == 1000 * (WakeAt(a, now, next) - now) && 0 < wait <= 1000 * DAY
  }

  /** On a valid clock nothing due is left and the sleep lasts until the next armed run; on an invalid one
      it is a poll. */
  ghost predicate Slept(a: Almanac, s: Core, now: int, next: Option<int>, wait: nat) {
    if ClockValid(s, now) then NoneDue(s.jobs, now) && SleepsUntilNextRun(a, s, now, next, wait) else wait == IDLE_POLL_MS
  }

  // ---------- What a turn appends to the run ----------

  datatype Tick = Tick(drains: seq<Label>, pass: seq<Label>, states: seq<Core>, prunes: seq<Label>)

  function TickLabels(t: Tick): seq<Label> { t.drains + t.pass + t.prunes }

  /** From the state that base leads to: the whole pending list is drained, then one pass of the dispatch loop
      with the given answers, then prunes; nothing at all on an invalid clock. */
  ghost predicate Ticks(when: Calculator, run: seq<Label> -> Core, base: seq<Label>, now: int, env: nat -> Env, t: Tick) {
    if ClockValid(run(base), now) then
      t.drains == DrainLabels(now, env, |run(base).pending|) && IsPass(when, t.pass, t.states, now) &&
      t.states[0] == run(base + t.drains) && AnswersFrom(t.pass, env) && MorePrunes([], t.prunes)
    else t.drains == [] && t.pass == [] && t.prunes == []
  }

  /** Whether refreshTimeContextIfNeeded refreshes. */
  predicate NeedsRefresh(requested: bool, last: Option<int>, dayStart: int) {
    requested || (last.Some? && last.value != dayStart)
  }

  /** refreshAllSchedules from the state that base leads to, if it is needed. */
  ghost function RefreshSteps(run: seq<Label> -> Core, base: seq<Label>, needed: bool, now: int, grow: nat -> bool): seq<Label> {
    if needed then RefreshLabels(run(base).jobs, |run(base).jobs|, now, grow) else []
  }

  // ---------- Completion events ----------

  /** No more events in the queue than invocations in flight, for the events that name the record their slot
      holds; events that name no record may be there too. */
  ghost predicate Genuine(events: seq<Invocation>, jobs: seq<JobRecord>, inflight: multiset<Invocation>) {
    forall e :: e in events && Matching(jobs, e) ==> multiset(events)[e] <= inflight[e]
  }

  /** The state after the first n events were handled, each at its own time and with its own answers. */
  ghost function HandledAll(
    when: Calculator, s: Core, events: seq<Invocation>, now: nat -> int, env: nat -> Env, n: nat): Core
    requires n <= |events|
  {
    if n == 0 then s else Handled(when, HandledAll(when, s, events, now, env, n - 1), events[n - 1], now(n - 1), env(n - 1))
  }

  lemma MatchedBefore(when: Calculator, s: Core, v: Invocation, now: int, env: Env, e: Invocation)
    requires Matching(Handled(when, s, v, now, env).jobs, e)
    ensures Matching(s.jobs, e)
  {
    if Matching(s.jobs, v) {
      var u, retired := CompleteShape(when, s, v.slot, now, env);
      assert e.slot != v.slot ==> Closed(u, v.slot, retired, env.grow).jobs[e.slot] == s.jobs[e.slot];
    }
  }

  /** Handling the first event leaves the rest as genuine as before. */
  lemma StillGenuine(when: Calculator, s: Core, events: seq<Invocation>, now: int, env: Env)
    requires events != [] && Genuine(events, s.jobs, s.inflight)
    ensures Matching(s.jobs, events[0]) ==> events[0] in s.inflight
    ensures var t := Handled(when, s, events[0], now, env); Genuine(events[1..], t.jobs, t.inflight)
  {
    var v, t := events[0], Handled(when, s, events[0], now, env);
    assert events == [v] + events[1..];
    forall e | e in events[1..] && Matching(t.jobs, e)
      ensures multiset(events[1..])[e] <= t.inflight[e]
    {
      MatchedBefore(when, s, v, now, env, e);
      if Matching(s.jobs, v) {
        CompleteInflight(when, s, v.slot, now, env);
      }
    }
  }

  lemma CompleteInflight(when: Calculator, s: Core, k: nat, now: int, env: Env)
    requires k < |s.jobs|
    ensures s.inflight - multiset{InvocationOf(s.jobs[k], k)} <= Complete(when, s, k, now, env).inflight
  {
    var s1 := Finished(s, k);
    if Deferred(s1.jobs[k]) {
      DispatchInflight(when, Put(s1, k, s1.jobs[k].(queued := false)), k, now, env, true);
    }
  }

  lemma DispatchInflight(when: Calculator, s: Core, k: nat, now: int, env: Env, deferred: bool)
    requires k < |s.jobs|
    ensures s.inflight <= DispatchOne(when, s, k, now, env, deferred).inflight
  {
    if s.jobs[k].job.dispatch.Inline? {
      InlineInflight(when, s, k, now, env);
    } else {
      AsyncInflight(when, s, k, now, env, deferred);
    }
  }

  lemma InlineInflight(when: Calculator, s: Core, k: nat, now: int, env: Env)
    requires k < |s.jobs|
    ensures DispatchInline(when, s, k, now, env).inflight == s.inflight
  {
    var r := s.jobs[k];
    var s1 := Advance(when, s, k, r.nextRun, OneShot(r.job), env.push);
    AdvanceInflight(when, s, k, r.nextRun, OneShot(r.job), env.push);
    SettleInflight(s1, k, r.nextRun, now, env);
  }

  lemma SettleInflight(s: Core, k: nat, due: int, now: int, env: Env)
    requires k < |s.jobs|
    ensures Settle(Finished(Submitted(s, k, due, now), k), k, now, env).inflight == s.inflight
  {
  }

  lemma AsyncInflight(when: Calculator, s: Core, k: nat, now: int, env: Env, deferred: bool)
    requires k < |s.jobs|
    ensures s.inflight <= DispatchAsync(when, s, k, now, env, deferred).inflight
  {
    var r := s.jobs[k];
    AdvanceInflight(when, Submitted(s, k, r.nextRun, now), k, r.nextRun, deferred || OneShot(r.job), env.push);
  }

  lemma AdvanceInflight(when: Calculator, s: Core, k: nat, due: int, stop: bool, push: bool)
    requires k < |s.jobs|
    ensures var t := Advance(when, s, k, due, stop, push);
      t.inflight == s.inflight && |t.jobs| == |s.jobs| && InvocationOf(t.jobs[k], k) == InvocationOf(s.jobs[k], k)
  {
  }

  class SchedulerService {
    const almanac: Almanac
    const core: SchedulerCore
    var events: seq<Invocation>
    var timeContextRefreshRequested: bool
    var lastObservedLocalDayStart: Option<int>
    var activeInvocationCount: nat

    ghost predicate Valid()
      reads this, core, core.heap, core.index, core.index.entries
    {
      core.Valid() && Genuine(events, core.jobs, core.inflight)
    }

    constructor (almanac: Almanac, core: SchedulerCore)
      requires core.Valid()
      ensures Valid() && this.almanac == almanac && this.core == core && events == []
      ensures !timeContextRefreshRequested && lastObservedLocalDayStart.None?
    {
      this.almanac := almanac;
      this.core := core;
      events, timeContextRefreshRequested, lastObservedLocalDayStart, activeInvocationCount := [], false, None, 0;
    }

    /** Handles the oldest event. */
    method DeliverOne(now: int, env: Env)
      requires core.Usable() && events != []
      modifies this`events, core, core.heap, core.index, core.index.entries
      ensures core.Usable() && events == old(events)[1..] && core.index.entries == old(core.index.entries)
      ensures core.View() == Handled(core.when, old(core.View()), old(events)[0], now, env)
      ensures core.minValid == old(core.minValid)
      ensures old(Valid()) ==> Valid() && core.trace == old(core.trace) + [Finish(old(events)[0], now, env)]
    {
      var event := events[0];
      if Valid() {
        StillGenuine(core.when, core.View(), events, now, env);
      }
      events := events[1..];
      core.HandleEvent(event, now, env);
    }

    /** The first k of all the events have been handled, since the core was in state s with trace base; if `valid`,
        as steps of the model. */
    ghost predicate Delivering(
      s: Core, base: seq<Label>, all: seq<Invocation>, valid: bool, now: nat -> int, env: nat -> Env, k: nat)
      reads this, core, core.heap, core.index, core.index.entries
    {
      core.Usable() && k <= |all| && events == all[k..] && core.View() == HandledAll(core.when, s, all, now, env, k) &&
      (valid ==> Valid() && core.trace == base + Completions(all[..k], now, env))
    }

    method DeliverNext(k: nat, now: nat -> int, env: nat -> Env, ghost s: Core, ghost base: seq<Label>,
                       ghost all: seq<Invocation>, ghost valid: bool)
      requires Delivering(s, base, all, valid, now, env, k) && k < |all|
      modifies this`events, core, core.heap, core.index, core.index.entries
      ensures Delivering(s, base, all, valid, now, env, k + 1) && |events| < |old(events)|
      ensures core.index.entries == old(core.index.entries) && core.minValid == old(core.minValid)
    {
      DeliverOne(now(k), env(k));
      assert all[..k + 1][..k] == all[..k];
    }

    /** Every queued event is handled, in order; one that names no record changes nothing. If no record has more
        events than invocations in flight, these are steps of the model. */
    method DrainEvents(now: nat -> int, env: nat -> Env)
      requires core.Usable()
      modifies this`events, core, core.heap, core.index, core.index.entries
      ensures core.Usable() && events == [] && core.index.entries == old(core.index.entries)
      ensures core.View() == HandledAll(core.when, old(core.View()), old(events), now, env, |old(events)|)
      ensures core.minValid == old(core.minValid)
      ensures old(Valid()) ==> Valid() && core.trace == old(core.trace) + Completions(old(events), now, env)
    {
      ghost var s, base, all, valid := core.View(), core.trace, events, Valid();
      var k := 0;
      while |events| > 0
        invariant k <= |all| && |events| == |all| - k && Delivering(s, base, all, valid, now, env, k)
        invariant core.index.entries == old(core.index.entries) && core.minValid == old(core.minValid)
        decreases |events|
      {
        DeliverNext(k, now, env, s, base, all, valid);
        k := k + 1;
      }
      assert all[..k] == all;
    }

    /** Refreshes every schedule if that was asked for or the local day is not the one seen last. */
    method RefreshTimeContextIfNeeded(now: int, grow: nat -> bool)
      requires core.Valid()
      modifies this`timeContextRefreshRequested, this`lastObservedLocalDayStart
      modifies core`jobs, core`missed, core`trace, core.heap
      ensures core.Valid() && !timeContextRefreshRequested
      ensures lastObservedLocalDayStart == Some(StartOfDayLocal(almanac, now))
      ensures
        var needed := NeedsRefresh(old(timeContextRefreshRequested), old(lastObservedLocalDayStart), StartOfDayLocal(almanac, now));
        core.trace == old(core.trace) + RefreshSteps(core.run, old(core.trace), needed, now, grow) &&
        (if needed then AllRefreshed(core.when, old(core.jobs), core.jobs, now, grow) else core.View() == old(core.View()))
    {
      var refresh := timeContextRefreshRequested;
      timeContextRefreshRequested := false;
      var dayStart := StartOfDayLocal(almanac, now);
      if lastObservedLocalDayStart.None? {
        lastObservedLocalDayStart := Some(dayStart);
      } else if dayStart != lastObservedLocalDayStart.value {
        lastObservedLocalDayStart := Some(dayStart);
        refresh := true;
      }
      if refresh {
        core.RefreshAllSchedules(now, grow);
      }
    }

    /** How long to sleep when nothing is due. */
    method ChooseWait(now: int) returns (wait: nat, ghost next: Option<int>, ghost prunes: seq<Label>)
      requires core.Valid() && NoneDue(core.jobs, now)
      modifies core`trace, core.heap
      ensures core.Valid() && SleepsUntilNextRun(almanac, core.View(), now, next, wait)
      ensures core.trace == old(core.trace) + prunes && MorePrunes([], prunes)
    {
      var nextDue;
      nextDue, prunes := core.NextDueEpoch();
      wait := NextWakeMs(almanac, now, nextDue, IDLE_POLL_MS);
      next := nextDue;
    }

    /** Drains and dispatches. */
    method Dispatch(now: int, env: nat -> Env) returns (ghost tick: Tick)
      requires core.Valid()
      modifies core, core.heap, core.index, core.index.entries
      ensures core.Valid() && core.minValid == old(core.minValid) && core.index.entries == old(core.index.entries)
      ensures tick.prunes == []
      ensures core.trace == old(core.trace) + TickLabels(tick)
      ensures Ticks(core.when, core.run, old(core.trace), now, env, tick)
      ensures now >= core.minValid ==> NoneDue(core.jobs, now)
      ensures now >= core.minValid && (forall i :: env(i).push) ==> OnlyExhausted(core.when, core.View(), now)
    {
      ghost var base := core.trace;
      ghost var drains, pass, states := core.DispatchDue(now, env);
      tick := Tick(drains, pass, states, []);
      assert base + drains + pass == base + TickLabels(tick);
    }

    method DispatchAndCount(now: int, env: nat -> Env) returns (ghost tick: Tick)
      requires core.Valid()
      modifies this`activeInvocationCount, core, core.heap, core.index, core.index.entries
      ensures core.Valid() && core.minValid == old(core.minValid) && core.index.entries == old(core.index.entries)
      ensures activeInvocationCount == |core.inflight| && tick.prunes == []
      ensures core.trace == old(core.trace) + TickLabels(tick)
      ensures Ticks(core.when, core.run, old(core.trace), now, env, tick)
      ensures now >= core.minValid ==> NoneDue(core.jobs, now)
      ensures now >= core.minValid && (forall i :: env(i).push) ==> OnlyExhausted(core.when, core.View(), now)
    {
      tick := Dispatch(now, env);
      activeInvocationCount := core.ActiveInvocationCount();
    }

    method DispatchAndWait(now: int, env: nat -> Env) returns (wait: nat, ghost next: Option<int>, ghost tick: Tick)
      requires core.Valid()
      modifies this`activeInvocationCount, core, core.heap, core.index, core.index.entries
      ensures core.Valid() && activeInvocationCount == |core.inflight|
      ensures Slept(almanac, core.View(), now, next, wait)
      ensures core.trace == old(core.trace) + TickLabels(tick) && Ticks(core.when, core.run, old(core.trace), now, env, tick)
      ensures now >= core.minValid && (forall i :: env(i).push) ==> OnlyExhausted(core.when, core.View(), now)
    {
      ghost var base := core.trace;
      tick := DispatchAndCount(now, env);
      wait, next := IDLE_POLL_MS, None;
      if now >= core.minValid {
        ghost var prunes;
        wait, next, prunes := ChooseWait(now);
        tick := tick.(prunes := prunes);
        assert base + (tick.drains + tick.pass + []) + prunes == base + TickLabels(tick);
      }
    }

    /** One turn of the service loop once commands are drained. It handles the queued events, refreshes if
        needed, drains and dispatches, and does nothing else; then it sleeps until the next armed run. If the
        heap can always grow, what is left pending are only inline jobs whose search found nothing. */
    method Turn(now: int, eventTimes: nat -> int, eventEnv: nat -> Env, grow: nat -> bool, env: nat -> Env)
      returns (wait: nat, ghost next: Option<int>, ghost refreshes: seq<Label>, ghost tick: Tick)
      requires Valid()
      modifies this, core, core.heap, core.index, core.index.entries
      ensures Valid() && events == [] && activeInvocationCount == |core.inflight|
      ensures !timeContextRefreshRequested && lastObservedLocalDayStart == Some(StartOfDayLocal(almanac, now))
      ensures Slept(almanac, core.View(), now, next, wait)
      ensures now >= core.minValid && (forall i :: env(i).push) ==> OnlyExhausted(core.when, core.View(), now)
      ensures
        var handled := old(core.trace) + Completions(old(events), eventTimes, eventEnv);
        var needed := NeedsRefresh(old(timeContextRefreshRequested), old(lastObservedLocalDayStart), StartOfDayLocal(almanac, now));
        refreshes == RefreshSteps(core.run, handled, needed, now, grow) &&
        Ticks(core.when, core.run, handled + refreshes, now, env, tick) &&
        core.trace == handled + refreshes + TickLabels(tick)
    {
      core.ValidIsUsable();
      DrainEvents(eventTimes, eventEnv);
      ghost var handled := core.trace;
      RefreshTimeContextIfNeeded(now, grow);
      refreshes := core.trace[|handled|..];
      wait, next, tick := DispatchAndWait(now, env);
    }
  }
}
