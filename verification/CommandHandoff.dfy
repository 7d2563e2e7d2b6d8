/**
 The hand-off of commands between callers and the service task (scheduler.cpp,
 service/scheduler_commands.cpp, service/scheduler_service.cpp). A caller allocates a
 command, sends it and waits; the service receives, executes, checks for abandonment,
 signals, and deletes what was abandoned. stop() answers what is still queued without
 executing it. The steps of any number of callers interleave with those of the service; a
 label that is not enabled changes nothing, so every sequence of labels is a run.
 */
module CommandHandoff {
  import opened Wrappers

  /** Where the caller of a command is in executeBackgroundCommand. */
  datatype CallerPhase =
    | Built                        // allocated and filled in
    | Refused                      // send failed, not yet deleted
    | Discarded                    // deleted after a failed send
    | Waiting                      // sent
    | TimedOut                     // wait failed, abandon not yet called
    | GaveUp                       // abandoned
    | Taken                        // wait succeeded, result not yet read
    | Holding(got: Option<int>)    // result read, command not yet deleted
    | Returned(got: Option<int>)   // deleted

  /** What the service has done with a command. Executing covers a half-written result. */
  datatype ServicePhase =
    | Outside
    | Received
    | Executing
    | Executed
    | Checked(shouldDelete: bool)
    | Signalled(shouldDelete: bool)
    | Finished(shouldDelete: bool)

  /** A command object. A result of None is the initial NotInitialized failure. */
  datatype Command = Command(
    caller: CallerPhase,
    service: ServicePhase,
    semaphore: bool,
    abandoned: bool,
    result: Option<int>,
    // history:
    executions: nat,
    callerFrees: nat,
    serviceFrees: nat)

  /** The service runs; stop() drains once the service loop has exited; the drain saw an empty queue; the queue is gone. */
  datatype Mode = Running | Draining | Drained | Closed

  datatype Handoff = Handoff(
    commands: seq<Command>,
    queue: seq<Option<nat>>, // None is the null pointer stop() sends to wake the service
    depth: nat,
    mode: Mode,
    serving: Option<nat>,
    // history:
    sent: seq<nat>,
    received: seq<nat>,
    fault: bool) // some step touched a deleted command

  datatype Label =
    // a caller
    | New | Send(c: nat) | Take(c: nat) | Timeout(c: nat) | Abandon(c: nat) | Read(c: nat) | Delete(c: nat)
    // the service, or stop() draining in its place
    | Receive | BeginExecute | EndExecute(answer: int) | Check | Signal | Dispose
    // stop()
    | Wake | TaskExit | DrainEnd | Close

  function Init(depth: nat): Handoff { Handoff([], [], depth, Running, None, [], [], false) }

  function Freed(m: Command): nat { m.callerFrees + m.serviceFrees }

  predicate Deleted(m: Command) { m.callerFrees > 0 || m.serviceFrees > 0 }

  predicate PhaseIs(s: Handoff, c: nat, caller: CallerPhase) { c < |s.commands| && s.commands[c].caller == caller }

  /** The command in the service's hands, if its phase is the given one. */
  predicate Serves(s: Handoff, service: ServicePhase) {
    s.serving.Some? && s.serving.value < |s.commands| && s.commands[s.serving.value].service == service
  }

  predicate Enabled(s: Handoff, l: Label) {
    match l
    case New => true
    case Send(c) => PhaseIs(s, c, Built)
    case Take(c) => PhaseIs(s, c, Waiting) && s.commands[c].semaphore
    case Timeout(c) => PhaseIs(s, c, Waiting) && !s.commands[c].semaphore
    case Abandon(c) => PhaseIs(s, c, TimedOut)
    case Read(c) => PhaseIs(s, c, Taken)
    case Delete(c) => c < |s.commands| && (s.commands[c].caller.Refused? || s.commands[c].caller.Holding?)
    case Receive =>
      s.serving.None? && (s.mode.Running? || s.mode.Draining?) && s.queue != [] &&
      (s.queue[0].Some? ==> s.queue[0].value < |s.commands|)
    case BeginExecute => Serves(s, Received) && s.mode.Running?
    case EndExecute(_) => Serves(s, Executing)
    case Check => Serves(s, if s.mode.Running? then Executed else Received)
    case Signal => Serves(s, Checked(true)) || Serves(s, Checked(false))
    case Dispose => Serves(s, Signalled(true)) || Serves(s, Signalled(false))
    case Wake => !s.mode.Closed? && |s.queue| < s.depth
    case TaskExit => s.mode.Running? && s.serving.None?
    case DrainEnd => s.mode.Draining? && s.serving.None? && s.queue == []
    case Close => s.mode.Drained?
  }

  /** Replaces command c in a step that touches its memory. */
  function Touch(s: Handoff, c: nat, m: Command): Handoff
    requires c < |s.commands|
  {
    s.(commands := s.commands[c := m], fault := s.fault || Deleted(s.commands[c]))
  }

  /** Replaces command c in a step that touches only local variables. */
  function Note(s: Handoff, c: nat, m: Command): Handoff
    requires c < |s.commands|
  {
    s.(commands := s.commands[c := m])
  }

  function SendCommand(s: Handoff, c: nat): Handoff
    requires c < |s.commands|
  {
    var m := s.commands[c];
    if s.mode.Closed? || |s.queue| >= s.depth then Note(s, c, m.(caller := Refused))
    else Note(s, c, m.(caller := Waiting)).(queue := s.queue + [Some(c)], sent := s.sent + [c])
  }

  function DeleteCommand(s: Handoff, c: nat): Handoff
    requires c < |s.commands|
  {
    var m := s.commands[c];
    var done := if m.caller.Holding? then Returned(m.caller.got) else Discarded;
    Touch(s, c, m.(caller := done, callerFrees := m.callerFrees + 1))
  }

  function ReceiveNext(s: Handoff): Handoff
    requires s.queue != [] && (s.queue[0].Some? ==> s.queue[0].value < |s.commands|)
  {
    var rest := s.(queue := s.queue[1..]);
    match s.queue[0]
    case None => rest
    case Some(c) =>
      Note(rest, c, s.commands[c].(service := Received)).(serving := Some(c), received := s.received + [c])
  }

  /** Ends the handling of c; what was seen abandoned is deleted. */
  function DisposeOf(s: Handoff, c: nat): Handoff
    requires c < |s.commands| && s.commands[c].service.Signalled?
  {
    var m := s.commands[c];
    var done := m.(service := Finished(m.service.shouldDelete));
    if m.service.shouldDelete then Touch(s, c, done.(serviceFrees := m.serviceFrees + 1)).(serving := None)
    else Note(s, c, done).(serving := None)
  }

  function Step(s: Handoff, l: Label): Handoff {
    if !Enabled(s, l) then s
    else
      match l
      case New => s.(commands := s.commands + [Command(Built, Outside, false, false, None, 0, 0, 0)])
      case Send(c) => SendCommand(s, c)
      case Take(c) => Touch(s, c, s.commands[c].(caller := Taken, semaphore := false))
      case Timeout(c) => Touch(s, c, s.commands[c].(caller := TimedOut))
      case Abandon(c) => Touch(s, c, s.commands[c].(caller := GaveUp, abandoned := true))
      case Read(c) => Touch(s, c, s.commands[c].(caller := Holding(s.commands[c].result)))
      case Delete(c) => DeleteCommand(s, c)
      case Receive => ReceiveNext(s)
      case BeginExecute => var c := s.serving.value; Touch(s, c, s.commands[c].(service := Executing))
      case EndExecute(answer) =>
        var c := s.serving.value;
        Touch(s, c, s.commands[c].(service := Executed, result := Some(answer), executions := s.commands[c].executions + 1))
      case Check => var c := s.serving.value; Touch(s, c, s.commands[c].(service := Checked(s.commands[c].abandoned)))
      case Signal =>
        var c := s.serving.value;
        Touch(s, c, s.commands[c].(service := Signalled(s.commands[c].service.shouldDelete), semaphore := true))
      case Dispose => DisposeOf(s, s.serving.value)
      case Wake => s.(queue := s.queue + [None])
      case TaskExit => s.(mode := Draining)
      case DrainEnd => s.(mode := Drained)
      case Close => s.(mode := Closed)
  }

  function Run(s: Handoff, trace: seq<Label>): Handoff {
    if trace == [] then s else Step(Run(s, trace[..|trace| - 1]), trace[|trace| - 1])
  }

  // ---------- The invariant ----------

  predicate InHand(p: ServicePhase) { p.Received? || p.Executing? || p.Executed? || p.Checked? || p.Signalled? }

  /** The service has read the abandoned flag. */
  predicate PastCheck(p: ServicePhase) { p.Checked? || p.Signalled? || p.Finished? }

  predicate Answered(p: ServicePhase) { p.Signalled? || p.Finished? }

  predicate Unsent(p: CallerPhase) { p.Built? || p.Refused? || p.Discarded? }

  /** What the two sides know of each other. */
  predicate CallerOk(m: Command) {
    (m.abandoned <==> m.caller.GaveUp?) &&
    (Unsent(m.caller) ==> !m.semaphore && m.service.Outside?) &&
    m.callerFrees == (if m.caller.Discarded? || m.caller.Returned? then 1 else 0) &&
    (m.caller.Waiting? || m.caller.TimedOut? ==> (m.semaphore <==> Answered(m.service))) &&
    (m.caller.Taken? || m.caller.Holding? || m.caller.Returned? ==> Answered(m.service)) &&
    (m.caller.Holding? || m.caller.Returned? ==> m.caller.got == m.result)
  }

  predicate ServiceOk(m: Command) {
    (PastCheck(m.service) && m.service.shouldDelete ==> m.abandoned) &&
    m.serviceFrees == (if m.service == Finished(true) then 1 else 0) &&
    (m.result.Some? <==> m.executions == 1) && m.executions <= 1 &&
    (m.service.Outside? || m.service.Received? || m.service.Executing? ==> m.executions == 0) &&
    (m.service.Executed? ==> m.executions == 1)
  }

  predicate CommandOk(s: Handoff, c: nat)
    requires c < |s.commands|
  {
    var m := s.commands[c];
    RecordOk(m, s.mode) &&
    (Unsent(m.caller) <==> c !in s.sent) &&
    (m.service.Outside? <==> c !in s.received) &&
    (InHand(m.service) <==> s.serving == Some(c))
  }

  function Queued(queue: seq<Option<nat>>): seq<nat> {
    if queue == [] then []
    else if queue[0].Some? then [queue[0].value] + Queued(queue[1..])
    else Queued(queue[1..])
  }

  predicate Distinct(s: seq<nat>) { forall i, j :: 0 <= i < j < |s| ==> s[i] != s[j] }

  /** The queue is first in, first out, and carries each command once. */
  predicate QueueOk(s: Handoff) {
    |s.queue| <= s.depth && s.sent == s.received + Queued(s.queue) && Distinct(s.sent) && forall i :: 0 <= i < |s.sent| ==> s.sent[i] < |s.commands|
  }

  predicate Inv(s: Handoff) {
    !s.fault && QueueOk(s) && (s.serving.Some? ==> s.serving.value < |s.commands|) &&
    (s.mode.Drained? || s.mode.Closed? ==> s.serving.None?) &&
    forall c :: 0 <= c < |s.commands| ==> CommandOk(s, c)
  }

  // ---------- Every step keeps it ----------

  /** Both records are at the same point of their way through the queue and the service. */
  predicate SamePlace(m: Command, n: Command) {
    (Unsent(m.caller) <==> Unsent(n.caller)) && (m.service.Outside? <==> n.service.Outside?) &&
    (InHand(m.service) <==> InHand(n.service))
  }

  predicate RecordOk(m: Command, mode: Mode) {
    CallerOk(m) && ServiceOk(m) && (PastCheck(m.service) && m.executions == 0 ==> !mode.Running?) &&
    (m.service.Executing? || m.service.Executed? ==> mode.Running?)
  }

  /** A step that touches command c alone. */
  lemma TouchKeeps(s: Handoff, c: nat, m: Command)
    requires Inv(s) && c < |s.commands| && !Deleted(s.commands[c])
    requires SamePlace(s.commands[c], m) && RecordOk(m, s.mode)
    ensures Inv(Touch(s, c, m))
  {
    var t := Touch(s, c, m);
    forall d | 0 <= d < |t.commands|
      ensures CommandOk(t, d)
    {
      assert CommandOk(s, d);
    }
  }

  lemma CallerKeeps(s: Handoff, l: Label)
    requires Inv(s) && Enabled(s, l) && (l.Take? || l.Timeout? || l.Abandon? || l.Read? || l.Delete?)
    ensures Inv(Step(s, l))
  {
    assert CommandOk(s, l.c);
    TouchKeeps(s, l.c, Step(s, l).commands[l.c]);
  }

  lemma NewKeeps(s: Handoff)
    requires Inv(s)
    ensures Inv(Step(s, New))
  {
    var t := Step(s, New);
    forall d | 0 <= d < |t.commands|
      ensures CommandOk(t, d)
    {
      assert d < |s.commands| ==> CommandOk(s, d);
    }
  }

  lemma {:induction false} QueuedAppend(queue: seq<Option<nat>>, x: Option<nat>)
    ensures Queued(queue + [x]) == Queued(queue) + if x.Some? then [x.value] else []
  {
    if queue != [] {
      QueuedAppend(queue[1..], x);
      assert (queue + [x])[1..] == queue[1..] + [x];
    }
  }

  lemma SendKeeps(s: Handoff, c: nat)
    requires Inv(s) && Enabled(s, Send(c))
    ensures Inv(Step(s, Send(c)))
  {
    var t := Step(s, Send(c));
    assert CommandOk(s, c);
    if s.mode.Closed? || |s.queue| >= s.depth {
      TouchKeeps(s, c, s.commands[c].(caller := Refused));
    } else {
      QueuedAppend(s.queue, Some(c));
      assert t.sent == t.received + Queued(t.queue);
      assert c !in s.sent;
      SentOthers(s, t, c);
    }
  }

  lemma SentOthers(s: Handoff, t: Handoff, c: nat)
    requires Inv(s) && Enabled(s, Send(c)) && !s.mode.Closed? && |s.queue| < s.depth && t == Step(s, Send(c))
    ensures forall d :: 0 <= d < |t.commands| ==> CommandOk(t, d)
  {
    forall d | 0 <= d < |t.commands|
      ensures CommandOk(t, d)
    {
      assert CommandOk(s, d);
    }
  }

  lemma HeadIsNext(s: Handoff)
    requires QueueOk(s) && s.queue != []
    ensures s.queue[0].Some? ==>
      s.queue[0].value < |s.commands| && s.queue[0].value in s.sent && s.queue[0].value !in s.received
    ensures QueueOk(ReceiveNext(s))
  {
    var q := Queued(s.queue);
    if s.queue[0].Some? {
      var n := |s.received|;
      assert s.sent[n] == q[0];
      assert s.received + q == s.received + [q[0]] + Queued(s.queue[1..]);
      forall i | 0 <= i < n
        ensures s.received[i] != q[0]
      {
        assert s.sent[i] == s.received[i];
      }
    }
  }

  lemma ReceiveKeeps(s: Handoff)
    requires Inv(s) && Enabled(s, Receive)
    ensures Inv(Step(s, Receive))
  {
    var t := Step(s, Receive);
    HeadIsNext(s);
    forall d | 0 <= d < |t.commands|
      ensures CommandOk(t, d)
    {
      assert CommandOk(s, d);
    }
  }

  lemma ServeKeeps(s: Handoff, l: Label)
    requires Inv(s) && Enabled(s, l) && (l.BeginExecute? || l.EndExecute? || l.Check? || l.Signal?)
    ensures Inv(Step(s, l))
  {
    var c := s.serving.value;
    assert CommandOk(s, c);
    TouchKeeps(s, c, Step(s, l).commands[c]);
  }

  lemma DisposeKeeps(s: Handoff)
    requires Inv(s) && Enabled(s, Dispose)
    ensures Inv(Step(s, Dispose))
  {
    var t := Step(s, Dispose);
    assert CommandOk(s, s.serving.value);
    forall d | 0 <= d < |t.commands|
      ensures CommandOk(t, d)
    {
      assert CommandOk(s, d);
    }
  }

  lemma StopKeeps(s: Handoff, l: Label)
    requires Inv(s) && Enabled(s, l) && (l.Wake? || l.TaskExit? || l.DrainEnd? || l.Close?)
    ensures Inv(Step(s, l))
  {
    var t := Step(s, l);
    QueuedAppend(s.queue, None);
    forall d | 0 <= d < |t.commands|
      ensures CommandOk(t, d)
    {
      assert CommandOk(s, d);
    }
  }

  lemma StepKeeps(s: Handoff, l: Label)
    requires Inv(s)
    ensures Inv(Step(s, l))
  {
    if Enabled(s, l) {
      match l
      case New => NewKeeps(s);
      case Send(c) => SendKeeps(s, c);
      case Receive => ReceiveKeeps(s);
      case Dispose => DisposeKeeps(s);
      case BeginExecute | EndExecute(_) | Check | Signal => ServeKeeps(s, l);
      case Wake | TaskExit | DrainEnd | Close => StopKeeps(s, l);
      case Take(_) | Timeout(_) | Abandon(_) | Read(_) | Delete(_) => CallerKeeps(s, l);
    }
  }

  lemma {:induction false} RunKeeps(s: Handoff, trace: seq<Label>)
    requires Inv(s)
    ensures Inv(Run(s, trace))
    decreases |trace|
  {
    if trace != [] {
      RunKeeps(s, trace[..|trace| - 1]);
      StepKeeps(Run(s, trace[..|trace| - 1]), trace[|trace| - 1]);
    }
  }

  // ---------- What every run guarantees ----------

  /** No command is touched after it was deleted, and none is deleted twice. */
  lemma NeverTouchedAfterFree(depth: nat, trace: seq<Label>)
    ensures var s := Run(Init(depth), trace);
      !s.fault && forall c :: 0 <= c < |s.commands| ==> Freed(s.commands[c]) <= 1
  {
    var s := Run(Init(depth), trace);
    RunKeeps(Init(depth), trace);
    forall c | 0 <= c < |s.commands|
      ensures Freed(s.commands[c]) <= 1
    {
      assert CommandOk(s, c);
    }
  }

  /** A caller that returns an answer read it after the service was done writing it, and deleted the
      command itself, once. The answer is the initial failure only if the service was stopped. */
  lemma AnswersAreFinal(depth: nat, trace: seq<Label>, c: nat)
    requires c < |Run(Init(depth), trace).commands|
    ensures var s := Run(Init(depth), trace);
      var m := s.commands[c];
      (m.caller.Holding? || m.caller.Returned? ==>
        Answered(m.service) && m.caller.got == m.result && (m.caller.got.Some? <==> m.executions == 1) &&
        (m.caller.got.None? ==> !s.mode.Running?)) &&
      (m.caller.Returned? ==> m.callerFrees == 1 && m.serviceFrees == 0)
  {
    RunKeeps(Init(depth), trace);
    assert CommandOk(Run(Init(depth), trace), c);
  }

  /** A command that could not be queued is never received, let alone executed, and its caller deletes it. */
  lemma RefusedNeverExecutes(depth: nat, trace: seq<Label>, c: nat)
    requires c < |Run(Init(depth), trace).commands|
    ensures var m := Run(Init(depth), trace).commands[c];
      m.caller.Refused? || m.caller.Discarded? ==>
        m.service.Outside? && m.executions == 0 && m.serviceFrees == 0 &&
        m.callerFrees == (if m.caller.Discarded? then 1 else 0)
  {
    RunKeeps(Init(depth), trace);
    assert CommandOk(Run(Init(depth), trace), c);
  }

  /** The queue never outgrows its depth. A command is refused exactly when the queue is gone or full; else it is
      queued behind everything sent before, and its caller waits. */
  lemma SendRefusedIff(depth: nat, trace: seq<Label>, c: nat)
    requires Enabled(Run(Init(depth), trace), Send(c))
    ensures var s := Run(Init(depth), trace);
      var t := Step(s, Send(c));
      |s.queue| <= depth && |t.queue| <= depth && c < |t.commands| &&
      if s.mode == Closed || |s.queue| == depth then t.commands[c].caller == Refused && t.queue == s.queue && t.sent == s.sent
      else t.commands[c].caller == Waiting && t.queue == s.queue + [Some(c)] && t.sent == s.sent + [c]
  {
    RunKeeps(Init(depth), trace);
    DepthStays(Init(depth), trace);
  }

  lemma {:induction false} DepthStays(s: Handoff, trace: seq<Label>)
    ensures Run(s, trace).depth == s.depth
    decreases |trace|
  {
    if trace != [] {
      DepthStays(s, trace[..|trace| - 1]);
      DepthKept(Run(s, trace[..|trace| - 1]), trace[|trace| - 1]);
    }
  }

  lemma DepthKept(s: Handoff, l: Label)
    ensures Step(s, l).depth == s.depth
  {
  }

  /** Commands are handled in the order they were sent, each at most once. */
  lemma FirstInFirstOut(depth: nat, trace: seq<Label>)
    ensures var s := Run(Init(depth), trace);
      s.received <= s.sent && Distinct(s.received) &&
      forall c :: 0 <= c < |s.commands| ==> s.commands[c].executions <= 1
  {
    var s := Run(Init(depth), trace);
    RunKeeps(Init(depth), trace);
    assert forall i :: 0 <= i < |s.received| ==> s.received[i] == s.sent[i];
    forall c | 0 <= c < |s.commands|
      ensures s.commands[c].executions <= 1
    {
      assert CommandOk(s, c);
    }
  }

  // ---------- What becomes of an abandoned command ----------

  /** Both sides are done with c: the caller has returned, and the service will not look at it again. */
  predicate Settled(s: Handoff, c: nat)
    requires c < |s.commands|
  {
    var m := s.commands[c];
    (m.caller.Discarded? || m.caller.Returned? || m.caller.GaveUp?) &&
    (m.service.Finished? || m.caller.Discarded? || s.mode.Closed?)
  }

  /** A settled command was deleted exactly once, unless it was abandoned and the service did not see
      that in time; then it was never deleted. */
  lemma FreedOnceUnlessAbandonedLate(depth: nat, trace: seq<Label>, c: nat)
    requires c < |Run(Init(depth), trace).commands| && Settled(Run(Init(depth), trace), c)
    ensures var m := Run(Init(depth), trace).commands[c];
      Freed(m) == if m.caller.GaveUp? && m.service != Finished(true) then 0 else 1
  {
    RunKeeps(Init(depth), trace);
    assert CommandOk(Run(Init(depth), trace), c);
  }

  /** Where abandoning leaks: the service has already read the flag, or will never receive the command
      because the drain that ends the service is over. */
  predicate TooLate(s: Handoff, c: nat)
    requires c < |s.commands|
  {
    PastCheck(s.commands[c].service) || (s.commands[c].service.Outside? && (s.mode.Drained? || s.mode.Closed?))
  }

  /** An abandoned command that nobody will delete. */
  predicate Doomed(s: Handoff, c: nat)
    requires c < |s.commands|
  {
    var m := s.commands[c];
    m.caller.GaveUp? && m.service != Finished(true) && TooLate(s, c) && (PastCheck(m.service) ==> !m.service.shouldDelete)
  }

  /** An abandoned command that the service has yet to see, or has seen abandoned. */
  predicate Spared(s: Handoff, c: nat)
    requires c < |s.commands|
  {
    var m := s.commands[c];
    m.caller.GaveUp? && (PastCheck(m.service) ==> m.service.shouldDelete) &&
    (s.mode.Drained? || s.mode.Closed? ==> m.service.Finished?)
  }

  /** When the queue is empty and nothing is in hand, every command sent has been finished. */
  lemma IdleIsFinished(s: Handoff, c: nat)
    requires Inv(s) && c < |s.commands| && !Unsent(s.commands[c].caller) && s.queue == [] && s.serving.None?
    ensures s.commands[c].service.Finished?
  {
    assert CommandOk(s, c);
    assert s.sent == s.received;
  }

  lemma HeadIsFresh(s: Handoff, c: nat)
    requires Inv(s) && c < |s.commands|
    ensures s.queue != [] && s.queue[0] == Some(c) ==> s.commands[c].service.Outside?
  {
    if s.queue != [] {
      HeadIsNext(s);
      assert CommandOk(s, c);
    }
  }

  lemma DoomedStays(s: Handoff, l: Label, c: nat)
    requires Inv(s) && c < |s.commands| && Doomed(s, c)
    ensures c < |Step(s, l).commands| && Doomed(Step(s, l), c)
  {
    assert CommandOk(s, c);
    HeadIsFresh(s, c);
  }

  lemma SparedStays(s: Handoff, l: Label, c: nat)
    requires Inv(s) && c < |s.commands| && Spared(s, c)
    ensures c < |Step(s, l).commands| && Spared(Step(s, l), c)
  {
    assert CommandOk(s, c);
    HeadIsFresh(s, c);
    if l.DrainEnd? && Enabled(s, l) {
      IdleIsFinished(s, c);
    }
  }

  lemma {:induction false} FateLasts(s: Handoff, after: seq<Label>, c: nat)
    requires Inv(s) && c < |s.commands|
    ensures c < |Run(s, after).commands| && Inv(Run(s, after))
    ensures Doomed(s, c) ==> Doomed(Run(s, after), c)
    ensures Spared(s, c) ==> Spared(Run(s, after), c)
    decreases |after|
  {
    if after != [] {
      var t, l := Run(s, after[..|after| - 1]), after[|after| - 1];
      FateLasts(s, after[..|after| - 1], c);
      StepKeeps(t, l);
      CommandsStay(t, l);
      if Doomed(s, c) {
        DoomedStays(t, l, c);
      }
      if Spared(s, c) {
        SparedStays(t, l, c);
      }
    }
  }

  lemma CommandsStay(s: Handoff, l: Label)
    ensures |s.commands| <= |Step(s, l).commands|
  {
  }

  /** What the abandoning step decides. */
  lemma AbandonDecides(s: Handoff, c: nat)
    requires Inv(s) && Enabled(s, Abandon(c))
    ensures if TooLate(s, c) then Doomed(Step(s, Abandon(c)), c) else Spared(Step(s, Abandon(c)), c)
  {
    assert CommandOk(s, c);
  }

  // ---------- The service can always finish ----------

  /** Steps the service still has to take for the command in hand. */
  function Rank(p: ServicePhase): nat {
    match p
    case Received => 5
    case Executing => 4
    case Executed => 3
    case Checked(_) => 2
    case Signalled(_) => 1
    case _ => 0
  }

  function Backlog(s: Handoff): nat
    requires s.serving.Some? ==> s.serving.value < |s.commands|
  {
    6 * |s.queue| + if s.serving.Some? then Rank(s.commands[s.serving.value].service) else 0
  }

  predicate Serving(s: Handoff) { s.mode.Running? || s.mode.Draining? }

  /** A step of the service, or of stop() draining in its place. */
  predicate ServiceStep(l: Label) {
    l.Receive? || l.BeginExecute? || l.EndExecute? || l.Check? || l.Signal? || l.Dispose?
  }

  /** As long as there is work, the service has a step that lessens it. */
  lemma ServiceProgress(s: Handoff) returns (l: Label)
    requires Inv(s) && Serving(s) && (s.queue != [] || s.serving.Some?)
    ensures ServiceStep(l) && Enabled(s, l)
    ensures Inv(Step(s, l)) && Step(s, l).mode == s.mode && Backlog(Step(s, l)) < Backlog(s)
  {
    if s.serving.Some? {
      var c := s.serving.value;
      assert CommandOk(s, c);
      match s.commands[c].service
      case Received => l := if s.mode.Running? then BeginExecute else Check;
      case Executing => l := EndExecute(0);
      case Executed => l := Check;
      case Checked(_) => l := Signal;
      case Signalled(_) => l := Dispose;
    } else {
      HeadIsNext(s);
      l := Receive;
    }
    StepKeeps(s, l);
  }

  /** The service alone can finish everything that is queued or in hand. */
  lemma {:induction false} ServiceFinishes(s: Handoff) returns (trace: seq<Label>)
    requires Inv(s) && Serving(s)
    ensures forall i :: 0 <= i < |trace| ==> ServiceStep(trace[i])
    ensures var t := Run(s, trace); Inv(t) && t.queue == [] && t.serving.None? && t.mode == s.mode
    decreases Backlog(s)
  {
    if s.queue == [] && s.serving.None? {
      trace := [];
    } else {
      var l := ServiceProgress(s);
      var rest := ServiceFinishes(Step(s, l));
      trace := [l] + rest;
      RunFirst(s, l, rest);
    }
  }

  lemma {:induction false} RunFirst(s: Handoff, l: Label, rest: seq<Label>)
    ensures Run(s, [l] + rest) == Run(Step(s, l), rest)
    decreases |rest|
  {
    if rest == [] {
      assert [l] + rest == [] + [l];
      RunAppend(s, [], l);
    } else {
      var last := |rest| - 1;
      RunFirst(s, l, rest[..last]);
      assert [l] + rest == [l] + rest[..last] + [rest[last]];
      RunAppend(s, [l] + rest[..last], rest[last]);
    }
  }

  // ---------- Which commands leak ----------

  /** A command abandoned in time is deleted, once and by the service, in every continuation in which both
      sides are done with it. */
  lemma AbandonedInTimeIsFreed(depth: nat, before: seq<Label>, c: nat, after: seq<Label>)
    requires var s := Run(Init(depth), before); Enabled(s, Abandon(c)) && !TooLate(s, c)
    ensures var t := Run(Step(Run(Init(depth), before), Abandon(c)), after);
      c < |t.commands| &&
      (Settled(t, c) ==> t.commands[c].serviceFrees == 1 && t.commands[c].callerFrees == 0)
  {
    var s := Run(Init(depth), before);
    RunKeeps(Init(depth), before);
    StepKeeps(s, Abandon(c));
    AbandonDecides(s, c);
    FateLasts(Step(s, Abandon(c)), after, c);
    assert CommandOk(Run(Step(s, Abandon(c)), after), c);
  }

  /** A continuation in which that happens exists. */
  lemma AbandonedInTimeEnds(s: Handoff, c: nat) returns (after: seq<Label>)
    requires Inv(s) && Enabled(s, Abandon(c)) && !TooLate(s, c)
    ensures var t := Run(Step(s, Abandon(c)), after); c < |t.commands| && Freed(t.commands[c]) == 1
  {
    var u := Step(s, Abandon(c));
    assert CommandOk(s, c);
    StepKeeps(s, Abandon(c));
    AbandonDecides(s, c);
    after := ServiceFinishes(u);
    FateLasts(u, after, c);
    IdleIsFinished(Run(u, after), c);
    assert CommandOk(Run(u, after), c);
  }

  /** Exactly when abandoning leaks: no continuation at all deletes the command. */
  lemma LeaksIffTooLate(depth: nat, before: seq<Label>, c: nat)
    requires Enabled(Run(Init(depth), before), Abandon(c))
    ensures var s := Run(Init(depth), before);
      TooLate(s, c) <==> forall after :: NeverFreed(Step(s, Abandon(c)), after, c)
  {
    var s := Run(Init(depth), before);
    RunKeeps(Init(depth), before);
    var u := Step(s, Abandon(c));
    if TooLate(s, c) {
      StepKeeps(s, Abandon(c));
      AbandonDecides(s, c);
      forall after
        ensures NeverFreed(u, after, c)
      {
        FateLasts(u, after, c);
        assert CommandOk(Run(u, after), c);
      }
    } else {
      var after := AbandonedInTimeEnds(s, c);
      assert !NeverFreed(u, after, c);
    }
  }

  predicate NeverFreed(s: Handoff, after: seq<Label>, c: nat) {
    c < |Run(s, after).commands| && !Deleted(Run(s, after).commands[c])
  }

  lemma RunAppend(s: Handoff, trace: seq<Label>, l: Label)
    ensures Run(s, trace + [l]) == Step(Run(s, trace), l)
  {
    assert (trace + [l])[..|trace|] == trace;
  }

  /** A run one step longer. */
  lemma Follow(start: Handoff, trace: seq<Label>, s: Handoff, l: Label, t: Handoff)
    requires Run(start, trace) == s && Step(s, l) == t
    ensures Run(start, trace + [l]) == t
  {
    RunAppend(start, trace, l);
  }

  /** One command and a queue of depth 1. */
  function One(m: Command, mode: Mode): Handoff {
    var sent := if Unsent(m.caller) then [] else [0];
    var received := if m.service.Outside? then [] else [0];
    Handoff([m], if sent == received then [] else [Some(0)], 1, mode, if InHand(m.service) then Some(0) else None, sent,
            received, false)
  }

  function Fresh(caller: CallerPhase, service: ServicePhase): Command {
    Command(caller, service, false, false, None, 0, 0, 0)
  }

  lemma FirstCommandReceived() returns (trace: seq<Label>)
    ensures Run(Init(1), trace) == One(Fresh(Waiting, Received), Running)
  {
    Follow(Init(1), [], Init(1), New, One(Fresh(Built, Outside), Running));
    Follow(Init(1), [] + [New], One(Fresh(Built, Outside), Running), Send(0), One(Fresh(Waiting, Outside), Running));
    trace := [] + [New] + [Send(0)];
    Follow(Init(1), trace, One(Fresh(Waiting, Outside), Running), Receive, One(Fresh(Waiting, Received), Running));
    trace := trace + [Receive];
  }

  function Executed7(caller: CallerPhase, service: ServicePhase, semaphore: bool): Command {
    Command(caller, service, semaphore, caller.GaveUp?, Some(7), 1, 0, 0)
  }

  lemma FirstCommandExecuted() returns (trace: seq<Label>)
    ensures Run(Init(1), trace) == One(Executed7(Waiting, Executed, false), Running)
  {
    trace := FirstCommandReceived();
    Follow(Init(1), trace, One(Fresh(Waiting, Received), Running), BeginExecute, One(Fresh(Waiting, Executing), Running));
    trace := trace + [BeginExecute];
    Follow(Init(1), trace, One(Fresh(Waiting, Executing), Running), EndExecute(7), One(Executed7(Waiting, Executed, false), Running));
    trace := trace + [EndExecute(7)];
  }

  /** The service has read the flag of the only command; then its caller times out and abandons it. */
  lemma AbandonedAfterCheck() returns (trace: seq<Label>)
    ensures Run(Init(1), trace) == One(Executed7(GaveUp, Checked(false), false), Running)
  {
    trace := FirstCommandExecuted();
    Follow(Init(1), trace, One(Executed7(Waiting, Executed, false), Running), Check,
           One(Executed7(Waiting, Checked(false), false), Running));
    trace := trace + [Check];
    Follow(Init(1), trace, One(Executed7(Waiting, Checked(false), false), Running), Timeout(0),
           One(Executed7(TimedOut, Checked(false), false), Running));
    trace := trace + [Timeout(0)];
    Follow(Init(1), trace, One(Executed7(TimedOut, Checked(false), false), Running), Abandon(0),
           One(Executed7(GaveUp, Checked(false), false), Running));
    trace := trace + [Abandon(0)];
  }

  /** Such a run exists: the service checks, the caller times out and abandons, the service signals,
      both are done, and the command was executed but never deleted. */
  lemma LateCheckLeaks() returns (trace: seq<Label>)
    ensures var s := Run(Init(1), trace);
      |s.commands| == 1 && Settled(s, 0) && s.commands[0].executions == 1 && Freed(s.commands[0]) == 0
  {
    trace := AbandonedAfterCheck();
    Follow(Init(1), trace, One(Executed7(GaveUp, Checked(false), false), Running), Signal,
           One(Executed7(GaveUp, Signalled(false), true), Running));
    trace := trace + [Signal];
    Follow(Init(1), trace, One(Executed7(GaveUp, Signalled(false), true), Running), Dispose,
           One(Executed7(GaveUp, Finished(false), true), Running));
    trace := trace + [Dispose];
  }

  lemma BuiltBeforeDrain() returns (trace: seq<Label>)
    ensures Run(Init(1), trace) == One(Fresh(Built, Outside), Draining)
  {
    Follow(Init(1), [], Init(1), New, One(Fresh(Built, Outside), Running));
    trace := [] + [New];
    Follow(Init(1), trace, One(Fresh(Built, Outside), Running), TaskExit, One(Fresh(Built, Outside), Draining));
    trace := trace + [TaskExit];
  }

  lemma SentAfterDrain() returns (trace: seq<Label>)
    ensures Run(Init(1), trace) == One(Fresh(Waiting, Outside), Drained)
  {
    trace := BuiltBeforeDrain();
    Follow(Init(1), trace, One(Fresh(Built, Outside), Draining), DrainEnd, One(Fresh(Built, Outside), Drained));
    trace := trace + [DrainEnd];
    Follow(Init(1), trace, One(Fresh(Built, Outside), Drained), Send(0), One(Fresh(Waiting, Outside), Drained));
    trace := trace + [Send(0)];
  }

  /** A command sent between the drain's last look at the queue and the deletion of the queue leaks too. */
  lemma SendAfterDrainLeaks() returns (trace: seq<Label>)
    ensures var s := Run(Init(1), trace);
      |s.commands| == 1 && Settled(s, 0) && s.commands[0].service.Outside? && Freed(s.commands[0]) == 0
  {
    trace := SentAfterDrain();
    Follow(Init(1), trace, One(Fresh(Waiting, Outside), Drained), Close, One(Fresh(Waiting, Outside), Closed));
    trace := trace + [Close];
    Follow(Init(1), trace, One(Fresh(Waiting, Outside), Closed), Timeout(0), One(Fresh(TimedOut, Outside), Closed));
    trace := trace + [Timeout(0)];
    RunAppend(Init(1), trace, Abandon(0));
    trace := trace + [Abandon(0)];
  }
}
