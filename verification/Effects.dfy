/** What one transition of the runtime changes, field by field: the facts that the
    run-wide theorems are built from. */
module Effects {
  import opened Contracts
  import opened Machine
  import Ids

  /** The call object of a begun attempt, as the executor sees it. */
  predicate IsBegunCall(call: ToolCall, st: RunState, stepId: string, request: PlannerDecision)
    requires request.Call?
  {
    && call.callId == Ids.FormatId(Ids.TOOL_CALL_PREFIX, st.nextCall)
    && call.stepId == stepId && call.toolName == request.toolName && call.arguments == request.arguments
    && call.rationale == request.rationale && call.incidentId == st.incidentId
    && call.status == CallStatus.Running && call.startedAt.Some? && call.completedAt.None?
  }

  lemma BeginAttemptEffect(clock: nat -> int, st: RunState, stepId: string, request: PlannerDecision, attempts: nat)
    requires request.Call?
    ensures var begun := BeginAttempt(clock, st, stepId, request, attempts);
            && |begun.calls| == |st.calls| + 1
            && begun.calls[..|st.calls|] == st.calls
            && IsBegunCall(begun.calls[|st.calls|], st, stepId, request)
            && begun.nextCall == st.nextCall + 1
            && begun.(calls := st.calls, events := st.events, ticks := st.ticks, nextCall := st.nextCall,
                      updatedAt := st.updatedAt) == st
            && begun.ticks >= st.ticks
  {
  }

  /** `settled` is `begun` after the executor's reply. */
  predicate IsSettledCall(settled: ToolCall, begun: ToolCall, reply: ExecutorReply) {
    && settled.completedAt.Some?
    && settled.status == (if reply.Returned? && reply.result.success then CallStatus.Succeeded else CallStatus.Failed)
    && settled.(status := begun.status, completedAt := begun.completedAt) == begun
  }

  function ResultsOf(reply: ExecutorReply): seq<ToolResult> {
    if reply.Returned? then [reply.result] else []
  }

  function FailuresOf(reply: ExecutorReply): nat {
    if reply.Returned? && reply.result.success then 0 else 1
  }

  function RaisedAttempts(known: map<string, nat>, stepId: string, attempts: nat): map<string, nat> {
    known[stepId := if stepId in known && known[stepId] >= attempts then known[stepId] else attempts]
  }

  /** What absorbing the executor's reply does to the state. */
  predicate Absorbed(begun: RunState, st: RunState, stepId: string, attempts: nat, reply: ExecutorReply)
    requires begun.calls != []
  {
    var last := |begun.calls| - 1;
    && |st.calls| == |begun.calls| && st.calls[..last] == begun.calls[..last]
    && IsSettledCall(st.calls[last], begun.calls[last], reply)
    && st.results == begun.results + ResultsOf(reply)
    && st.totalCalls == begun.totalCalls + 1
    && st.totalFailures == begun.totalFailures + FailuresOf(reply)
    && st.stepAttempts == RaisedAttempts(begun.stepAttempts, stepId, attempts + 1)
    && st.nextCall == begun.nextCall && st.steps == begun.steps && st.hasPlan == begun.hasPlan
    && st.status == begun.status && st.stopReason == begun.stopReason
    && st.currentStep == begun.currentStep && st.ticks >= begun.ticks
  }

  lemma RaiseAbsorbed(clock: nat -> int, begun: RunState, stepId: string, attempts: nat)
    requires begun.calls != []
    ensures Absorbed(begun, AbsorbRaise(clock, begun, stepId, attempts), stepId, attempts, ExecutorRaised)
  {
    assert begun.results + [] == begun.results;
  }

  lemma ResultAbsorbed(clock: nat -> int, begun: RunState, stepId: string, attempts: nat, result: ToolResult)
    requires begun.calls != []
    ensures Absorbed(begun, AbsorbResult(clock, begun, stepId, attempts, result), stepId, attempts, Returned(result))
  {
  }

  lemma RetryAbsorbed(clock: nat -> int, begun: RunState, st: RunState, stepId: string, attempts: nat,
                      reply: ExecutorReply)
    requires begun.calls != [] && Absorbed(begun, st, stepId, attempts, reply)
    ensures Absorbed(begun, ScheduleRetry(clock, st, stepId, attempts), stepId, attempts, reply)
  {
  }

  lemma AttemptedEffect<P, E>(w: World<P, E>, c: Config<P, E>, begun: RunState, executor: E, reply: ExecutorReply)
    requires c.control.Calling? && c.control.request.Call?
    requires begun.calls != [] && c.control.i < |begun.steps| && begun.hasPlan
    ensures Absorbed(begun, Attempted(w, c, begun, executor, reply).st, begun.steps[c.control.i].stepId,
                     c.control.attempts, reply)
  {
    hide AbsorbRaise, AbsorbResult, ScheduleRetry, Absorbed, AfterFailure;
    var stepId, attempts := begun.steps[c.control.i].stepId, c.control.attempts;
    if reply.Returned? {
      var st := AbsorbResult(w.clock, begun, stepId, attempts, reply.result);
      ResultAbsorbed(w.clock, begun, stepId, attempts, reply.result);
      assert st.calls != [] by { AbsorbedKeepsCalls(begun, st, stepId, attempts, reply); }
      RetryAbsorbed(w.clock, begun, st, stepId, attempts, reply);
    } else {
      RaiseAbsorbed(w.clock, begun, stepId, attempts);
    }
  }

  lemma AbsorbedKeepsCalls(begun: RunState, st: RunState, stepId: string, attempts: nat, reply: ExecutorReply)
    requires begun.calls != [] && Absorbed(begun, st, stepId, attempts, reply)
    ensures st.calls != []
  {
  }

  /** An unblocked attempt begins a call and lets the executor's reply settle it. */
  lemma AttemptUnfolds<P, E>(w: World<P, E>, c: Config<P, E>)
    returns (begun: RunState, executor: E, reply: ExecutorReply)
    requires WellFormed(c) && c.control.Calling? && Blocked(w, c.st, c.control.i).None?
    ensures begun == BeginAttempt(w.clock, c.st, c.st.steps[c.control.i].stepId, c.control.request, c.control.attempts)
    ensures |begun.calls| == |c.st.calls| + 1 && c.control.i < |begun.steps| && begun.hasPlan
    ensures (executor, reply) == w.execute(c.executor, begun.calls[|c.st.calls|])
    ensures Next(w, c) == Attempted(w, c, begun, executor, reply)
  {
    begun := BeginAttempt(w.clock, c.st, c.st.steps[c.control.i].stepId, c.control.request, c.control.attempts);
    var r := w.execute(c.executor, begun.calls[|c.st.calls|]);
    executor, reply := r.0, r.1;
  }

  /** `n` follows `c` by one attempt: it appends exactly one settled call and counts it once. */
  ghost predicate IsAttempt<P, E>(w: World<P, E>, c: Config<P, E>, n: Config<P, E>, begun: ToolCall,
                                  reply: ExecutorReply)
  {
    && WellFormed(c) && WellFormed(n) && c.control.Calling?
    && IsBegunCall(begun, c.st, c.st.steps[c.control.i].stepId, c.control.request)
    && reply == w.execute(c.executor, begun).1
    && |n.st.calls| == |c.st.calls| + 1 && n.st.calls[..|c.st.calls|] == c.st.calls
    && IsSettledCall(n.st.calls[|c.st.calls|], begun, reply)
    && n.st.results == c.st.results + ResultsOf(reply)
    && n.st.totalCalls == c.st.totalCalls + 1
    && n.st.totalFailures == c.st.totalFailures + FailuresOf(reply)
    && n.st.stepAttempts
       == RaisedAttempts(c.st.stepAttempts, c.st.steps[c.control.i].stepId, c.control.attempts + 1)
    && n.st.nextCall == c.st.nextCall + 1 && n.st.steps == c.st.steps && n.st.hasPlan == c.st.hasPlan
    && n.st.status == c.st.status && n.st.stopReason == c.st.stopReason
    && n.st.currentStep == c.st.currentStep && n.st.ticks >= c.st.ticks
    && n.failedSteps == c.failedSteps && n.planner == c.planner
    && n.control == (match reply
                     case ExecutorRaised =>
                       Closing(c.control.i, StepStopped(UnrecoverableToolError, EXECUTOR_RAISED_ERROR))
                     case Returned(result) =>
                       if result.success then Deciding(c.control.i)
                       else AfterFailure(w.retry, c.control.i, c.control.request, c.control.attempts, result))
  }

  lemma AttemptEffect<P, E>(w: World<P, E>, c: Config<P, E>) returns (begun: ToolCall, reply: ExecutorReply)
    requires WellFormed(c) && c.control.Calling? && Blocked(w, c.st, c.control.i).None?
    ensures IsAttempt(w, c, Next(w, c), begun, reply)
  {
    var st, executor, r := AttemptUnfolds(w, c);
    BeginAttemptEffect(w.clock, c.st, c.st.steps[c.control.i].stepId, c.control.request, c.control.attempts);
    begun, reply := st.calls[|c.st.calls|], r;
    AttemptedEffect(w, c, st, executor, reply);
  }

  /** Calls, results, counters and the id counter are the same. */
  predicate KeepsCalls(before: RunState, after: RunState) {
    && after.calls == before.calls && after.results == before.results
    && after.totalCalls == before.totalCalls && after.totalFailures == before.totalFailures
    && after.stepAttempts == before.stepAttempts && after.nextCall == before.nextCall
  }

  /** Only attempts touch them. */
  lemma OtherStepsKeepCalls<P, E>(w: World<P, E>, c: Config<P, E>)
    requires WellFormed(c) && !c.control.Done?
    requires c.control.Calling? ==> Blocked(w, c.st, c.control.i).Some?
    ensures KeepsCalls(c.st, Next(w, c).st)
  {
  }

  /** `n` follows `c` by closing step `i` with the outcome at hand. */
  ghost predicate IsClosed<P, E>(c: Config<P, E>, n: Config<P, E>) {
    && WellFormed(c) && c.control.Closing? && WellFormed(n)
    && KeepsCalls(c.st, n.st) && n.planner == c.planner
    && var Closing(i, outcome) := c.control;
    && |n.st.steps| == |c.st.steps| && n.st.steps[i].stepId == c.st.steps[i].stepId
    && (forall k :: 0 <= k < |c.st.steps| && k != i ==> n.st.steps[k] == c.st.steps[k])
    && n.st.steps[i].status == (if outcome.StepDone? then StepStatus.Completed else StepStatus.Failed)
    && n.control == (if outcome.StepStopped? then Done else Boundary(i + 1))
    && (outcome.StepStopped? ==> n.st.stopReason == Some(outcome.reason))
  }

  lemma CloseEffect<P, E>(w: World<P, E>, c: Config<P, E>)
    requires WellFormed(c) && c.control.Closing?
    ensures IsClosed(c, Next(w, c))
  {
  }

  /** The trajectory is append-only. */
  lemma NextAppendsEvents<P, E>(w: World<P, E>, c: Config<P, E>)
    requires WellFormed(c) && !c.control.Done?
    ensures c.st.events <= Next(w, c).st.events
  {
    if c.control.Calling? && Blocked(w, c.st, c.control.i).None? {
      AttemptAppendsEvents(w, c);
    }
  }

  lemma AttemptAppendsEvents<P, E>(w: World<P, E>, c: Config<P, E>)
    requires WellFormed(c) && c.control.Calling? && Blocked(w, c.st, c.control.i).None?
    ensures c.st.events <= Next(w, c).st.events
  {
    var begun, executor, reply := AttemptUnfolds(w, c);
    assert c.st.events <= begun.events;
    hide Next, BeginAttempt, Attempted;
    ReplyAppendsEvents(w, c, begun, executor, reply);
  }

  lemma ReplyAppendsEvents<P, E>(w: World<P, E>, c: Config<P, E>, begun: RunState, executor: E, reply: ExecutorReply)
    requires c.control.Calling? && c.control.request.Call?
    requires begun.calls != [] && c.control.i < |begun.steps| && begun.hasPlan
    ensures begun.events <= Attempted(w, c, begun, executor, reply).st.events
  {
  }

  lemma {:induction false} EventsGrow<P, E>(w: World<P, E>, c: Config<P, E>)
    requires WellFormed(c)
    ensures c.st.events <= RunToEnd(w, c).st.events
    decreases c.control.Start?, !c.control.Done?, Measure(w, c)
  {
    if !c.control.Done? {
      NextDecreases(w, c);
      NextAppendsEvents(w, c);
      EventsGrow(w, Next(w, c));
    }
  }
}
