/** The trajectory is a protocol and a faithful log (app/runtime/trajectory.py,
    app/runtime/runtime.py): a fixed automaton accepts every run's events, and folding
    over the events alone rebuilds the calls, the results, the step statuses and the
    counters that the run reports. */
module Trajectory {
  import opened Contracts
  import opened Machine
  import opened Effects

  datatype CallTrace = CallTrace(callId: string, stepId: string, toolName: string, status: CallStatus)
  datatype StepTrace = StepTrace(stepId: string, status: StepStatus)

  datatype Phase =
    | Fresh
    | Opening
    | Idle
    | InStep(s: string)
    | Requesting(s: string, attempt: nat)
    | Creating(s: string, c: string, attempt: nat)
    | Executing(s: string, c: string, attempt: nat)
    | Failing(s: string, c: string, attempt: nat, failure: FailureKind)
    | Ending(s: string, completed: bool)
    | Stopping
    | Ended
    | Rejected

  datatype Replayed = Replayed(
    phase: Phase, calls: seq<CallTrace>, resultIds: seq<string>, steps: seq<StepTrace>, failures: nat)
  {
    function Reject(): Replayed {
      this.(phase := Rejected)
    }

    function SetLastCall(status: CallStatus): Replayed {
      if calls == [] then this
      else this.(calls := calls[..|calls| - 1] + [calls[|calls| - 1].(status := status)])
    }

    function SetLastStep(status: StepStatus): Replayed {
      if steps == [] then this
      else this.(steps := steps[..|steps| - 1] + [steps[|steps| - 1].(status := status)])
    }

    function AddResult(id: Option<string>): Replayed {
      if id.None? then this else this.(resultIds := resultIds + [id.value])
    }
  }

  /** One automaton transition; an event out of protocol leads to `Rejected` for good. */
  function ReplayStep(r: Replayed, e: Event): Replayed {
    match r.phase
    case Fresh =>
      if e.kind.InvestigationStarted? then r.(phase := Opening) else r.Reject()
    case Opening =>
      if e.kind.PlanCreated? then r.(phase := Idle)
      else if e.kind.RunFailed? then r.(phase := Ended)
      else r.Reject()
    case Idle =>
      if e.kind.StepStarted? && e.stepId.Some? then
        r.(phase := InStep(e.stepId.value), steps := r.steps + [StepTrace(e.stepId.value, StepStatus.Running)])
      else if e.kind.RunCompleted? || e.kind.RunFailed? || e.kind.RunExhausted? then r.(phase := Ended)
      else r.Reject()
    case InStep(s) =>
      if e.stepId != Some(s) then r.Reject()
      else if e.kind.DecisionMade? then
        (match e.kind.action
         case CallTool => r.(phase := Requesting(s, 1))
         case CompleteStep => r.(phase := Ending(s, true))
         case FailStep => r.(phase := Ending(s, false)))
      else if e.kind.StepFailed? then r.SetLastStep(StepStatus.Failed).(phase := Stopping)
      else r.Reject()
    case Requesting(s, attempt) =>
      if e.stepId != Some(s) then r.Reject()
      else if e.kind.CallCreated? && e.kind.attempt == attempt && e.callId.Some? then
        r.(phase := Creating(s, e.callId.value, attempt),
           calls := r.calls + [CallTrace(e.callId.value, s, e.kind.toolName, CallStatus.Requested)])
      else if e.kind.StepFailed? then r.SetLastStep(StepStatus.Failed).(phase := Stopping)
      else r.Reject()
    case Creating(s, c, attempt) =>
      if e.stepId == Some(s) && e.callId == Some(c) && e.kind.CallStarted? then
        r.SetLastCall(CallStatus.Running).(phase := Executing(s, c, attempt))
      else r.Reject()
    case Executing(s, c, attempt) =>
      if e.stepId != Some(s) || e.callId != Some(c) then r.Reject()
      else if e.kind.CallSucceeded? && e.kind.attempt == attempt && e.resultId.Some? then
        r.SetLastCall(CallStatus.Succeeded).AddResult(e.resultId).(phase := InStep(s))
      else if e.kind.CallFailed? && e.kind.attempt == attempt
              && (e.kind.failure.ExecutorException? <==> e.resultId.None?) then
        r.SetLastCall(CallStatus.Failed).AddResult(e.resultId)
         .(phase := Failing(s, c, attempt, e.kind.failure), failures := r.failures + 1)
      else r.Reject()
    case Failing(s, c, attempt, failure) =>
      if e.stepId != Some(s) then r.Reject()
      else if e.kind.RetryScheduled? && e.callId == Some(c) && e.kind.nextAttempt == attempt + 1
              && !failure.ExecutorException? && !failure.UnknownTool? then
        r.(phase := Requesting(s, attempt + 1))
      else if e.kind.StepFailed? then
        r.SetLastStep(StepStatus.Failed).(phase := if failure.ExecutionError? then Idle else Stopping)
      else r.Reject()
    case Ending(s, completed) =>
      if e.stepId != Some(s) then r.Reject()
      else if completed && e.kind.StepCompleted? then r.SetLastStep(StepStatus.Completed).(phase := Idle)
      else if !completed && e.kind.StepFailed? then r.SetLastStep(StepStatus.Failed).(phase := Idle)
      else r.Reject()
    case Stopping =>
      if e.kind.RunFailed? || e.kind.RunExhausted? then r.(phase := Ended) else r.Reject()
    case Ended => r.Reject()
    case Rejected => r
  }

  function Replay(events: seq<Event>): Replayed {
    if events == [] then Replayed(Fresh, [], [], [], 0)
    else ReplayStep(Replay(events[..|events| - 1]), events[|events| - 1])
  }

  function TraceOf(call: ToolCall): CallTrace {
    CallTrace(call.callId, call.stepId, call.toolName, call.status)
  }

  function Traces(calls: seq<ToolCall>): seq<CallTrace> {
    seq(|calls|, k requires 0 <= k < |calls| => TraceOf(calls[k]))
  }

  function StepTraces(steps: seq<Step>, n: nat): seq<StepTrace>
    requires n <= |steps|
  {
    seq(n, k requires 0 <= k < n => StepTrace(steps[k].stepId, steps[k].status))
  }

  function ResultIds(results: seq<ToolResult>): seq<string> {
    seq(|results|, k requires 0 <= k < |results| => results[k].resultId)
  }

  lemma ReplayRecord(clock: nat -> int, st: RunState, kind: EventKind, stepId: Option<string>,
                     callId: Option<string>, resultId: Option<string>)
    ensures var after := Record(clock, st, kind, stepId, callId, resultId);
            && |after.events| == |st.events| + 1
            && Replay(after.events) == ReplayStep(Replay(st.events), after.events[|st.events|])
  {
    var after := Record(clock, st, kind, stepId, callId, resultId);
    assert after.events[..|after.events| - 1] == st.events;
  }

  /** Everything but the automaton phase agrees with the state. */
  ghost predicate LogMatches(st: RunState, r: Replayed) {
    && r.calls == Traces(st.calls)
    && r.resultIds == ResultIds(st.results)
    && r.failures == st.totalFailures
    && |r.steps| <= |st.steps|
    && r.steps == StepTraces(st.steps, |r.steps|)
  }

  ghost predicate PhaseMatches<P, E>(c: Config<P, E>, r: Replayed)
    requires WellFormed(c)
  {
    match c.control
    case Start => r.phase == Opening && r.steps == []
    case Boundary(i) => r.phase == Idle && |r.steps| == i
    case Deciding(i) => r.phase == InStep(c.st.steps[i].stepId) && |r.steps| == i + 1
    case Calling(i, _, attempts) =>
      r.phase == Requesting(c.st.steps[i].stepId, attempts + 1) && |r.steps| == i + 1
    case Closing(i, outcome) =>
      && |r.steps| == i + 1
      && ClosesFrom(r.phase, c.st.steps[i].stepId, outcome)
    case Done => r.phase == Ended
  }

  /** The phases in which a step may end with a given outcome. */
  predicate ClosesFrom(phase: Phase, s: string, outcome: StepOutcome) {
    match outcome
    case StepDone => phase == Ending(s, true)
    case StepGaveUp(_) => phase == Ending(s, false) || (phase.Failing? && phase.s == s && phase.failure.ExecutionError?)
    case StepStopped(reason, _) =>
      || (phase == InStep(s) && reason.PlannerFailed?)
      || (phase.Requesting? && phase.s == s && reason.IsBudgetReason())
      || (phase.Failing? && phase.s == s && !phase.failure.ExecutionError? && reason.UnrecoverableToolError?)
  }

  ghost predicate Faithful<P, E>(c: Config<P, E>) {
    && WellFormed(c)
    && var r := Replay(c.st.events);
       LogMatches(c.st, r) && PhaseMatches(c, r)
  }

  lemma InitialFaithful<P, E>(w: World<P, E>, planner: P, executor: E, incidentId: string, ticks: nat, nextCall: nat)
    ensures Faithful(Initial(w, planner, executor, incidentId, ticks, nextCall))
  {
    var st := Opened(w.clock, incidentId, ticks, nextCall);
    assert st.events[..0] == [];
    assert Replay(st.events) == ReplayStep(Replay([]), st.events[0]);
  }

  /** Rewriting the newest call rewrites the newest trace. */
  lemma LastTraced(calls: seq<ToolCall>, call: ToolCall)
    requires calls != []
    requires call == calls[|calls| - 1].(status := call.status, startedAt := call.startedAt,
                                         completedAt := call.completedAt)
    ensures |Traces(calls)| == |calls|
    ensures var last := |calls| - 1;
            Traces(calls[..last] + [call]) == Traces(calls)[..last] + [Traces(calls)[last].(status := call.status)]
  {
  }

  /** Rewriting the newest step rewrites the newest trace. */
  lemma LastStepTraced(steps: seq<Step>, i: nat, step: Step)
    requires i < |steps| && step.stepId == steps[i].stepId
    ensures |StepTraces(steps, i + 1)| == i + 1
    ensures StepTraces(steps[i := step], i + 1)
            == StepTraces(steps, i + 1)[..i] + [StepTraces(steps, i + 1)[i].(status := step.status)]
  {
  }

  // ----- one lemma per group of transitions --------------------------------------

  lemma TerminateFaithful(clock: nat -> int, st: RunState, status: RuntimeStatus, reason: StopReason, kind: EventKind)
    requires LogMatches(st, Replay(st.events))
    requires var phase := Replay(st.events).phase;
             || (phase == Idle && (kind.RunCompleted? || kind.RunFailed? || kind.RunExhausted?))
             || (phase == Opening && kind.RunFailed?)
             || (phase == Stopping && (kind.RunFailed? || kind.RunExhausted?))
    ensures var after := Terminate(clock, st, status, reason, kind);
            LogMatches(after, Replay(after.events)) && Replay(after.events).phase == Ended
  {
    var now := clock(st.ticks);
    ReplayRecord(clock, st.(status := status, stopReason := Some(reason), completedAt := Some(now),
                            updatedAt := now, ticks := st.ticks + 1), kind, None, None, None);
  }

  lemma StartStepFaithful(clock: nat -> int, st: RunState, i: nat)
    requires i < |st.steps| && LogMatches(st, Replay(st.events))
    requires Replay(st.events).phase == Idle && |Replay(st.events).steps| == i
    ensures var after := StartStep(clock, st, i);
            var r := Replay(after.events);
            LogMatches(after, r) && r.phase == InStep(st.steps[i].stepId) && |r.steps| == i + 1
  {
    var step := st.steps[i].(startedAt := Some(clock(st.ticks)), status := StepStatus.Running);
    var running := Touch(clock, st.(currentStep := Some(step.stepId), steps := st.steps[i := step],
                                    ticks := st.ticks + 1));
    ReplayRecord(clock, running, StepStarted, Some(step.stepId), None, None);
    var after := StartStep(clock, st, i);
    assert Replay(after.events).steps == StepTraces(after.steps, i + 1);
  }

  /** Finishing a step rewrites that step and logs one event. */
  lemma FinishLogs(clock: nat -> int, st: RunState, i: nat, status: StepStatus, error: Option<string>)
    requires i < |st.steps|
    ensures var after, k := FinishStep(clock, st, i, status, error), |st.events|;
            && |after.steps| == |st.steps| && after.steps == st.steps[i := after.steps[i]]
            && after.steps[i].stepId == st.steps[i].stepId && after.steps[i].status == status
            && after.calls == st.calls && after.results == st.results && after.totalFailures == st.totalFailures
            && |after.events| == k + 1 && after.events[k].stepId == Some(st.steps[i].stepId)
            && after.events[k].kind == (if status.Completed? then EventKind.StepCompleted else EventKind.StepFailed)
            && Replay(after.events) == ReplayStep(Replay(st.events), after.events[k])
  {
    var step := st.steps[i].(status := status, completedAt := Some(clock(st.ticks)), error := error);
    var finished := Touch(clock, st.(steps := st.steps[i := step], ticks := st.ticks + 1));
    ReplayRecord(clock, finished, if status.Completed? then EventKind.StepCompleted else EventKind.StepFailed,
                 Some(step.stepId), None, None);
    hide Replay;
  }

  lemma FinishStepFaithful(clock: nat -> int, st: RunState, i: nat, outcome: StepOutcome, status: StepStatus,
                           error: Option<string>)
    requires i < |st.steps| && LogMatches(st, Replay(st.events))
    requires |Replay(st.events).steps| == i + 1
    requires ClosesFrom(Replay(st.events).phase, st.steps[i].stepId, outcome)
    requires status == if outcome.StepDone? then StepStatus.Completed else StepStatus.Failed
    ensures var after := FinishStep(clock, st, i, status, error);
            var r := Replay(after.events);
            && LogMatches(after, r) && |r.steps| == i + 1
            && r.phase == if outcome.StepStopped? then Stopping else Idle
  {
    hide FinishStep, Replay, Traces, ResultIds, StepTraces;
    FinishLogs(clock, st, i, status, error);
    LastStepTraced(st.steps, i, FinishStep(clock, st, i, status, error).steps[i]);
  }

  lemma CreateCallFaithful(clock: nat -> int, st: RunState, stepId: string, request: PlannerDecision, attempts: nat)
    requires request.Call? && LogMatches(st, Replay(st.events))
    requires Replay(st.events).phase == Requesting(stepId, attempts + 1)
    ensures var after := CreateCall(clock, st, stepId, request, attempts);
            var r := Replay(after.events);
            && after.calls != []
            && after.hasPlan == st.hasPlan && after.steps == st.steps && r.steps == Replay(st.events).steps
            && LogMatches(after, r)
            && r.phase == Creating(stepId, after.calls[|after.calls| - 1].callId, attempts + 1)
  {
    var after := CreateCall(clock, st, stepId, request, attempts);
    var call := after.calls[|after.calls| - 1];
    var pending := st.(calls := st.calls + [call], ticks := st.ticks + 1, nextCall := st.nextCall + 1);
    ReplayRecord(clock, pending, CallCreated(request.toolName, attempts + 1), Some(stepId), Some(call.callId), None);
    assert Replay(after.events).calls == Traces(after.calls);
  }

  lemma StartCallFaithful(clock: nat -> int, st: RunState, stepId: string, attempt: nat)
    requires st.calls != [] && LogMatches(st, Replay(st.events))
    requires Replay(st.events).phase == Creating(stepId, st.calls[|st.calls| - 1].callId, attempt)
    ensures var after := StartCall(clock, st, stepId);
            var r := Replay(after.events);
            && after.calls != []
            && after.hasPlan == st.hasPlan && after.steps == st.steps && r.steps == Replay(st.events).steps
            && LogMatches(after, r)
            && r.phase == Executing(stepId, after.calls[|after.calls| - 1].callId, attempt)
  {
    var after := StartCall(clock, st, stepId);
    var call := st.calls[|st.calls| - 1];
    var running := call.(status := CallStatus.Running, startedAt := Some(clock(st.ticks)));
    var touched := Touch(clock, SetLastCall(st.(ticks := st.ticks + 1), running));
    ReplayRecord(clock, touched, CallStarted, Some(stepId), Some(call.callId), None);
    LastTraced(st.calls, running);
    hide Replay, Traces, ResultIds, StepTraces;
  }

  lemma BeginAttemptFaithful(clock: nat -> int, st: RunState, stepId: string, request: PlannerDecision, attempts: nat)
    requires request.Call? && LogMatches(st, Replay(st.events))
    requires Replay(st.events).phase == Requesting(stepId, attempts + 1)
    ensures var after := BeginAttempt(clock, st, stepId, request, attempts);
            var r := Replay(after.events);
            && after.calls != []
            && after.hasPlan == st.hasPlan && after.steps == st.steps && r.steps == Replay(st.events).steps
            && LogMatches(after, r)
            && r.phase == Executing(stepId, after.calls[|after.calls| - 1].callId, attempts + 1)
  {
    CreateCallFaithful(clock, st, stepId, request, attempts);
    var created := CreateCall(clock, st, stepId, request, attempts);
    hide CreateCall, StartCall, Replay;
    StartCallFaithful(clock, created, stepId, attempts + 1);
  }

  /** A raise rewrites the newest call and logs one event. */
  lemma RaiseLogs(clock: nat -> int, st: RunState, stepId: string, attempts: nat)
    requires st.calls != []
    ensures var after, k, last := AbsorbRaise(clock, st, stepId, attempts), |st.events|, |st.calls| - 1;
            && |after.calls| == |st.calls| && after.calls == st.calls[..last] + [after.calls[last]]
            && after.calls[last].status == CallStatus.Failed
            && after.calls[last].(status := st.calls[last].status, completedAt := st.calls[last].completedAt)
              == st.calls[last]
            && after.results == st.results && after.totalFailures == st.totalFailures + 1
            && after.steps == st.steps && after.hasPlan == st.hasPlan
            && |after.events| == k + 1 && after.events[k].kind == CallFailed(ExecutorException, attempts + 1)
            && after.events[k].stepId == Some(stepId) && after.events[k].callId == Some(st.calls[last].callId)
            && after.events[k].resultId == None
            && Replay(after.events) == ReplayStep(Replay(st.events), after.events[k])
  {
    var call := st.calls[|st.calls| - 1];
    var counted := RecordAttempt(st.(totalCalls := st.totalCalls + 1, totalFailures := st.totalFailures + 1),
                                 stepId, attempts + 1);
    var failed := call.(status := CallStatus.Failed, completedAt := Some(clock(counted.ticks)));
    var touched := Touch(clock, SetLastCall(counted.(ticks := counted.ticks + 1), failed));
    ReplayRecord(clock, touched, CallFailed(ExecutorException, attempts + 1), Some(stepId), Some(call.callId), None);
    hide Replay;
  }

  lemma AbsorbRaiseFaithful(clock: nat -> int, st: RunState, stepId: string, attempts: nat)
    requires st.calls != [] && LogMatches(st, Replay(st.events))
    requires Replay(st.events).phase == Executing(stepId, st.calls[|st.calls| - 1].callId, attempts + 1)
    ensures var after := AbsorbRaise(clock, st, stepId, attempts);
            var r := Replay(after.events);
            && LogMatches(after, r) && r.steps == Replay(st.events).steps
            && after.steps == st.steps && after.hasPlan == st.hasPlan
            && r.phase == Failing(stepId, st.calls[|st.calls| - 1].callId, attempts + 1, ExecutorException)
  {
    hide AbsorbRaise, Replay, Traces, ResultIds, StepTraces;
    RaiseLogs(clock, st, stepId, attempts);
    LastTraced(st.calls, AbsorbRaise(clock, st, stepId, attempts).calls[|st.calls| - 1]);
  }

  lemma SettleTraces(clock: nat -> int, st: RunState, stepId: string, attempts: nat, result: ToolResult)
    requires st.calls != []
    ensures var after := Settle(clock, st, stepId, attempts, result);
            var r := Replayed(Fresh, Traces(st.calls), ResultIds(st.results), [], 0);
            && r.SetLastCall(if result.success then CallStatus.Succeeded else CallStatus.Failed).calls
               == Traces(after.calls)
            && r.resultIds + [result.resultId] == ResultIds(after.results)
            && |after.calls| == |st.calls|
            && after.calls[|after.calls| - 1].callId == st.calls[|st.calls| - 1].callId
  {
  }

  lemma AbsorbResultFaithful(clock: nat -> int, st: RunState, stepId: string, attempts: nat, result: ToolResult)
    requires st.calls != [] && LogMatches(st, Replay(st.events))
    requires Replay(st.events).phase == Executing(stepId, st.calls[|st.calls| - 1].callId, attempts + 1)
    ensures var after := AbsorbResult(clock, st, stepId, attempts, result);
            var r := Replay(after.events);
            && LogMatches(after, r) && r.steps == Replay(st.events).steps
            && after.steps == st.steps && after.hasPlan == st.hasPlan
            && after.calls != [] && after.calls[|after.calls| - 1].callId == st.calls[|st.calls| - 1].callId
            && r.phase == if result.success then InStep(stepId)
                          else Failing(stepId, st.calls[|st.calls| - 1].callId, attempts + 1,
                                       Budget.ClassifyToolFailure(result.error))
  {
    var settled := Settle(clock, st, stepId, attempts, result);
    SettleTraces(clock, st, stepId, attempts, result);
    ReplayRecord(clock, settled, OutcomeKind(result, attempts + 1), Some(stepId),
                 Some(st.calls[|st.calls| - 1].callId), Some(result.resultId));
    assert settled.events == st.events && settled.steps == st.steps;
  }

  lemma AfterFailureFaithful<P, E>(w: World<P, E>, st: RunState, i: nat, request: PlannerDecision, attempts: nat,
                                   result: ToolResult, r: Config<P, E>)
    requires request.Call? && i < |st.steps| && st.hasPlan && st.calls != []
    requires LogMatches(st, Replay(st.events)) && |Replay(st.events).steps| == i + 1
    requires Replay(st.events).phase == Failing(st.steps[i].stepId, st.calls[|st.calls| - 1].callId, attempts + 1,
                                                Budget.ClassifyToolFailure(result.error))
    requires r.control == AfterFailure(w.retry, i, request, attempts, result)
    requires r.st == if r.control.Calling? then ScheduleRetry(w.clock, st, st.steps[i].stepId, attempts) else st
    ensures Faithful(r)
  {
    ReplayRecord(w.clock, st, RetryScheduled(attempts + 2), Some(st.steps[i].stepId),
                 Some(st.calls[|st.calls| - 1].callId), None);
  }

  lemma AttemptedFaithful<P, E>(w: World<P, E>, c: Config<P, E>, begun: RunState, executor: E, reply: ExecutorReply)
    requires c.control.Calling? && c.control.request.Call?
    requires begun.calls != [] && c.control.i < |begun.steps| && begun.hasPlan
    requires var r := Replay(begun.events);
             && LogMatches(begun, r) && |r.steps| == c.control.i + 1
             && r.phase == Executing(begun.steps[c.control.i].stepId, begun.calls[|begun.calls| - 1].callId,
                                     c.control.attempts + 1)
    ensures Faithful(Attempted(w, c, begun, executor, reply))
  {
    var Calling(i, request, attempts) := c.control;
    var stepId := begun.steps[i].stepId;
    match reply {
      case ExecutorRaised => AbsorbRaiseFaithful(w.clock, begun, stepId, attempts);
      case Returned(result) =>
        AbsorbResultFaithful(w.clock, begun, stepId, attempts, result);
        if !result.success {
          var st := AbsorbResult(w.clock, begun, stepId, attempts, result);
          AfterFailureFaithful(w, st, i, request, attempts, result, Attempted(w, c, begun, executor, reply));
        }
    }
  }

  lemma AttemptFaithful<P, E>(w: World<P, E>, c: Config<P, E>)
    requires Faithful(c) && c.control.Calling?
    ensures Faithful(AttemptStep(w, c))
  {
    hide Replay, BeginAttempt, Attempted;
    var Calling(i, request, attempts) := c.control;
    if Blocked(w, c.st, i).None? {
      hide LogMatches;
      var begun, executor, reply := AttemptUnfolds(w, c);
      BeginAttemptFaithful(w.clock, c.st, c.st.steps[i].stepId, request, attempts);
      AttemptedFaithful(w, c, begun, executor, reply);
    }
  }

  lemma PlanFaithful<P, E>(w: World<P, E>, c: Config<P, E>)
    requires Faithful(c) && c.control.Start?
    ensures Faithful(PlanStep(w, c))
  {
    var st := EnterPlanning(w.clock, c.st);
    var (_, reply) := w.createPlan(c.planner, w.alert);
    match reply {
      case PlanRaised =>
        TerminateFaithful(w.clock, st, RuntimeStatus.Failed, PlannerFailed, RunFailed);
      case Planned(steps) =>
        var planned := Touch(w.clock, st.(hasPlan := true, steps := steps, status := RuntimeStatus.Running));
        ReplayRecord(w.clock, planned, PlanCreated(|steps|), None, None, None);
    }
  }

  lemma BoundaryFaithful<P, E>(w: World<P, E>, c: Config<P, E>)
    requires Faithful(c) && c.control.Boundary?
    ensures Faithful(BoundaryStep(w, c))
  {
    var i := c.control.i;
    if i == |c.st.steps| {
      TerminateFaithful(w.clock, c.st, RuntimeStatus.Failed, StopReason.StepFailed, RunFailed);
      TerminateFaithful(w.clock, c.st, RuntimeStatus.Completed, StopReason.Completed, RunCompleted);
    } else {
      TerminateFaithful(w.clock, c.st, RuntimeStatus.BudgetExhausted, MaxStepsExceeded, RunExhausted);
      StartStepFaithful(w.clock, c.st, i);
    }
  }

  lemma DecideFaithful<P, E>(w: World<P, E>, c: Config<P, E>)
    requires Faithful(c) && c.control.Deciding?
    ensures Faithful(DecideStep(w, c))
  {
    var i := c.control.i;
    var (_, reply) := w.decide(c.planner, Context(w, c.st, i));
    if reply.Decided? {
      ReplayRecord(w.clock, c.st, DecisionMade(reply.decision.Action()), Some(c.st.steps[i].stepId), None, None);
    }
  }

  lemma CloseFaithful<P, E>(w: World<P, E>, c: Config<P, E>)
    requires Faithful(c) && c.control.Closing?
    ensures Faithful(CloseStep(w, c))
  {
    var Closing(i, outcome) := c.control;
    match outcome {
      case StepDone => FinishStepFaithful(w.clock, c.st, i, outcome, StepStatus.Completed, None);
      case StepGaveUp(error) => FinishStepFaithful(w.clock, c.st, i, outcome, StepStatus.Failed, Some(error));
      case StepStopped(reason, error) =>
        FinishStepFaithful(w.clock, c.st, i, outcome, StepStatus.Failed, Some(error));
        var st := FinishStep(w.clock, c.st, i, StepStatus.Failed, Some(error));
        TerminateFaithful(w.clock, st, RuntimeStatus.BudgetExhausted, reason, RunExhausted);
        TerminateFaithful(w.clock, st, RuntimeStatus.Failed, reason, RunFailed);
    }
  }

  /** Every transition keeps the log faithful and inside the protocol. */
  lemma NextFaithful<P, E>(w: World<P, E>, c: Config<P, E>)
    requires Faithful(c) && !c.control.Done?
    ensures Faithful(Next(w, c))
  {
    match c.control {
      case Start => PlanFaithful(w, c);
      case Boundary(_) => BoundaryFaithful(w, c);
      case Deciding(_) => DecideFaithful(w, c);
      case Calling(_, _, _) => AttemptFaithful(w, c);
      case Closing(_, _) => CloseFaithful(w, c);
    }
  }

  lemma {:induction false} RunFaithful<P, E>(w: World<P, E>, c: Config<P, E>)
    requires Faithful(c)
    ensures Faithful(RunToEnd(w, c))
    decreases c.control.Start?, !c.control.Done?, Measure(w, c)
  {
    if !c.control.Done? {
      NextDecreases(w, c);
      NextFaithful(w, c);
      RunFaithful(w, Next(w, c));
    }
  }

  /** For every planner, executor, clock and budget: the automaton accepts the events of
      the finished run, and the fold over the events rebuilds what the run reports. */
  lemma TrajectoryReplaysTheRun<P, E>(w: World<P, E>, planner: P, executor: E, incidentId: string, ticks: nat,
                                      nextCall: nat)
    ensures var run := RunToEnd(w, Initial(w, planner, executor, incidentId, ticks, nextCall)).st;
            var r := Replay(run.events);
            && r.phase == Ended
            && r.calls == Traces(run.calls)
            && r.resultIds == ResultIds(run.results)
            && r.failures == run.totalFailures
            && |r.steps| <= |run.steps|
            && r.steps == StepTraces(run.steps, |r.steps|)
  {
    InitialFaithful(w, planner, executor, incidentId, ticks, nextCall);
    RunFaithful(w, Initial(w, planner, executor, incidentId, ticks, nextCall));
  }
}
