/** The investigation runtime as a state machine (app/runtime/runtime.py).

    One transition is one iteration of one of the runtime's loops, or one return
    from a nested loop to the loop around it. The planner, the executor and the
    clock are arbitrary: each is a function together with a private state, so a
    collaborator that is stateful or that answers from a prerecorded stream is
    covered as well as a pure one. */
module Machine {
  import opened Contracts
  import opened Budget
  import Ids

  datatype World<!P, !E> = World(
    alert: Alert,
    budget: InvestigationBudget,
    retry: RetryPolicy,
    clock: nat -> int,
    createPlan: (P, Alert) -> (P, PlanReply),
    decide: (P, PlanningContext) -> (P, PlannerReply),
    execute: (E, ToolCall) -> (E, ExecutorReply))

  /** The runtime state of one incident together with its trajectory, the number of
      clock readings taken so far and the next number of the tool-call id family. */
  datatype RunState = RunState(
    incidentId: string,
    hasPlan: bool, steps: seq<Step>, currentStep: Option<string>,
    calls: seq<ToolCall>, results: seq<ToolResult>, stepAttempts: map<string, nat>,
    totalCalls: nat, totalFailures: nat,
    status: RuntimeStatus, stopReason: Option<StopReason>,
    startedAt: int, updatedAt: int, completedAt: Option<int>,
    events: seq<Event>, ticks: nat, nextCall: nat)

  /** How a step ends: completed, failed on its own, or failed together with the run. */
  datatype StepOutcome =
    | StepDone
    | StepGaveUp(error: string)
    | StepStopped(reason: StopReason, error: string)

  datatype Control =
    | Start
    | Boundary(i: nat)
    | Deciding(i: nat)
    | Calling(i: nat, request: PlannerDecision, attempts: nat)
    | Closing(i: nat, outcome: StepOutcome)
    | Done

  datatype Config<P, E> = Config(
    control: Control, st: RunState, failedSteps: nat, planner: P, executor: E)

  // ----- bookkeeping -------------------------------------------------------------

  function CountInStep(calls: seq<ToolCall>, stepId: string): nat {
    if calls == [] then 0
    else CountInStep(calls[..|calls| - 1], stepId) + (if calls[|calls| - 1].stepId == stepId then 1 else 0)
  }

  function Touch(clock: nat -> int, st: RunState): RunState {
    st.(updatedAt := clock(st.ticks), ticks := st.ticks + 1)
  }

  function Record(clock: nat -> int, st: RunState, kind: EventKind, stepId: Option<string>,
                  callId: Option<string>, resultId: Option<string>): RunState
  {
    var event := Event(|st.events| + 1, clock(st.ticks), st.incidentId, kind, stepId, callId, resultId);
    st.(events := st.events + [event], ticks := st.ticks + 1)
  }

  function RecordAttempt(st: RunState, stepId: string, attempts: nat): RunState {
    var known := if stepId in st.stepAttempts then st.stepAttempts[stepId] else 0;
    st.(stepAttempts := st.stepAttempts[stepId := if known < attempts then attempts else known])
  }

  function SetLastCall(st: RunState, call: ToolCall): RunState
    requires st.calls != []
  {
    st.(calls := st.calls[..|st.calls| - 1] + [call])
  }

  function Max0(n: int): int {
    if n < 0 then 0 else n
  }

  // ----- the pieces of one transition ---------------------------------------------

  function Opened(clock: nat -> int, incidentId: string, ticks: nat, nextCall: nat): RunState {
    var st := RunState(incidentId, false, [], None, [], [], map[], 0, 0, RuntimeStatus.Initialized, None,
                       clock(ticks), clock(ticks), None, [], ticks + 1, nextCall);
    Record(clock, st, InvestigationStarted, None, None, None)
  }

  function EnterPlanning(clock: nat -> int, st: RunState): RunState {
    Touch(clock, st.(status := RuntimeStatus.Planning))
  }

  function AdoptPlan(clock: nat -> int, st: RunState, steps: seq<Step>): RunState {
    var planned := Touch(clock, st.(hasPlan := true, steps := steps, status := RuntimeStatus.Running));
    Record(clock, planned, PlanCreated(|steps|), None, None, None)
  }

  function Terminate(clock: nat -> int, st: RunState, status: RuntimeStatus, reason: StopReason,
                     kind: EventKind): RunState
  {
    var now := clock(st.ticks);
    Record(clock, st.(status := status, stopReason := Some(reason), completedAt := Some(now),
                      updatedAt := now, ticks := st.ticks + 1), kind, None, None, None)
  }

  function TerminateForStopReason(clock: nat -> int, st: RunState, reason: StopReason): RunState {
    if reason.IsBudgetReason() then Terminate(clock, st, RuntimeStatus.BudgetExhausted, reason, RunExhausted)
    else Terminate(clock, st, RuntimeStatus.Failed, reason, RunFailed)
  }

  function StartStep(clock: nat -> int, st: RunState, i: nat): RunState
    requires i < |st.steps|
  {
    var step := st.steps[i].(startedAt := Some(clock(st.ticks)), status := StepStatus.Running);
    var running := Touch(clock, st.(currentStep := Some(step.stepId), steps := st.steps[i := step],
                                    ticks := st.ticks + 1));
    Record(clock, running, StepStarted, Some(step.stepId), None, None)
  }

  function FinishStep(clock: nat -> int, st: RunState, i: nat, status: StepStatus,
                      error: Option<string>): RunState
    requires i < |st.steps|
  {
    var step := st.steps[i].(status := status, completedAt := Some(clock(st.ticks)), error := error);
    var finished := Touch(clock, st.(steps := st.steps[i := step], ticks := st.ticks + 1));
    Record(clock, finished, if status.Completed? then EventKind.StepCompleted else EventKind.StepFailed,
           Some(step.stepId), None, None)
  }

  function Context<P, E>(w: World<P, E>, st: RunState, i: nat): PlanningContext
    requires i < |st.steps|
  {
    PlanningContext(w.alert, st.steps, st.steps[i], st.calls, st.results,
                    Max0(w.budget.maxToolCalls - st.totalCalls),
                    Max0(w.budget.maxToolCallsPerStep - CountInStep(st.calls, st.steps[i].stepId)))
  }

  function Blocked<P, E>(w: World<P, E>, st: RunState, i: nat): Option<StopReason>
    requires i < |st.steps|
  {
    w.budget.Block(st.totalCalls, CountInStep(st.calls, st.steps[i].stepId), st.totalFailures)
  }

  /** Create the call object of one attempt. */
  function CreateCall(clock: nat -> int, st: RunState, stepId: string, request: PlannerDecision,
                      attempts: nat): RunState
    requires request.Call?
  {
    var callId := Ids.FormatId(Ids.TOOL_CALL_PREFIX, st.nextCall);
    var call := ToolCall(callId, st.incidentId, stepId, request.toolName, request.arguments,
                         request.rationale, CallStatus.Requested, clock(st.ticks), None, None);
    Record(clock, st.(calls := st.calls + [call], ticks := st.ticks + 1, nextCall := st.nextCall + 1),
           CallCreated(request.toolName, attempts + 1), Some(stepId), Some(callId), None)
  }

  /** Mark the newest call running. */
  function StartCall(clock: nat -> int, st: RunState, stepId: string): RunState
    requires st.calls != []
  {
    var call := st.calls[|st.calls| - 1];
    var running := call.(status := CallStatus.Running, startedAt := Some(clock(st.ticks)));
    var touched := Touch(clock, SetLastCall(st.(ticks := st.ticks + 1), running));
    Record(clock, touched, CallStarted, Some(stepId), Some(call.callId), None)
  }

  function BeginAttempt(clock: nat -> int, st: RunState, stepId: string, request: PlannerDecision,
                        attempts: nat): RunState
    requires request.Call?
  {
    StartCall(clock, CreateCall(clock, st, stepId, request, attempts), stepId)
  }

  /** The executor raised: the attempt counts as a failed call without a result. */
  function AbsorbRaise(clock: nat -> int, st: RunState, stepId: string, attempts: nat): RunState
    requires st.calls != []
  {
    var call := st.calls[|st.calls| - 1];
    var counted := RecordAttempt(st.(totalCalls := st.totalCalls + 1, totalFailures := st.totalFailures + 1),
                                 stepId, attempts + 1);
    var failed := call.(status := CallStatus.Failed, completedAt := Some(clock(counted.ticks)));
    var touched := Touch(clock, SetLastCall(counted.(ticks := counted.ticks + 1), failed));
    Record(clock, touched, CallFailed(ExecutorException, attempts + 1), Some(stepId), Some(call.callId), None)
  }

  /** The executor returned: store the result, settle the call, count the attempt. */
  function Settle(clock: nat -> int, st: RunState, stepId: string, attempts: nat, result: ToolResult): RunState
    requires st.calls != []
  {
    var settled := st.calls[|st.calls| - 1]
                   .(completedAt := Some(clock(st.ticks)),
                     status := if result.success then CallStatus.Succeeded else CallStatus.Failed);
    var stored := SetLastCall(st.(ticks := st.ticks + 1, results := st.results + [result],
                                  totalCalls := st.totalCalls + 1,
                                  totalFailures := st.totalFailures + if result.success then 0 else 1), settled);
    RecordAttempt(stored, stepId, attempts + 1)
  }

  function OutcomeKind(result: ToolResult, attempt: nat): EventKind {
    if result.success then CallSucceeded(attempt) else CallFailed(ClassifyToolFailure(result.error), attempt)
  }

  function AbsorbResult(clock: nat -> int, st: RunState, stepId: string, attempts: nat,
                        result: ToolResult): RunState
    requires st.calls != []
  {
    Record(clock, Settle(clock, st, stepId, attempts, result), OutcomeKind(result, attempts + 1),
           Some(stepId), Some(st.calls[|st.calls| - 1].callId), Some(result.resultId))
  }

  function ScheduleRetry(clock: nat -> int, st: RunState, stepId: string, attempts: nat): RunState
    requires st.calls != []
  {
    Record(clock, st, RetryScheduled(attempts + 2), Some(stepId), Some(st.calls[|st.calls| - 1].callId), None)
  }

  const PLANNER_RAISED_ERROR := "planner raised"
  const EXECUTOR_RAISED_ERROR := "tool executor raised"
  const UNRECOVERABLE_ERROR := "unrecoverable tool failure"

  function FailureText(toolName: string, attempts: nat): string {
    toolName + " failed after " + Ids.Decimal(attempts) + " attempt(s)"
  }

  /** What a failed attempt leads to: another attempt, a failed step or a stopped run. */
  function AfterFailure(retry: RetryPolicy, i: nat, request: PlannerDecision, attempts: nat,
                        result: ToolResult): Control
  {
    var kind := ClassifyToolFailure(result.error);
    if retry.ShouldRetry(kind, attempts + 1) then Calling(i, request, attempts + 1)
    else if kind.ExecutionError? then Closing(i, StepGaveUp(FailureText(result.toolName, attempts + 1)))
    else Closing(i, StepStopped(UnrecoverableToolError, UNRECOVERABLE_ERROR))
  }

  // ----- transitions ---------------------------------------------------------------

  predicate WellFormed<P, E>(c: Config<P, E>) {
    match c.control
    case Start => c.st.steps == [] && !c.st.hasPlan
    case Boundary(i) => i <= |c.st.steps| && c.st.hasPlan
    case Deciding(i) => i < |c.st.steps| && c.st.hasPlan
    case Calling(i, request, _) => i < |c.st.steps| && c.st.hasPlan && request.Call?
    case Closing(i, _) => i < |c.st.steps| && c.st.hasPlan
    case Done => true
  }

  function PlanStep<P, E>(w: World<P, E>, c: Config<P, E>): (r: Config<P, E>)
    requires c.control.Start?
    ensures WellFormed(r)
  {
    var st := EnterPlanning(w.clock, c.st);
    var (planner, reply) := w.createPlan(c.planner, w.alert);
    match reply
    case PlanRaised =>
      Config(Done, Terminate(w.clock, st, RuntimeStatus.Failed, PlannerFailed, RunFailed),
             c.failedSteps, planner, c.executor)
    case Planned(steps) =>
      Config(Boundary(0), AdoptPlan(w.clock, st, steps), c.failedSteps, planner, c.executor)
  }

  function BoundaryStep<P, E>(w: World<P, E>, c: Config<P, E>): (r: Config<P, E>)
    requires WellFormed(c) && c.control.Boundary?
    ensures WellFormed(r)
  {
    var i := c.control.i;
    if i == |c.st.steps| then
      if c.failedSteps > 0 then
        c.(control := Done, st := Terminate(w.clock, c.st, RuntimeStatus.Failed, StopReason.StepFailed, RunFailed))
      else
        c.(control := Done,
           st := Terminate(w.clock, c.st, RuntimeStatus.Completed, StopReason.Completed, RunCompleted))
    else
      var stop := w.budget.StopReasonForStepStart(i);
      if stop.Some? then
        c.(control := Done, st := Terminate(w.clock, c.st, RuntimeStatus.BudgetExhausted, stop.value, RunExhausted))
      else
        c.(control := Deciding(i), st := StartStep(w.clock, c.st, i))
  }

  function DecideStep<P, E>(w: World<P, E>, c: Config<P, E>): (r: Config<P, E>)
    requires WellFormed(c) && c.control.Deciding?
    ensures WellFormed(r)
  {
    var i := c.control.i;
    var (planner, reply) := w.decide(c.planner, Context(w, c.st, i));
    match reply
    case PlannerRaised =>
      c.(control := Closing(i, StepStopped(PlannerFailed, PLANNER_RAISED_ERROR)), planner := planner)
    case Decided(decision) =>
      var st := Record(w.clock, c.st, DecisionMade(decision.Action()), Some(c.st.steps[i].stepId), None, None);
      var control := match decision
        case Complete(_) => Closing(i, StepDone)
        case Fail(rationale) => Closing(i, StepGaveUp(rationale))
        case Call(_, _, _) => Calling(i, decision, 0);
      c.(control := control, st := st, planner := planner)
  }

  /** What the executor's reply to the call begun last leads to. */
  function Attempted<P, E>(w: World<P, E>, c: Config<P, E>, begun: RunState, executor: E,
                           reply: ExecutorReply): (r: Config<P, E>)
    requires c.control.Calling? && c.control.request.Call?
    requires begun.calls != [] && c.control.i < |begun.steps| && begun.hasPlan
    ensures WellFormed(r)
  {
    var Calling(i, request, attempts) := c.control;
    var stepId := begun.steps[i].stepId;
    match reply
    case ExecutorRaised =>
      Config(Closing(i, StepStopped(UnrecoverableToolError, EXECUTOR_RAISED_ERROR)),
             AbsorbRaise(w.clock, begun, stepId, attempts), c.failedSteps, c.planner, executor)
    case Returned(result) =>
      var st := AbsorbResult(w.clock, begun, stepId, attempts, result);
      if result.success then
        Config(Deciding(i), st, c.failedSteps, c.planner, executor)
      else
        var control := AfterFailure(w.retry, i, request, attempts, result);
        Config(control, if control.Calling? then ScheduleRetry(w.clock, st, stepId, attempts) else st,
               c.failedSteps, c.planner, executor)
  }

  function AttemptStep<P, E>(w: World<P, E>, c: Config<P, E>): (r: Config<P, E>)
    requires WellFormed(c) && c.control.Calling?
    ensures WellFormed(r)
  {
    var Calling(i, request, attempts) := c.control;
    var stop := Blocked(w, c.st, i);
    if stop.Some? then
      c.(control := Closing(i, StepStopped(stop.value, stop.value.Name())))
    else
      var begun := BeginAttempt(w.clock, c.st, c.st.steps[i].stepId, request, attempts);
      var (executor, reply) := w.execute(c.executor, begun.calls[|begun.calls| - 1]);
      Attempted(w, c, begun, executor, reply)
  }

  function CloseStep<P, E>(w: World<P, E>, c: Config<P, E>): (r: Config<P, E>)
    requires WellFormed(c) && c.control.Closing?
    ensures WellFormed(r)
  {
    var i := c.control.i;
    match c.control.outcome
    case StepDone =>
      c.(control := Boundary(i + 1), st := FinishStep(w.clock, c.st, i, StepStatus.Completed, None))
    case StepGaveUp(error) =>
      c.(control := Boundary(i + 1), st := FinishStep(w.clock, c.st, i, StepStatus.Failed, Some(error)),
         failedSteps := c.failedSteps + 1)
    case StepStopped(reason, error) =>
      var st := FinishStep(w.clock, c.st, i, StepStatus.Failed, Some(error));
      c.(control := Done, st := TerminateForStopReason(w.clock, st, reason))
  }

  function Next<P, E>(w: World<P, E>, c: Config<P, E>): (r: Config<P, E>)
    requires WellFormed(c) && !c.control.Done?
    ensures WellFormed(r)
  {
    match c.control
    case Start => PlanStep(w, c)
    case Boundary(_) => BoundaryStep(w, c)
    case Deciding(_) => DecideStep(w, c)
    case Calling(_, _, _) => AttemptStep(w, c)
    case Closing(_, _) => CloseStep(w, c)
  }

  // ----- termination -----------------------------------------------------------------

  function RemainingCalls<P, E>(w: World<P, E>, st: RunState): nat {
    Max0(w.budget.maxToolCalls - st.totalCalls)
  }

  /** Bounds the transitions still possible once a plan exists. */
  function Measure<P, E>(w: World<P, E>, c: Config<P, E>): nat
    requires WellFormed(c)
  {
    match c.control
    case Start => 0
    case Boundary(i) => 4 * (|c.st.steps| - i) + 3 * RemainingCalls(w, c.st) + 3
    case Deciding(i) => 4 * (|c.st.steps| - i) + 3 * RemainingCalls(w, c.st) + 2
    case Calling(i, _, _) => 4 * (|c.st.steps| - i) + 3 * RemainingCalls(w, c.st) + 1
    case Closing(i, _) => 4 * (|c.st.steps| - i) + 3 * RemainingCalls(w, c.st)
    case Done => 0
  }

  ghost predicate Progress<P, E>(w: World<P, E>, c: Config<P, E>, n: Config<P, E>)
    requires WellFormed(c)
  {
    && WellFormed(n) && !n.control.Start?
    && (c.control.Start? || n.control.Done? || Measure(w, n) < Measure(w, c))
  }

  lemma AttemptProgress<P, E>(w: World<P, E>, c: Config<P, E>)
    requires WellFormed(c) && c.control.Calling?
    ensures Progress(w, c, AttemptStep(w, c))
  {
    hide BeginAttempt, Attempted;
    var Calling(i, request, attempts) := c.control;
    if Blocked(w, c.st, i).None? {
      assert c.st.totalCalls < w.budget.maxToolCalls;
      var begun := BeginAttempt(w.clock, c.st, c.st.steps[i].stepId, request, attempts);
      BeginKeepsSteps(w.clock, c.st, c.st.steps[i].stepId, request, attempts);
      var reply := w.execute(c.executor, begun.calls[|begun.calls| - 1]);
      AttemptedProgress(w, c, begun, reply.0, reply.1);
    }
  }

  lemma BeginKeepsSteps(clock: nat -> int, st: RunState, stepId: string, request: PlannerDecision, attempts: nat)
    requires request.Call?
    ensures var begun := BeginAttempt(clock, st, stepId, request, attempts);
            && begun.steps == st.steps && begun.totalCalls == st.totalCalls && begun.hasPlan == st.hasPlan
            && begun.calls != []
  {
  }

  lemma AttemptedProgress<P, E>(w: World<P, E>, c: Config<P, E>, begun: RunState, executor: E, reply: ExecutorReply)
    requires c.control.Calling? && c.control.request.Call?
    requires begun.calls != [] && c.control.i < |begun.steps| && begun.hasPlan
    ensures var n := Attempted(w, c, begun, executor, reply);
            && n.st.steps == begun.steps && n.st.totalCalls == begun.totalCalls + 1
            && (n.control.Deciding? || n.control.Calling? || n.control.Closing?) && n.control.i == c.control.i
  {
  }

  lemma CloseProgress<P, E>(w: World<P, E>, c: Config<P, E>)
    requires WellFormed(c) && c.control.Closing?
    ensures Progress(w, c, CloseStep(w, c))
  {
    hide TerminateForStopReason;
  }

  lemma BoundaryProgress<P, E>(w: World<P, E>, c: Config<P, E>)
    requires WellFormed(c) && c.control.Boundary?
    ensures Progress(w, c, BoundaryStep(w, c))
  {
    hide Terminate;
  }

  lemma DecideProgress<P, E>(w: World<P, E>, c: Config<P, E>)
    requires WellFormed(c) && c.control.Deciding?
    ensures Progress(w, c, DecideStep(w, c))
  {
  }

  /** Every transition makes progress, whatever the planner and the executor answer. */
  lemma NextDecreases<P, E>(w: World<P, E>, c: Config<P, E>)
    requires WellFormed(c) && !c.control.Done?
    ensures Progress(w, c, Next(w, c))
  {
    hide AttemptStep, BoundaryStep, DecideStep, CloseStep, Measure;
    match c.control {
      case Start =>
      case Boundary(_) => BoundaryProgress(w, c);
      case Deciding(_) => DecideProgress(w, c);
      case Calling(_, _, _) => AttemptProgress(w, c);
      case Closing(_, _) => CloseProgress(w, c);
    }
  }

  /** The configuration in which the run ends. */
  function RunToEnd<P, E>(w: World<P, E>, c: Config<P, E>): (r: Config<P, E>)
    requires WellFormed(c)
    ensures WellFormed(r) && r.control.Done?
    decreases c.control.Start?, !c.control.Done?, Measure(w, c)
  {
    if c.control.Done? then c
    else
      NextDecreases(w, c);
      RunToEnd(w, Next(w, c))
  }

  /** The configuration right after the investigation-started event. */
  function Initial<P, E>(w: World<P, E>, planner: P, executor: E, incidentId: string, ticks: nat,
                         nextCall: nat): (c: Config<P, E>)
    ensures WellFormed(c)
  {
    Config(Start, Opened(w.clock, incidentId, ticks, nextCall), 0, planner, executor)
  }

  /** `n` transitions, or fewer when the run ends earlier. */
  function After<P, E>(w: World<P, E>, c: Config<P, E>, n: nat): (r: Config<P, E>)
    requires WellFormed(c)
    ensures WellFormed(r)
    decreases n
  {
    if n == 0 || c.control.Done? then c else After(w, Next(w, c), n - 1)
  }

  /** A planned run ends within a number of transitions that only its plan and its budget determine. */
  lemma {:induction false} EndsWithinMeasure<P, E>(w: World<P, E>, c: Config<P, E>, n: nat)
    requires WellFormed(c) && !c.control.Start?
    requires n >= Measure(w, c) + 1
    ensures After(w, c, n) == RunToEnd(w, c)
    decreases n
  {
    hide Next;
    if !c.control.Done? {
      NextDecreases(w, c);
      EndsWithinMeasure(w, Next(w, c), n - 1);
    }
  }

  lemma AtEnd<P, E>(w: World<P, E>, c: Config<P, E>)
    requires WellFormed(c) && c.control.Done?
    ensures RunToEnd(w, c) == c
  {
  }

  lemma OneStep<P, E>(w: World<P, E>, c: Config<P, E>)
    requires WellFormed(c) && !c.control.Done?
    ensures RunToEnd(w, c) == RunToEnd(w, Next(w, c))
  {
    NextDecreases(w, c);
    hide Next, Measure;
  }

  /** Stopping to look on the way does not change where a run ends. */
  lemma {:induction false} AfterReachesEnd<P, E>(w: World<P, E>, c: Config<P, E>, n: nat)
    requires WellFormed(c)
    ensures RunToEnd(w, After(w, c, n)) == RunToEnd(w, c)
    decreases n
  {
    hide Next, RunToEnd, WellFormed, Measure;
    if n > 0 && !c.control.Done? {
      OneStep(w, c);
      AfterReachesEnd(w, Next(w, c), n - 1);
    }
  }
}
