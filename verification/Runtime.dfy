/** The runtime as it is written: objects updated in place, two nested loops
    (app/runtime/runtime.py, app/runtime/trajectory.py, app/runtime/store.py).
    `Run` returns exactly what the state machine of module Machine computes. */
module Runtime {
  import opened Contracts
  import opened Budget
  import opened Machine
  import opened Effects
  import Ids

  class Clock {
    const reading: nat -> int
    var ticks: nat

    constructor (reading: nat -> int)
      ensures this.reading == reading && ticks == 0
    {
      this.reading, ticks := reading, 0;
    }

    method Now() returns (t: int)
      modifies this
      ensures t == reading(old(ticks)) && ticks == old(ticks) + 1
    {
      t := reading(ticks);
      ticks := ticks + 1;
    }
  }

  class TrajectoryRecorder {
    const incidentId: string
    var sequence: nat
    var events: seq<Event>

    constructor (incidentId: string)
      ensures this.incidentId == incidentId && sequence == 0 && events == []
    {
      this.incidentId, sequence, events := incidentId, 0, [];
    }

    method Record(clock: Clock, kind: EventKind, stepId: Option<string>, callId: Option<string>,
                  resultId: Option<string>)
      modifies this, clock
      ensures sequence == old(sequence) + 1 && clock.ticks == old(clock.ticks) + 1
      ensures events == old(events) + [Event(old(sequence) + 1, clock.reading(old(clock.ticks)), incidentId, kind,
                                             stepId, callId, resultId)]
    {
      sequence := sequence + 1;
      var timestamp := clock.Now();
      events := events + [Event(sequence, timestamp, incidentId, kind, stepId, callId, resultId)];
    }
  }

  /** A tool call whose status and times the runtime writes. */
  class LiveCall {
    const request: ToolCall
    var status: CallStatus
    var startedAt: Option<int>
    var completedAt: Option<int>

    function View(): ToolCall
      reads this
    {
      request.(status := status, startedAt := startedAt, completedAt := completedAt)
    }

    constructor (request: ToolCall)
      ensures View() == request && this.request == request
    {
      this.request, status, startedAt, completedAt := request, request.status, request.startedAt, request.completedAt;
    }
  }

  /** A plan step whose status, times and error the runtime writes. */
  class LiveStep {
    const planned: Step
    var status: StepStatus
    var startedAt: Option<int>
    var completedAt: Option<int>
    var error: Option<string>

    function View(): Step
      reads this
    {
      planned.(status := status, startedAt := startedAt, completedAt := completedAt, error := error)
    }

    constructor (planned: Step)
      ensures View() == planned && this.planned == planned
    {
      this.planned, status, startedAt := planned, planned.status, planned.startedAt;
      completedAt, error := planned.completedAt, planned.error;
    }
  }

  /** A deep copy of the persisted part of the state. */
  datatype Stored = Stored(
    hasPlan: bool, steps: seq<Step>, currentStep: Option<string>, calls: seq<ToolCall>, results: seq<ToolResult>,
    stepAttempts: map<string, nat>, totalCalls: nat, totalFailures: nat,
    status: RuntimeStatus, stopReason: Option<StopReason>)

  function StoredOf(st: RunState): Stored {
    Stored(st.hasPlan, st.steps, st.currentStep, st.calls, st.results, st.stepAttempts, st.totalCalls,
           st.totalFailures, st.status, st.stopReason)
  }

  class InMemoryRuntimeStore {
    var states: map<string, Stored>

    constructor ()
      ensures states == map[]
    {
      states := map[];
    }

    method SaveState(incidentId: string, state: Stored)
      modifies this
      ensures states == old(states)[incidentId := state]
    {
      states := states[incidentId := state];
    }
  }

  class RuntimeState {
    const incidentId: string
    var hasPlan: bool
    var steps: seq<LiveStep>
    var currentStep: Option<string>
    var toolCalls: seq<LiveCall>
    var toolResults: seq<ToolResult>
    var stepAttempts: map<string, nat>
    var totalToolCalls: nat
    var totalToolFailures: nat
    var status: RuntimeStatus
    var stopReason: Option<StopReason>
    const startedAt: int
    var updatedAt: int
    var completedAt: Option<int>
    ghost var stepViews: seq<Step>
    ghost var callViews: seq<ToolCall>

    /** The ghost views are the current contents of the live objects, and no object occurs twice. */
    ghost predicate Valid()
      reads this, steps, toolCalls
    {
      && |stepViews| == |steps| && |callViews| == |toolCalls|
      && (forall k :: 0 <= k < |steps| ==> steps[k].View() == stepViews[k])
      && (forall k :: 0 <= k < |toolCalls| ==> toolCalls[k].View() == callViews[k])
      && (forall j, k :: 0 <= j < k < |steps| ==> steps[j] != steps[k])
      && (forall j, k :: 0 <= j < k < |toolCalls| ==> toolCalls[j] != toolCalls[k])
    }

    constructor (incidentId: string, startedAt: int)
      ensures Valid() && this.incidentId == incidentId && this.startedAt == startedAt
      ensures !hasPlan && steps == [] && stepViews == [] && toolCalls == [] && callViews == [] && toolResults == []
      ensures currentStep == None && stepAttempts == map[] && totalToolCalls == 0 && totalToolFailures == 0
      ensures status == RuntimeStatus.Initialized && stopReason == None && updatedAt == startedAt && completedAt == None
    {
      this.incidentId, this.startedAt, updatedAt := incidentId, startedAt, startedAt;
      hasPlan, steps, currentStep, toolCalls, toolResults, stepAttempts := false, [], None, [], [], map[];
      totalToolCalls, totalToolFailures, status, stopReason, completedAt := 0, 0, RuntimeStatus.Initialized, None, None;
      stepViews, callViews := [], [];
    }

    ghost function Persisted(): Stored
      reads this
    {
      Stored(hasPlan, stepViews, currentStep, callViews, toolResults, stepAttempts, totalToolCalls, totalToolFailures,
             status, stopReason)
    }

    /** Write the fields of one step object in place. */
    method WriteStep(step: LiveStep, ghost i: nat, status: StepStatus, startedAt: Option<int>, completedAt: Option<int>,
                     error: Option<string>)
      requires Valid() && i < |steps| && steps[i] == step
      modifies this`stepViews, step
      ensures Valid()
      ensures stepViews == old(stepViews)[i := old(stepViews)[i].(status := status, startedAt := startedAt,
                                                                  completedAt := completedAt, error := error)]
    {
      step.status, step.startedAt, step.completedAt, step.error := status, startedAt, completedAt, error;
      stepViews := stepViews[i := step.View()];
    }

    /** Append one call object. */
    method AppendCall(call: LiveCall)
      requires Valid() && call !in toolCalls
      modifies this`toolCalls, this`callViews
      ensures Valid() && toolCalls == old(toolCalls) + [call] && callViews == old(callViews) + [call.View()]
    {
      toolCalls := toolCalls + [call];
      callViews := callViews + [call.View()];
    }

    /** Write the fields of the newest call object in place. */
    method WriteLastCall(call: LiveCall, status: CallStatus, startedAt: Option<int>, completedAt: Option<int>)
      requires Valid() && toolCalls != [] && toolCalls[|toolCalls| - 1] == call
      modifies this`callViews, call
      ensures Valid()
      ensures callViews == old(callViews)[..|toolCalls| - 1]
                           + [old(callViews)[|toolCalls| - 1].(status := status, startedAt := startedAt,
                                                               completedAt := completedAt)]
    {
      call.status, call.startedAt, call.completedAt := status, startedAt, completedAt;
      callViews := callViews[..|toolCalls| - 1] + [call.View()];
    }

    /** `sum(1 for call in state.tool_calls if call.step_id == ...)` */
    method CallsInStep(stepId: string) returns (count: nat)
      requires Valid()
      ensures count == CountInStep(callViews, stepId)
    {
      count := 0;
      for k := 0 to |toolCalls|
        invariant count == CountInStep(callViews[..k], stepId)
      {
        assert callViews[..k + 1][..k] == callViews[..k];
        if toolCalls[k].View().stepId == stepId {
          count := count + 1;
        }
      }
      assert callViews[..|toolCalls|] == callViews;
    }

    /** Copies of the live objects, for the planner's context and for the store. */
    method Copy() returns (stepCopies: seq<Step>, callCopies: seq<ToolCall>)
      requires Valid()
      ensures stepCopies == stepViews && callCopies == callViews
    {
      stepCopies, callCopies := [], [];
      for k := 0 to |steps|
        invariant stepCopies == stepViews[..k]
      {
        stepCopies := stepCopies + [steps[k].View()];
      }
      for k := 0 to |toolCalls|
        invariant callCopies == callViews[..k]
      {
        callCopies := callCopies + [toolCalls[k].View()];
      }
    }
  }

  /** What one planned call, with its retries, came to. */
  datatype CallOutcome = Succeeded | GaveUp(error: string) | Stopped(reason: StopReason, error: string)

  function ControlAfter(i: nat, outcome: CallOutcome): Control {
    match outcome
    case Succeeded => Deciding(i)
    case GaveUp(error) => Closing(i, StepGaveUp(error))
    case Stopped(reason, error) => Closing(i, StepStopped(reason, error))
  }

  datatype InvestigationRun = InvestigationRun(
    incidentId: string, hasPlan: bool, steps: seq<Step>, calls: seq<ToolCall>, results: seq<ToolResult>,
    trajectory: seq<Event>, status: RuntimeStatus, stopReason: StopReason, startedAt: int, completedAt: int)

  ghost predicate IsRunOf(run: InvestigationRun, st: RunState) {
    && st.stopReason == Some(run.stopReason) && st.completedAt == Some(run.completedAt)
    && run.incidentId == st.incidentId && run.hasPlan == st.hasPlan && run.steps == st.steps
    && run.calls == st.calls && run.results == st.results && run.trajectory == st.events
    && run.status == st.status && run.startedAt == st.startedAt
  }

  lemma StepTo<P, E>(w: World<P, E>, c: Config<P, E>, n: Config<P, E>)
    requires WellFormed(c) && !c.control.Done? && Next(w, c) == n
    ensures RunToEnd(w, c) == RunToEnd(w, n)
  {
    NextDecreases(w, c);
  }

  lemma BlockedStep<P, E>(w: World<P, E>, c: Config<P, E>, reason: StopReason)
    requires WellFormed(c) && c.control.Calling? && Blocked(w, c.st, c.control.i) == Some(reason)
    ensures Next(w, c) == c.(control := Closing(c.control.i, StepStopped(reason, reason.Name())))
  {
  }

  /** The decision transition, spelled out. */
  lemma DecisionStep<P, E>(w: World<P, E>, c: Config<P, E>)
    requires WellFormed(c) && c.control.Deciding?
    ensures Next(w, c) == DecideStep(w, c)
  {
  }

  /** A returned result stored and counted, its call not yet settled. */
  ghost function Counted(st: RunState, result: ToolResult): RunState {
    st.(ticks := st.ticks + 1, results := st.results + [result], totalCalls := st.totalCalls + 1,
        totalFailures := st.totalFailures + if !result.success then 1 else 0)
  }

  /** A raised attempt counted, its call not yet marked. */
  ghost function Raised(st: RunState, stepId: string, attempts: nat): RunState {
    var counted := Machine.RecordAttempt(st.(totalCalls := st.totalCalls + 1, totalFailures := st.totalFailures + 1),
                                         stepId, attempts + 1);
    counted.(ticks := counted.ticks + 1)
  }

  lemma RaiseInSteps(clock: nat -> int, st: RunState, stepId: string, attempts: nat)
    requires st.calls != []
    ensures var raised, last := Raised(st, stepId, attempts), st.calls[|st.calls| - 1];
            && raised.calls == st.calls
            && Machine.AbsorbRaise(clock, st, stepId, attempts)
               == Machine.Record(clock, Machine.Touch(clock, SetLastCall(raised, last.(
                    status := CallStatus.Failed, completedAt := Some(clock(st.ticks))))),
                  CallFailed(ExecutorException, attempts + 1), Some(stepId), Some(last.callId), None)
  {
  }

  lemma SettleInSteps(clock: nat -> int, st: RunState, stepId: string, attempts: nat, result: ToolResult)
    requires st.calls != []
    ensures var counted, last := Counted(st, result), st.calls[|st.calls| - 1];
            Machine.Settle(clock, st, stepId, attempts, result)
            == Machine.RecordAttempt(
                 SetLastCall(counted, counted.calls[|counted.calls| - 1].(
                   status := if result.success then CallStatus.Succeeded else CallStatus.Failed,
                   startedAt := last.startedAt, completedAt := Some(clock(st.ticks)))),
                 stepId, attempts + 1)
  {
  }

  lemma FinishInSteps(clock: nat -> int, st: RunState, i: nat, status: StepStatus, error: Option<string>)
    requires i < |st.steps|
    ensures var marked := st.(ticks := st.ticks + 1,
                              steps := st.steps[i := st.steps[i].(status := status, error := error,
                                                                  completedAt := Some(clock(st.ticks)))]);
            Machine.FinishStep(clock, st, i, status, error)
            == Machine.Record(clock, Machine.Touch(clock, marked),
                              if status.Completed? then EventKind.StepCompleted else EventKind.StepFailed,
                              Some(st.steps[i].stepId), None, None)
  {
  }

  class InvestigationRuntime<P, E> {
    const createPlan: (P, Alert) -> (P, PlanReply)
    const decide: (P, PlanningContext) -> (P, PlannerReply)
    const execute: (E, ToolCall) -> (E, ExecutorReply)
    const budget: InvestigationBudget
    const retry: RetryPolicy
    const clock: Clock
    const ids: Ids.SequentialIdGenerator
    const store: InMemoryRuntimeStore
    var planner: P
    var executor: E

    constructor (createPlan: (P, Alert) -> (P, PlanReply), decide: (P, PlanningContext) -> (P, PlannerReply),
                 execute: (E, ToolCall) -> (E, ExecutorReply), budget: InvestigationBudget, retry: RetryPolicy,
                 clock: Clock, ids: Ids.SequentialIdGenerator, store: InMemoryRuntimeStore, planner: P, executor: E)
      ensures this.createPlan == createPlan && this.decide == decide && this.execute == execute
      ensures this.budget == budget && this.retry == retry && this.clock == clock && this.ids == ids
      ensures this.store == store && this.planner == planner && this.executor == executor
    {
      this.createPlan, this.decide, this.execute := createPlan, decide, execute;
      this.budget, this.retry, this.clock, this.ids, this.store := budget, retry, clock, ids, store;
      this.planner, this.executor := planner, executor;
    }

    ghost function W(alert: Alert): World<P, E> {
      World(alert, budget, retry, clock.reading, createPlan, decide, execute)
    }

    ghost predicate Valid(state: RuntimeState, trajectory: TrajectoryRecorder)
      reads state, trajectory, ids, state.steps, state.toolCalls
    {
      && state.Valid()
      && trajectory.sequence == |trajectory.events| && trajectory.incidentId == state.incidentId
      && Ids.TOOL_CALL_PREFIX in ids.next
    }

    ghost function View(state: RuntimeState, trajectory: TrajectoryRecorder): RunState
      requires Ids.TOOL_CALL_PREFIX in ids.next
      reads state, trajectory, ids, clock
    {
      RunState(state.incidentId, state.hasPlan, state.stepViews, state.currentStep, state.callViews, state.toolResults,
               state.stepAttempts, state.totalToolCalls, state.totalToolFailures, state.status, state.stopReason,
               state.startedAt, state.updatedAt, state.completedAt, trajectory.events, clock.ticks,
               ids.next[Ids.TOOL_CALL_PREFIX])
    }

    ghost function At(control: Control, state: RuntimeState, trajectory: TrajectoryRecorder, failed: nat): Config<P, E>
      requires Ids.TOOL_CALL_PREFIX in ids.next
      reads this, state, trajectory, ids, clock
    {
      Config(control, View(state, trajectory), failed, planner, executor)
    }

    // ----- bookkeeping ----------------------------------------------------------------------

    method Save(state: RuntimeState)
      requires state.Valid()
      modifies store
      ensures store.states == old(store.states)[state.incidentId := state.Persisted()]
    {
      var steps, calls := state.Copy();
      store.SaveState(state.incidentId,
                      Stored(state.hasPlan, steps, state.currentStep, calls, state.toolResults, state.stepAttempts,
                             state.totalToolCalls, state.totalToolFailures, state.status, state.stopReason));
    }

    method Touch(state: RuntimeState, trajectory: TrajectoryRecorder)
      requires Valid(state, trajectory)
      modifies state`updatedAt, clock
      ensures Valid(state, trajectory)
      ensures View(state, trajectory) == Machine.Touch(clock.reading, old(View(state, trajectory)))
    {
      state.updatedAt := clock.Now();
    }

    method Record(state: RuntimeState, trajectory: TrajectoryRecorder, kind: EventKind, stepId: Option<string>,
                  callId: Option<string>, resultId: Option<string>)
      requires Valid(state, trajectory)
      modifies trajectory, clock
      ensures Valid(state, trajectory)
      ensures View(state, trajectory)
           == Machine.Record(clock.reading, old(View(state, trajectory)), kind, stepId, callId, resultId)
    {
      trajectory.Record(clock, kind, stepId, callId, resultId);
    }

    method RecordAttempt(state: RuntimeState, trajectory: TrajectoryRecorder, stepId: string, attempts: nat)
      requires Valid(state, trajectory)
      modifies state`stepAttempts
      ensures Valid(state, trajectory)
      ensures View(state, trajectory) == Machine.RecordAttempt(old(View(state, trajectory)), stepId, attempts)
    {
      var known := if stepId in state.stepAttempts then state.stepAttempts[stepId] else 0;
      state.stepAttempts := state.stepAttempts[stepId := if known < attempts then attempts else known];
    }

    /** The fields a terminated run writes. */
    method MarkTerminated(state: RuntimeState, trajectory: TrajectoryRecorder, status: RuntimeStatus,
                          reason: StopReason)
      requires Valid(state, trajectory)
      modifies state`status, state`stopReason, state`completedAt, state`updatedAt, clock
      ensures Valid(state, trajectory)
      ensures var before := old(View(state, trajectory));
              var now := clock.reading(before.ticks);
              View(state, trajectory) == before.(status := status, stopReason := Some(reason), completedAt := Some(now),
                                                 updatedAt := now, ticks := before.ticks + 1)
    {
      var completedAt := clock.Now();
      state.status, state.stopReason := status, Some(reason);
      state.completedAt, state.updatedAt := Some(completedAt), completedAt;
    }

    method Terminate(state: RuntimeState, trajectory: TrajectoryRecorder, status: RuntimeStatus, reason: StopReason,
                     kind: EventKind) returns (run: InvestigationRun)
      requires Valid(state, trajectory)
      modifies state, trajectory, clock, store
      ensures Valid(state, trajectory) && state.steps == old(state.steps) && state.toolCalls == old(state.toolCalls)
      ensures View(state, trajectory)
           == Machine.Terminate(clock.reading, old(View(state, trajectory)), status, reason, kind)
      ensures IsRunOf(run, View(state, trajectory))
      ensures store.states == old(store.states)[state.incidentId := StoredOf(View(state, trajectory))]
    {
      ghost var before := View(state, trajectory);
      MarkTerminated(state, trajectory, status, reason);
      Save(state);
      Record(state, trajectory, kind, None, None, None);
      assert View(state, trajectory) == Machine.Terminate(clock.reading, before, status, reason, kind);
      var steps, calls := state.Copy();
      run := InvestigationRun(state.incidentId, state.hasPlan, steps, calls, state.toolResults, trajectory.events,
                              status, reason, state.startedAt, state.updatedAt);
    }

    method TerminateForStopReason(state: RuntimeState, trajectory: TrajectoryRecorder, reason: StopReason)
      returns (run: InvestigationRun)
      requires Valid(state, trajectory)
      modifies state, trajectory, clock, store
      ensures Valid(state, trajectory) && state.steps == old(state.steps) && state.toolCalls == old(state.toolCalls)
      ensures View(state, trajectory)
           == Machine.TerminateForStopReason(clock.reading, old(View(state, trajectory)), reason)
      ensures IsRunOf(run, View(state, trajectory))
      ensures store.states == old(store.states)[state.incidentId := StoredOf(View(state, trajectory))]
    {
      if reason.IsBudgetReason() {
        run := Terminate(state, trajectory, RuntimeStatus.BudgetExhausted, reason, RunExhausted);
      } else {
        run := Terminate(state, trajectory, RuntimeStatus.Failed, reason, RunFailed);
      }
    }

    // ----- steps ------------------------------------------------------------------------------

    /** Write the step object under work; the clock reading becomes its start or its end. */
    method MarkRunning(state: RuntimeState, step: LiveStep, trajectory: TrajectoryRecorder, ghost i: nat)
      requires Valid(state, trajectory) && i < |state.steps| && state.steps[i] == step
      modifies state`currentStep, state`stepViews, step, clock
      ensures Valid(state, trajectory)
      ensures var before := old(View(state, trajectory));
              View(state, trajectory) == before.(
                currentStep := Some(before.steps[i].stepId), ticks := before.ticks + 1,
                steps := before.steps[i := before.steps[i].(startedAt := Some(clock.reading(before.ticks)),
                                                            status := StepStatus.Running)])
    {
      state.currentStep := Some(step.planned.stepId);
      var now := clock.Now();
      state.WriteStep(step, i, StepStatus.Running, Some(now), step.completedAt, step.error);
    }

    method MarkFinished(state: RuntimeState, step: LiveStep, trajectory: TrajectoryRecorder, status: StepStatus,
                        error: Option<string>, ghost i: nat)
      requires Valid(state, trajectory) && i < |state.steps| && state.steps[i] == step
      modifies state`stepViews, step, clock
      ensures Valid(state, trajectory)
      ensures var before := old(View(state, trajectory));
              View(state, trajectory) == before.(
                ticks := before.ticks + 1,
                steps := before.steps[i := before.steps[i].(status := status, error := error,
                                                            completedAt := Some(clock.reading(before.ticks)))])
    {
      var now := clock.Now();
      state.WriteStep(step, i, status, step.startedAt, Some(now), error);
    }

    method StartStep(state: RuntimeState, step: LiveStep, trajectory: TrajectoryRecorder, ghost i: nat)
      requires Valid(state, trajectory) && i < |state.steps| && state.steps[i] == step
      modifies state, step, trajectory, clock, store
      ensures Valid(state, trajectory) && state.steps == old(state.steps) && state.toolCalls == old(state.toolCalls)
      ensures View(state, trajectory) == Machine.StartStep(clock.reading, old(View(state, trajectory)), i)
    {
      ghost var before := View(state, trajectory);
      MarkRunning(state, step, trajectory, i);
      assert step.planned.stepId == state.stepViews[i].stepId == before.steps[i].stepId;
      hide Machine.Touch, Machine.Record;
      Touch(state, trajectory);
      Record(state, trajectory, StepStarted, Some(step.planned.stepId), None, None);
      assert View(state, trajectory) == Machine.StartStep(clock.reading, before, i);
      Save(state);
    }

    method FinishStep(state: RuntimeState, step: LiveStep, trajectory: TrajectoryRecorder, status: StepStatus,
                      error: Option<string>, ghost i: nat)
      requires Valid(state, trajectory) && i < |state.steps| && state.steps[i] == step
      modifies state, step, trajectory, clock, store
      ensures Valid(state, trajectory) && state.steps == old(state.steps) && state.toolCalls == old(state.toolCalls)
      ensures View(state, trajectory)
           == Machine.FinishStep(clock.reading, old(View(state, trajectory)), i, status, error)
    {
      ghost var before := View(state, trajectory);
      FinishInSteps(clock.reading, before, i, status, error);
      hide Machine.Touch, Machine.Record, Machine.FinishStep;
      assert step.planned.stepId == before.steps[i].stepId;
      MarkFinished(state, step, trajectory, status, error, i);
      LogFinished(state, trajectory, step.planned.stepId, status);
      Save(state);
    }

    method LogFinished(state: RuntimeState, trajectory: TrajectoryRecorder, stepId: string, status: StepStatus)
      requires Valid(state, trajectory)
      modifies state`updatedAt, trajectory, clock
      ensures Valid(state, trajectory)
      ensures View(state, trajectory)
           == Machine.Record(clock.reading, Machine.Touch(clock.reading, old(View(state, trajectory))),
                             if status.Completed? then EventKind.StepCompleted else EventKind.StepFailed,
                             Some(stepId), None, None)
    {
      hide Machine.Touch, Machine.Record;
      Touch(state, trajectory);
      var kind := if status.Completed? then EventKind.StepCompleted else EventKind.StepFailed;
      Record(state, trajectory, kind, Some(stepId), None, None);
    }

    // ----- tool calls -------------------------------------------------------------------------

    method CreateToolCall(state: RuntimeState, stepId: string, request: PlannerDecision, trajectory: TrajectoryRecorder)
      returns (call: LiveCall)
      requires Valid(state, trajectory) && request.Call?
      modifies state`toolCalls, state`callViews, clock, ids
      ensures Valid(state, trajectory) && fresh(call)
      ensures state.toolCalls == old(state.toolCalls) + [call]
      ensures var before := old(View(state, trajectory));
              View(state, trajectory) == before.(
                calls := before.calls + [ToolCall(Ids.FormatId(Ids.TOOL_CALL_PREFIX, before.nextCall),
                                                  before.incidentId,
                                                  stepId, request.toolName, request.arguments, request.rationale,
                                                  CallStatus.Requested, clock.reading(before.ticks), None, None)],
                ticks := before.ticks + 1, nextCall := before.nextCall + 1)
    {
      var callId := ids.Take(Ids.TOOL_CALL_PREFIX);
      var requestedAt := clock.Now();
      call := new LiveCall(ToolCall(callId, state.incidentId, stepId, request.toolName, request.arguments,
                                    request.rationale, CallStatus.Requested, requestedAt, None, None));
      state.AppendCall(call);
    }

    method MarkCall(state: RuntimeState, call: LiveCall, trajectory: TrajectoryRecorder, status: CallStatus,
                    startedAt: Option<int>, completedAt: Option<int>)
      requires Valid(state, trajectory) && state.toolCalls != [] && state.toolCalls[|state.toolCalls| - 1] == call
      modifies state`callViews, call
      ensures Valid(state, trajectory)
      ensures var before := old(View(state, trajectory));
              before.calls != [] &&
              View(state, trajectory) == SetLastCall(before, before.calls[|before.calls| - 1].(
                status := status, startedAt := startedAt, completedAt := completedAt))
    {
      state.WriteLastCall(call, status, startedAt, completedAt);
    }

    method StartCall(state: RuntimeState, call: LiveCall, stepId: string, trajectory: TrajectoryRecorder)
      requires Valid(state, trajectory) && state.toolCalls != [] && state.toolCalls[|state.toolCalls| - 1] == call
      modifies state`callViews, state`updatedAt, call, trajectory, clock
      ensures Valid(state, trajectory)
      ensures View(state, trajectory).hasPlan == old(View(state, trajectory)).hasPlan
      ensures old(View(state, trajectory)).calls != []
              && View(state, trajectory) == Machine.StartCall(clock.reading, old(View(state, trajectory)), stepId)
    {
      var startedAt := TickNow(state, trajectory);
      MarkCall(state, call, trajectory, CallStatus.Running, Some(startedAt), call.completedAt);
      Touch(state, trajectory);
      Record(state, trajectory, CallStarted, Some(stepId), Some(call.request.callId), None);
    }

    /** Create the call and mark it running. */
    method BeginAttempt(state: RuntimeState, stepId: string, request: PlannerDecision, attempts: nat,
                        trajectory: TrajectoryRecorder) returns (call: LiveCall)
      requires Valid(state, trajectory) && request.Call?
      modifies state, trajectory, clock, ids
      ensures Valid(state, trajectory) && fresh(call) && state.steps == old(state.steps)
      ensures state.toolCalls == old(state.toolCalls) + [call]
      ensures state.hasPlan == old(state.hasPlan) && state.stepViews == old(state.stepViews)
      ensures state.totalToolCalls == old(state.totalToolCalls)
      ensures View(state, trajectory)
           == Machine.BeginAttempt(clock.reading, old(View(state, trajectory)), stepId, request, attempts)
      ensures |View(state, trajectory).calls| > 0
              && call.View() == View(state, trajectory).calls[|View(state, trajectory).calls| - 1]
    {
      ghost var before := View(state, trajectory);
      call := CreateToolCall(state, stepId, request, trajectory);
      assert call.request.callId == state.callViews[|state.callViews| - 1].callId;
      Record(state, trajectory, CallCreated(request.toolName, attempts + 1), Some(stepId), Some(call.request.callId),
             None);
      assert View(state, trajectory) == Machine.CreateCall(clock.reading, before, stepId, request, attempts);
      StartCall(state, call, stepId, trajectory);
    }

    method TickNow(state: RuntimeState, trajectory: TrajectoryRecorder) returns (now: int)
      requires Valid(state, trajectory)
      modifies clock
      ensures Valid(state, trajectory)
      ensures var before := old(View(state, trajectory));
              View(state, trajectory) == before.(ticks := before.ticks + 1) && now == clock.reading(before.ticks)
    {
      now := clock.Now();
    }

    method CountRaise(state: RuntimeState, stepId: string, attempts: nat, trajectory: TrajectoryRecorder)
      returns (completedAt: int)
      requires Valid(state, trajectory)
      modifies state`stepAttempts, state`totalToolCalls, state`totalToolFailures, clock
      ensures Valid(state, trajectory) && state.totalToolCalls == old(state.totalToolCalls) + 1
      ensures View(state, trajectory) == Raised(old(View(state, trajectory)), stepId, attempts)
      ensures completedAt == clock.reading(old(clock.ticks))
    {
      CountCall(state, trajectory, true);
      RecordAttempt(state, trajectory, stepId, attempts + 1);
      completedAt := TickNow(state, trajectory);
    }

    method CountResult(state: RuntimeState, result: ToolResult, trajectory: TrajectoryRecorder)
      returns (completedAt: int)
      requires Valid(state, trajectory)
      modifies state`toolResults, state`totalToolCalls, state`totalToolFailures, clock
      ensures Valid(state, trajectory)
      ensures View(state, trajectory) == Counted(old(View(state, trajectory)), result)
      ensures completedAt == clock.reading(old(clock.ticks))
    {
      completedAt := TickNow(state, trajectory);
      StoreResult(state, trajectory, result);
      CountCall(state, trajectory, !result.success);
    }

    /** The executor raised: count the attempt as a failed call without a result. */
    method AbsorbRaise(state: RuntimeState, call: LiveCall, stepId: string, attempts: nat,
                       trajectory: TrajectoryRecorder)
      requires Valid(state, trajectory) && state.toolCalls != [] && state.toolCalls[|state.toolCalls| - 1] == call
      modifies state`callViews, state`toolResults, state`stepAttempts, state`totalToolCalls, state`totalToolFailures,
               state`updatedAt, call, trajectory, clock
      ensures Valid(state, trajectory)
      ensures state.totalToolCalls == old(state.totalToolCalls) + 1
      ensures old(View(state, trajectory)).calls != []
              && View(state, trajectory)
              == Machine.AbsorbRaise(clock.reading, old(View(state, trajectory)), stepId, attempts)
    {
      ghost var before := View(state, trajectory);
      RaiseInSteps(clock.reading, before, stepId, attempts);
      hide Machine.AbsorbRaise, Machine.Touch, Machine.Record, SetLastCall;
      ghost var last := before.calls[|before.calls| - 1];
      assert call.request.callId == last.callId && call.startedAt == last.startedAt;
      var completedAt := CountRaise(state, stepId, attempts, trajectory);
      MarkCall(state, call, trajectory, CallStatus.Failed, call.startedAt, Some(completedAt));
      Touch(state, trajectory);
      Record(state, trajectory, CallFailed(ExecutorException, attempts + 1), Some(stepId), Some(call.request.callId),
             None);
    }

    method CountCall(state: RuntimeState, trajectory: TrajectoryRecorder, failed: bool)
      requires Valid(state, trajectory)
      modifies state`totalToolCalls, state`totalToolFailures
      ensures Valid(state, trajectory)
      ensures var before := old(View(state, trajectory));
              View(state, trajectory) == before.(totalCalls := before.totalCalls + 1,
                                                 totalFailures := before.totalFailures + if failed then 1 else 0)
    {
      state.totalToolCalls := state.totalToolCalls + 1;
      if failed {
        state.totalToolFailures := state.totalToolFailures + 1;
      }
    }

    method StoreResult(state: RuntimeState, trajectory: TrajectoryRecorder, result: ToolResult)
      requires Valid(state, trajectory)
      modifies state`toolResults
      ensures Valid(state, trajectory)
      ensures var before := old(View(state, trajectory));
              View(state, trajectory) == before.(results := before.results + [result])
    {
      state.toolResults := state.toolResults + [result];
    }

    /** The executor returned: keep the result and settle the call. */
    method Settle(state: RuntimeState, call: LiveCall, stepId: string, attempts: nat, result: ToolResult,
                  trajectory: TrajectoryRecorder)
      requires Valid(state, trajectory) && state.toolCalls != [] && state.toolCalls[|state.toolCalls| - 1] == call
      modifies state`callViews, state`toolResults, state`stepAttempts, state`totalToolCalls, state`totalToolFailures,
               state`updatedAt, call, clock
      ensures Valid(state, trajectory)
      ensures old(View(state, trajectory)).calls != []
              && View(state, trajectory)
              == Machine.Settle(clock.reading, old(View(state, trajectory)), stepId, attempts, result)
    {
      ghost var before := View(state, trajectory);
      SettleInSteps(clock.reading, before, stepId, attempts, result);
      hide Machine.Settle, Machine.RecordAttempt, SetLastCall;
      assert call.startedAt == before.calls[|before.calls| - 1].startedAt;
      var completedAt := CountResult(state, result, trajectory);
      MarkCall(state, call, trajectory, if result.success then CallStatus.Succeeded else CallStatus.Failed,
               call.startedAt, Some(completedAt));
      RecordAttempt(state, trajectory, stepId, attempts + 1);
    }

    method AbsorbResult(state: RuntimeState, call: LiveCall, stepId: string, attempts: nat, result: ToolResult,
                        trajectory: TrajectoryRecorder)
      requires Valid(state, trajectory) && state.toolCalls != [] && state.toolCalls[|state.toolCalls| - 1] == call
      modifies state`callViews, state`toolResults, state`stepAttempts, state`totalToolCalls, state`totalToolFailures,
               state`updatedAt, call, trajectory, clock
      ensures Valid(state, trajectory)
      ensures state.totalToolCalls == old(state.totalToolCalls) + 1
      ensures old(View(state, trajectory)).calls != []
              && View(state, trajectory)
              == Machine.AbsorbResult(clock.reading, old(View(state, trajectory)), stepId, attempts, result)
    {
      Settle(state, call, stepId, attempts, result, trajectory);
      Record(state, trajectory, OutcomeKind(result, attempts + 1), Some(stepId), Some(call.request.callId),
             Some(result.resultId));
    }

    /** The control point after one attempt; no outcome means: try again. */
    static function AfterAttempt(i: nat, request: PlannerDecision, attempts: nat, outcome: Option<CallOutcome>): Control
    {
      if outcome.None? then Calling(i, request, attempts + 1) else ControlAfter(i, outcome.value)
    }

    /** A returned result: settle the call, and retry, give up or stop when it failed. */
    method AbsorbReturned(state: RuntimeState, call: LiveCall, stepId: string, request: PlannerDecision, attempts: nat,
                          result: ToolResult, trajectory: TrajectoryRecorder, ghost i: nat)
      returns (outcome: Option<CallOutcome>)
      requires Valid(state, trajectory) && state.toolCalls != [] && state.toolCalls[|state.toolCalls| - 1] == call
      modifies state`callViews, state`toolResults, state`stepAttempts, state`totalToolCalls, state`totalToolFailures,
               state`updatedAt, call, trajectory, clock, store
      ensures Valid(state, trajectory)
      ensures state.totalToolCalls == old(state.totalToolCalls) + 1
      ensures old(View(state, trajectory)).calls != []
      ensures AfterAttempt(i, request, attempts, outcome)
           == if result.success then Deciding(i) else AfterFailure(retry, i, request, attempts, result)
      ensures var settled := Machine.AbsorbResult(clock.reading, old(View(state, trajectory)), stepId, attempts,
                                                  result);
              settled.calls != [] &&
              View(state, trajectory)
              == if outcome.None? then ScheduleRetry(clock.reading, settled, stepId, attempts) else settled
    {
      hide Machine.AbsorbResult, ScheduleRetry, AfterFailure;
      AbsorbResult(state, call, stepId, attempts, result, trajectory);
      if result.success {
        Save(state);
        return Some(CallOutcome.Succeeded);
      }
      outcome := AbsorbFailure(state, call, stepId, request, attempts, result, trajectory, i);
    }

    /** A settled failure: retry it, or give up the step, or stop the run. */
    method AbsorbFailure(state: RuntimeState, call: LiveCall, stepId: string, request: PlannerDecision, attempts: nat,
                         result: ToolResult, trajectory: TrajectoryRecorder, ghost i: nat)
      returns (outcome: Option<CallOutcome>)
      requires Valid(state, trajectory) && state.toolCalls != [] && state.toolCalls[|state.toolCalls| - 1] == call
      modifies trajectory, clock, store
      ensures Valid(state, trajectory)
      ensures AfterAttempt(i, request, attempts, outcome) == AfterFailure(retry, i, request, attempts, result)
      ensures old(View(state, trajectory)).calls != []
      ensures View(state, trajectory)
              == if outcome.None? then ScheduleRetry(clock.reading, old(View(state, trajectory)), stepId, attempts)
                 else old(View(state, trajectory))
    {
      hide ScheduleRetry, FailureText, ClassifyToolFailure, RetryPolicy.ShouldRetry;
      var kind := ClassifyToolFailure(result.error);
      if retry.ShouldRetry(kind, attempts + 1) {
        Retry(state, call, stepId, attempts, trajectory);
        Save(state);
        return None;
      }
      Save(state);
      if kind.ExecutionError? {
        return Some(GaveUp(FailureText(result.toolName, attempts + 1)));
      }
      outcome := Some(Stopped(UnrecoverableToolError, UNRECOVERABLE_ERROR));
    }

    /** What the executor's reply does to the state. */
    method Absorb(state: RuntimeState, call: LiveCall, stepId: string, request: PlannerDecision, attempts: nat,
                  reply: ExecutorReply, trajectory: TrajectoryRecorder, ghost alert: Alert, ghost i: nat,
                  ghost c: Config<P, E>)
      returns (outcome: Option<CallOutcome>)
      requires Valid(state, trajectory) && state.toolCalls != [] && state.toolCalls[|state.toolCalls| - 1] == call
      requires state.hasPlan && i < |state.stepViews| && state.stepViews[i].stepId == stepId
      requires c.control == Calling(i, request, attempts) && request.Call? && c.planner == planner
      modifies state`callViews, state`toolResults, state`stepAttempts, state`totalToolCalls, state`totalToolFailures,
               state`updatedAt, call, trajectory, clock, store
      ensures Valid(state, trajectory)
      ensures state.totalToolCalls == old(state.totalToolCalls) + 1
      ensures old(View(state, trajectory)).calls != []
              && At(AfterAttempt(i, request, attempts, outcome), state, trajectory, c.failedSteps)
              == Attempted(W(alert), c, old(View(state, trajectory)), executor, reply)
    {
      hide Machine.AbsorbRaise, Machine.AbsorbResult, ScheduleRetry, Attempted, AfterFailure;
      ghost var begun := View(state, trajectory);
      if reply.ExecutorRaised? {
        AbsorbRaise(state, call, stepId, attempts, trajectory);
        Save(state);
        outcome := Some(Stopped(UnrecoverableToolError, EXECUTOR_RAISED_ERROR));
      } else {
        outcome := AbsorbReturned(state, call, stepId, request, attempts, reply.result, trajectory, i);
      }
      AbsorbedIsAttempted(W(alert), c, begun, executor, reply, AfterAttempt(i, request, attempts, outcome),
                          View(state, trajectory));
    }

    /** The two replies of an executor, as the machine takes them. */
    static lemma AbsorbedIsAttempted(w: World<P, E>, c: Config<P, E>, begun: RunState, executor: E,
                                     reply: ExecutorReply, control: Control, st: RunState)
      requires c.control.Calling? && c.control.request.Call?
      requires begun.calls != [] && c.control.i < |begun.steps| && begun.hasPlan
      requires var Calling(i, request, attempts) := c.control;
               var stepId := begun.steps[i].stepId;
               match reply
               case ExecutorRaised =>
                 && control == Closing(i, StepStopped(UnrecoverableToolError, EXECUTOR_RAISED_ERROR))
                 && st == Machine.AbsorbRaise(w.clock, begun, stepId, attempts)
               case Returned(result) =>
                 && control == (if result.success then Deciding(i)
                                else AfterFailure(w.retry, i, request, attempts, result))
                 && var settled := Machine.AbsorbResult(w.clock, begun, stepId, attempts, result);
                    settled.calls != []
                    && st == if control.Calling? then ScheduleRetry(w.clock, settled, stepId, attempts) else settled
      ensures Attempted(w, c, begun, executor, reply) == Config(control, st, c.failedSteps, c.planner, executor)
    {
    }

    /** One iteration of the attempt loop past the budget check. */
    method Attempt(state: RuntimeState, stepId: string, request: PlannerDecision, attempts: nat,
                   trajectory: TrajectoryRecorder, ghost alert: Alert, ghost i: nat, ghost failed: nat)
      returns (outcome: Option<CallOutcome>)
      requires Valid(state, trajectory) && request.Call?
      requires state.hasPlan && i < |state.stepViews| && state.stepViews[i].stepId == stepId
      requires Blocked(W(alert), View(state, trajectory), i).None?
      modifies this`executor, state, trajectory, clock, ids, store
      ensures Valid(state, trajectory) && state.steps == old(state.steps) && state.stepViews == old(state.stepViews)
      ensures state.hasPlan && state.totalToolCalls == old(state.totalToolCalls) + 1
      ensures At(AfterAttempt(i, request, attempts, outcome), state, trajectory, failed)
           == Next(W(alert), old(At(Calling(i, request, attempts), state, trajectory, failed)))
    {
      hide Machine.BeginAttempt, Attempted, Next, Blocked;
      ghost var c := At(Calling(i, request, attempts), state, trajectory, failed);
      assert c.st.steps == state.stepViews && c.st.hasPlan;
      hide InvestigationRuntime.View;
      var call := BeginAttempt(state, stepId, request, attempts, trajectory);
      NextIsAttempted(W(alert), c, View(state, trajectory), execute(executor, call.View()));
      outcome := Execute(state, call, stepId, request, attempts, trajectory, alert, i, c);
    }

    static lemma NextIsAttempted(w: World<P, E>, c: Config<P, E>, begun: RunState, answer: (E, ExecutorReply))
      requires WellFormed(c) && c.control.Calling? && Machine.Blocked(w, c.st, c.control.i).None?
      requires begun == Machine.BeginAttempt(w.clock, c.st, c.st.steps[c.control.i].stepId, c.control.request,
                                             c.control.attempts)
      requires begun.calls != [] && answer == w.execute(c.executor, begun.calls[|begun.calls| - 1])
      ensures c.control.i < |begun.steps| && begun.hasPlan
      ensures Next(w, c) == Attempted(w, c, begun, answer.0, answer.1)
    {
      var _, _, _ := AttemptUnfolds(w, c);
    }

    /** Hand the begun call to the executor and absorb its reply. */
    method Execute(state: RuntimeState, call: LiveCall, stepId: string, request: PlannerDecision, attempts: nat,
                   trajectory: TrajectoryRecorder, ghost alert: Alert, ghost i: nat, ghost c: Config<P, E>)
      returns (outcome: Option<CallOutcome>)
      requires Valid(state, trajectory) && state.toolCalls != [] && state.toolCalls[|state.toolCalls| - 1] == call
      requires state.hasPlan && i < |state.stepViews| && state.stepViews[i].stepId == stepId
      requires c.control == Calling(i, request, attempts) && request.Call? && c.planner == planner
      modifies this`executor, state`callViews, state`toolResults, state`stepAttempts, state`totalToolCalls,
               state`totalToolFailures, state`updatedAt, call, trajectory, clock, store
      ensures Valid(state, trajectory)
      ensures state.totalToolCalls == old(state.totalToolCalls) + 1
      ensures old(View(state, trajectory)).calls != []
              && var (next, reply) := execute(old(executor), old(call.View()));
              At(AfterAttempt(i, request, attempts, outcome), state, trajectory, c.failedSteps)
              == Attempted(W(alert), c, old(View(state, trajectory)), next, reply)
    {
      hide Attempted, AfterAttempt;
      var (next, reply) := execute(executor, call.View());
      executor := next;
      outcome := Absorb(state, call, stepId, request, attempts, reply, trajectory, alert, i, c);
    }

    method Retry(state: RuntimeState, call: LiveCall, stepId: string, attempts: nat, trajectory: TrajectoryRecorder)
      requires Valid(state, trajectory) && state.toolCalls != [] && state.toolCalls[|state.toolCalls| - 1] == call
      modifies trajectory, clock
      ensures Valid(state, trajectory)
      ensures old(View(state, trajectory)).calls != []
              && View(state, trajectory)
              == ScheduleRetry(clock.reading, old(View(state, trajectory)), stepId, attempts)
    {
      Record(state, trajectory, RetryScheduled(attempts + 2), Some(stepId), Some(call.request.callId), None);
    }

    /** One iteration of the attempt loop: the budget check, then an attempt. */
    method AttemptUnlessBlocked(state: RuntimeState, stepId: string, request: PlannerDecision, attempts: nat,
                                trajectory: TrajectoryRecorder, ghost alert: Alert, ghost i: nat, ghost failed: nat)
      returns (outcome: Option<CallOutcome>)
      requires Valid(state, trajectory) && request.Call?
      requires state.hasPlan && i < |state.stepViews| && state.stepViews[i].stepId == stepId
      modifies this`executor, state, trajectory, clock, ids, store
      ensures Valid(state, trajectory) && state.steps == old(state.steps) && state.stepViews == old(state.stepViews)
      ensures state.hasPlan
      ensures if outcome.Some? && outcome.value.Stopped? then state.totalToolCalls >= old(state.totalToolCalls)
              else old(state.totalToolCalls) < state.totalToolCalls <= budget.maxToolCalls
      ensures At(AfterAttempt(i, request, attempts, outcome), state, trajectory, failed)
           == Next(W(alert), old(At(Calling(i, request, attempts), state, trajectory, failed)))
    {
      ghost var c := At(Calling(i, request, attempts), state, trajectory, failed);
      var callsInStep := state.CallsInStep(stepId);
      var stop := budget.Block(state.totalToolCalls, callsInStep, state.totalToolFailures);
      assert stop == Blocked(W(alert), c.st, i);
      hide Next;
      if stop.Some? {
        BlockedStep(W(alert), c, stop.value);
        return Some(Stopped(stop.value, stop.value.Name()));
      }
      outcome := Attempt(state, stepId, request, attempts, trajectory, alert, i, failed);
    }

    /** Execute one planned call, with a fresh call object per attempt. */
    method ExecutePlannedToolCall(state: RuntimeState, stepId: string, request: PlannerDecision,
                                  trajectory: TrajectoryRecorder, ghost alert: Alert, ghost i: nat, ghost failed: nat)
      returns (outcome: CallOutcome)
      requires Valid(state, trajectory) && request.Call?
      requires state.hasPlan && i < |state.stepViews| && state.stepViews[i].stepId == stepId
      modifies this`executor, state, trajectory, clock, ids, store
      ensures Valid(state, trajectory) && state.steps == old(state.steps) && state.stepViews == old(state.stepViews)
      ensures state.hasPlan && state.totalToolCalls >= old(state.totalToolCalls)
      ensures outcome.Succeeded? ==> old(state.totalToolCalls) < state.totalToolCalls <= budget.maxToolCalls
      ensures RunToEnd(W(alert), At(ControlAfter(i, outcome), state, trajectory, failed))
           == RunToEnd(W(alert), old(At(Calling(i, request, 0), state, trajectory, failed)))
    {
      ghost var w := W(alert);
      ghost var first := At(Calling(i, request, 0), state, trajectory, failed);
      var attempts := 0;
      while true
        invariant Valid(state, trajectory) && state.steps == old(state.steps) && state.stepViews == old(state.stepViews)
        invariant state.hasPlan && state.totalToolCalls >= old(state.totalToolCalls)
        invariant RunToEnd(w, At(Calling(i, request, attempts), state, trajectory, failed)) == RunToEnd(w, first)
        decreases budget.maxToolCalls - state.totalToolCalls
      {
        hide RunToEnd, Next;
        ghost var c := At(Calling(i, request, attempts), state, trajectory, failed);
        var result := AttemptUnlessBlocked(state, stepId, request, attempts, trajectory, alert, i, failed);
        StepTo(w, c, At(AfterAttempt(i, request, attempts, result), state, trajectory, failed));
        attempts := attempts + 1;
        if result.Some? {
          return result.value;
        }
      }
    }

    method BuildContext(state: RuntimeState, trajectory: TrajectoryRecorder, step: LiveStep, alert: Alert, ghost i: nat)
      returns (context: PlanningContext)
      requires Valid(state, trajectory) && i < |state.steps| && state.steps[i] == step
      ensures context == Context(W(alert), View(state, trajectory), i)
    {
      var callsInStep := state.CallsInStep(step.planned.stepId);
      var steps, calls := state.Copy();
      context := PlanningContext(alert, steps, step.View(), calls, state.toolResults,
                                 Max0(budget.maxToolCalls - state.totalToolCalls),
                                 Max0(budget.maxToolCallsPerStep - callsInStep));
    }

    /** The control point after one decision; no decision means: the planner raised. */
    static function AfterDecision(i: nat, decision: Option<PlannerDecision>): Control {
      match decision
      case None => Closing(i, StepStopped(PlannerFailed, PLANNER_RAISED_ERROR))
      case Some(Complete(_)) => Closing(i, StepDone)
      case Some(Fail(rationale)) => Closing(i, StepGaveUp(rationale))
      case Some(Call(t, a, r)) => Calling(i, Call(t, a, r), 0)
    }

    /** Ask the planner once and record what it decided. */
    method AskPlanner(state: RuntimeState, step: LiveStep, trajectory: TrajectoryRecorder, alert: Alert, ghost i: nat,
                      ghost failed: nat) returns (decision: Option<PlannerDecision>)
      requires Valid(state, trajectory) && state.hasPlan && i < |state.steps| && state.steps[i] == step
      modifies this`planner, trajectory, clock
      ensures Valid(state, trajectory)
      ensures At(AfterDecision(i, decision), state, trajectory, failed)
           == Next(W(alert), old(At(Deciding(i), state, trajectory, failed)))
    {
      DecisionStep(W(alert), At(Deciding(i), state, trajectory, failed));
      hide Next, Machine.Record;
      var context := BuildContext(state, trajectory, step, alert, i);
      var (next, reply) := decide(planner, context);
      planner := next;
      if reply.PlannerRaised? {
        return None;
      }
      Record(state, trajectory, DecisionMade(reply.decision.Action()), Some(step.planned.stepId), None, None);
      decision := Some(reply.decision);
    }

    /** Ask the planner until the step becomes terminal. */
    method RunStep(state: RuntimeState, step: LiveStep, trajectory: TrajectoryRecorder, alert: Alert, ghost i: nat,
                   ghost failed: nat) returns (outcome: StepOutcome)
      requires Valid(state, trajectory) && state.hasPlan && i < |state.steps| && state.steps[i] == step
      modifies this`planner, this`executor, state, trajectory, clock, ids, store
      ensures Valid(state, trajectory) && state.steps == old(state.steps) && state.hasPlan
      ensures RunToEnd(W(alert), At(Closing(i, outcome), state, trajectory, failed))
           == RunToEnd(W(alert), old(At(Deciding(i), state, trajectory, failed)))
    {
      ghost var w := W(alert);
      ghost var first := At(Deciding(i), state, trajectory, failed);
      while true
        invariant Valid(state, trajectory) && state.steps == old(state.steps) && state.hasPlan
        invariant RunToEnd(w, At(Deciding(i), state, trajectory, failed)) == RunToEnd(w, first)
        decreases budget.maxToolCalls - state.totalToolCalls
      {
        hide RunToEnd, Next;
        ghost var c := At(Deciding(i), state, trajectory, failed);
        var decision := AskPlanner(state, step, trajectory, alert, i, failed);
        StepTo(w, c, At(AfterDecision(i, decision), state, trajectory, failed));
        if decision.None? {
          return StepStopped(PlannerFailed, PLANNER_RAISED_ERROR);
        }
        if decision.value.Complete? {
          return StepDone;
        }
        if decision.value.Fail? {
          return StepGaveUp(decision.value.rationale);
        }
        var call := ExecutePlannedToolCall(state, step.planned.stepId, decision.value, trajectory, alert, i, failed);
        if call.Stopped? {
          return StepStopped(call.reason, call.error);
        }
        if call.GaveUp? {
          return StepGaveUp(call.error);
        }
      }
    }

    // ----- driving ---------------------------------------------------------------------------------

    /** Planning begins: status and time stamp. */
    method EnterPlanning(state: RuntimeState, trajectory: TrajectoryRecorder)
      requires Valid(state, trajectory)
      modifies state`status, state`updatedAt, clock
      ensures Valid(state, trajectory)
      ensures View(state, trajectory) == Machine.EnterPlanning(clock.reading, old(View(state, trajectory)))
    {
      state.status := RuntimeStatus.Planning;
      Touch(state, trajectory);
    }

    /** Live objects for the planned steps. */
    method LiveSteps(planned: seq<Step>) returns (steps: seq<LiveStep>)
      ensures |steps| == |planned|
      ensures forall k :: 0 <= k < |steps| ==> fresh(steps[k]) && steps[k].View() == planned[k]
      ensures forall j, k :: 0 <= j < k < |steps| ==> steps[j] != steps[k]
    {
      steps := [];
      for n := 0 to |planned|
        invariant |steps| == n
        invariant forall k :: 0 <= k < n ==> fresh(steps[k]) && steps[k].View() == planned[k]
        invariant forall j, k :: 0 <= j < k < n ==> steps[j] != steps[k]
      {
        var step := new LiveStep(planned[n]);
        steps := steps + [step];
      }
    }

    method AdoptSteps(state: RuntimeState, trajectory: TrajectoryRecorder, planned: seq<Step>)
      requires Valid(state, trajectory)
      modifies state`hasPlan, state`steps, state`stepViews, state`status
      ensures Valid(state, trajectory) && |state.steps| == |planned|
      ensures forall k :: 0 <= k < |state.steps| ==> fresh(state.steps[k])
      ensures View(state, trajectory)
           == old(View(state, trajectory)).(hasPlan := true, steps := planned, status := RuntimeStatus.Running)
    {
      state.steps := LiveSteps(planned);
      state.stepViews := planned;
      state.hasPlan, state.status := true, RuntimeStatus.Running;
    }

    method AdoptPlan(state: RuntimeState, trajectory: TrajectoryRecorder, planned: seq<Step>)
      requires Valid(state, trajectory)
      modifies state`hasPlan, state`steps, state`stepViews, state`status, state`updatedAt, trajectory, clock, store
      ensures Valid(state, trajectory) && state.hasPlan && |state.steps| == |planned|
      ensures forall k :: 0 <= k < |state.steps| ==> fresh(state.steps[k])
      ensures View(state, trajectory) == Machine.AdoptPlan(clock.reading, old(View(state, trajectory)), planned)
    {
      ghost var before := View(state, trajectory);
      AdoptSteps(state, trajectory, planned);
      Touch(state, trajectory);
      Record(state, trajectory, PlanCreated(|planned|), None, None, None);
      Save(state);
      assert View(state, trajectory) == Machine.AdoptPlan(clock.reading, before, planned);
    }

    /** What a run that is over has left in the store. */
    ghost predicate Ended(run: InvestigationRun, state: RuntimeState, trajectory: TrajectoryRecorder)
      reads state, trajectory, ids, state.steps, state.toolCalls, clock, store
    {
      && Valid(state, trajectory)
      && IsRunOf(run, View(state, trajectory))
      && state.incidentId in store.states && store.states[state.incidentId] == state.Persisted()
    }

    /** Finish the step; a stopped step takes the run down with it. */
    method CloseStep(state: RuntimeState, step: LiveStep, trajectory: TrajectoryRecorder, outcome: StepOutcome,
                     ghost alert: Alert, ghost i: nat, ghost failed: nat)
      returns (run: Option<InvestigationRun>, ghost failed': nat)
      requires Valid(state, trajectory) && state.hasPlan && i < |state.steps| && state.steps[i] == step
      modifies state, step, trajectory, clock, store
      ensures Valid(state, trajectory) && state.steps == old(state.steps) && state.hasPlan
      ensures failed' == failed + if outcome.StepGaveUp? then 1 else 0
      ensures At(if outcome.StepStopped? then Done else Boundary(i + 1), state, trajectory, failed')
           == Next(W(alert), old(At(Closing(i, outcome), state, trajectory, failed)))
      ensures run.Some? == outcome.StepStopped?
      ensures run.Some? ==> Ended(run.value, state, trajectory)
    {
      hide Machine.FinishStep, Machine.TerminateForStopReason;
      run, failed' := None, failed;
      match outcome {
        case StepDone =>
          FinishStep(state, step, trajectory, StepStatus.Completed, None, i);
          FinishKeepsPlan(clock.reading, old(View(state, trajectory)), i, StepStatus.Completed, None);
        case StepGaveUp(error) =>
          FinishStep(state, step, trajectory, StepStatus.Failed, Some(error), i);
          FinishKeepsPlan(clock.reading, old(View(state, trajectory)), i, StepStatus.Failed, Some(error));
          failed' := failed + 1;
        case StepStopped(reason, error) =>
          FinishStep(state, step, trajectory, StepStatus.Failed, Some(error), i);
          FinishKeepsPlan(clock.reading, old(View(state, trajectory)), i, StepStatus.Failed, Some(error));
          ghost var finished := View(state, trajectory);
          var r := TerminateForStopReason(state, trajectory, reason);
          TerminationKeepsPlan(clock.reading, finished, reason);
          run := Some(r);
      }
    }

    static lemma FinishKeepsPlan(clock: nat -> int, st: RunState, i: nat, status: StepStatus, error: Option<string>)
      requires i < |st.steps|
      ensures Machine.FinishStep(clock, st, i, status, error).hasPlan == st.hasPlan
    {
    }

    static lemma TerminationKeepsPlan(clock: nat -> int, st: RunState, reason: StopReason)
      ensures Machine.TerminateForStopReason(clock, st, reason).hasPlan == st.hasPlan
    {
    }

    /** Start step `i` unless the budget forbids it, run it and close it. */
    method DriveStep(state: RuntimeState, trajectory: TrajectoryRecorder, alert: Alert, i: nat, ghost failed: nat)
      returns (run: Option<InvestigationRun>, outcome: StepOutcome, ghost failed': nat)
      requires Valid(state, trajectory) && state.hasPlan && i < |state.steps|
      modifies this`planner, this`executor, state, state.steps[i], trajectory, clock, ids, store
      ensures Valid(state, trajectory) && state.steps == old(state.steps) && state.hasPlan
      ensures failed' == failed + if outcome.StepGaveUp? then 1 else 0
      ensures RunToEnd(W(alert), At(if run.Some? then Done else Boundary(i + 1), state, trajectory, failed'))
           == RunToEnd(W(alert), old(At(Boundary(i), state, trajectory, failed)))
      ensures run.Some? ==> Ended(run.value, state, trajectory)
    {
      ghost var w := W(alert);
      ghost var c := At(Boundary(i), state, trajectory, failed);
      BoundaryCases(w, c);
      hide RunToEnd, Next, Machine.StartStep, Machine.Terminate;
      outcome, failed' := StepDone, failed;
      var stop := budget.StopReasonForStepStart(i);
      if stop.Some? {
        var r := Terminate(state, trajectory, RuntimeStatus.BudgetExhausted, stop.value, RunExhausted);
        TerminateKeepsPlan(clock.reading, c.st, RuntimeStatus.BudgetExhausted, stop.value, RunExhausted);
        StepTo(w, c, At(Done, state, trajectory, failed));
        return Some(r), outcome, failed;
      }
      var step := state.steps[i];
      StartStep(state, step, trajectory, i);
      StartKeepsPlan(clock.reading, c.st, i);
      StepTo(w, c, At(Deciding(i), state, trajectory, failed));
      outcome := RunStep(state, step, trajectory, alert, i, failed);
      ghost var closing := At(Closing(i, outcome), state, trajectory, failed);
      run, failed' := CloseStep(state, step, trajectory, outcome, alert, i, failed);
      StepTo(w, closing, At(if outcome.StepStopped? then Done else Boundary(i + 1), state, trajectory, failed'));
    }

    static lemma BoundaryCases(w: World<P, E>, c: Config<P, E>)
      requires WellFormed(c) && c.control.Boundary?
      ensures Next(w, c) == BoundaryStep(w, c)
    {
    }

    static lemma StartKeepsPlan(clock: nat -> int, st: RunState, i: nat)
      requires i < |st.steps|
      ensures var after := Machine.StartStep(clock, st, i);
              after.hasPlan == st.hasPlan && |after.steps| == |st.steps|
    {
    }

    static lemma TerminateKeepsPlan(clock: nat -> int, st: RunState, status: RuntimeStatus, reason: StopReason,
                                    kind: EventKind)
      ensures Machine.Terminate(clock, st, status, reason, kind).hasPlan == st.hasPlan
    {
    }

    /** Terminate a run that passed its last step. */
    method Conclude(state: RuntimeState, trajectory: TrajectoryRecorder, failedSteps: nat, ghost alert: Alert)
      returns (run: InvestigationRun)
      requires Valid(state, trajectory) && state.hasPlan
      modifies state, trajectory, clock, store
      ensures Ended(run, state, trajectory)
      ensures RunToEnd(W(alert), At(Done, state, trajectory, failedSteps))
           == RunToEnd(W(alert), old(At(Boundary(|state.steps|), state, trajectory, failedSteps)))
    {
      ghost var w := W(alert);
      ghost var c := At(Boundary(|state.steps|), state, trajectory, failedSteps);
      BoundaryCases(w, c);
      hide RunToEnd, Next, Machine.Terminate;
      if failedSteps > 0 {
        run := Terminate(state, trajectory, RuntimeStatus.Failed, StopReason.StepFailed, RunFailed);
      } else {
        run := Terminate(state, trajectory, RuntimeStatus.Completed, StopReason.Completed, RunCompleted);
      }
      StepTo(w, c, At(Done, state, trajectory, failedSteps));
    }

    /** The loop over the plan's steps. */
    method DriveSteps(state: RuntimeState, trajectory: TrajectoryRecorder, alert: Alert)
      returns (run: InvestigationRun, ghost failed: nat)
      requires Valid(state, trajectory) && state.hasPlan
      modifies this`planner, this`executor, state, state.steps, trajectory, clock, ids, store
      ensures Ended(run, state, trajectory)
      ensures RunToEnd(W(alert), At(Done, state, trajectory, failed))
           == RunToEnd(W(alert), old(At(Boundary(0), state, trajectory, 0)))
    {
      ghost var w := W(alert);
      ghost var first := At(Boundary(0), state, trajectory, 0);
      var failedSteps := 0;
      var i := 0;
      while i < |state.steps|
        invariant Valid(state, trajectory) && state.steps == old(state.steps) && state.hasPlan && i <= |state.steps|
        invariant RunToEnd(w, At(Boundary(i), state, trajectory, failedSteps)) == RunToEnd(w, first)
        decreases |old(state.steps)| - i
      {
        hide RunToEnd;
        var ended, outcome, failed' := DriveStep(state, trajectory, alert, i, failedSteps);
        if ended.Some? {
          return ended.value, failed';
        }
        if outcome.StepGaveUp? {
          failedSteps := failedSteps + 1;
        }
        i := i + 1;
      }
      hide RunToEnd;
      run := Conclude(state, trajectory, failedSteps, alert);
      failed := failedSteps;
    }

    method Drive(state: RuntimeState, trajectory: TrajectoryRecorder, alert: Alert)
      returns (run: InvestigationRun, ghost failed: nat)
      requires Valid(state, trajectory) && !state.hasPlan && state.steps == []
      modifies this`planner, this`executor, state, trajectory, clock, ids, store
      ensures Ended(run, state, trajectory)
      ensures RunToEnd(W(alert), At(Done, state, trajectory, failed))
           == RunToEnd(W(alert), old(At(Start, state, trajectory, 0)))
    {
      ghost var w := W(alert);
      ghost var c := At(Start, state, trajectory, 0);
      PlanCases(w, c);
      hide RunToEnd, Next, Machine.EnterPlanning, Machine.AdoptPlan, Machine.Terminate;
      EnterPlanning(state, trajectory);
      var (next, reply) := createPlan(planner, alert);
      planner := next;
      if reply.PlanRaised? {
        run := Terminate(state, trajectory, RuntimeStatus.Failed, PlannerFailed, RunFailed);
        failed := 0;
        StepTo(w, c, At(Done, state, trajectory, 0));
        return;
      }
      AdoptPlan(state, trajectory, reply.steps);
      StepTo(w, c, At(Boundary(0), state, trajectory, 0));
      run, failed := DriveSteps(state, trajectory, alert);
    }

    static lemma PlanCases(w: World<P, E>, c: Config<P, E>)
      requires WellFormed(c) && c.control.Start?
      ensures Next(w, c) == PlanStep(w, c)
    {
    }

    /** Investigate one alert. The run, the state left in the store, and the states in which
        planner, executor, clock and id generator are left are those of the state machine. */
    method Run(alert: Alert) returns (run: InvestigationRun)
      requires Ids.INCIDENT_PREFIX in ids.next && Ids.TOOL_CALL_PREFIX in ids.next
      modifies this`planner, this`executor, clock, ids, store
      ensures Ids.TOOL_CALL_PREFIX in ids.next
      ensures var incidentId := Ids.FormatId(Ids.INCIDENT_PREFIX, old(ids.next)[Ids.INCIDENT_PREFIX]);
              var end := RunToEnd(W(alert), Initial(W(alert), old(planner), old(executor), incidentId, old(clock.ticks),
                                                    old(ids.next)[Ids.TOOL_CALL_PREFIX]));
              && run.incidentId == incidentId
              && IsRunOf(run, end.st)
              && planner == end.planner && executor == end.executor
              && clock.ticks == end.st.ticks && ids.next[Ids.TOOL_CALL_PREFIX] == end.st.nextCall
              && incidentId in store.states && store.states[incidentId] == StoredOf(end.st)
    {
      hide RunToEnd, Next, Opened, Ids.FormatId;
      var incidentId := ids.Take(Ids.INCIDENT_PREFIX);
      var state, trajectory := Open(incidentId);
      ghost var c := At(Start, state, trajectory, 0);
      ghost var failed;
      run, failed := Drive(state, trajectory, alert);
      NothingFollows(W(alert), At(Done, state, trajectory, failed));
      assert At(Done, state, trajectory, failed) == RunToEnd(W(alert), c);
    }

    /** The fresh state and trajectory of one incident, saved once, with the first event recorded. */
    method Open(incidentId: string) returns (state: RuntimeState, trajectory: TrajectoryRecorder)
      requires Ids.TOOL_CALL_PREFIX in ids.next
      modifies clock, store
      ensures fresh(state) && fresh(trajectory) && Valid(state, trajectory)
      ensures !state.hasPlan && state.steps == [] && state.toolCalls == [] && state.incidentId == incidentId
      ensures View(state, trajectory)
           == Opened(clock.reading, incidentId, old(clock.ticks), ids.next[Ids.TOOL_CALL_PREFIX])
    {
      var startedAt := clock.Now();
      state := new RuntimeState(incidentId, startedAt);
      trajectory := new TrajectoryRecorder(incidentId);
      Save(state);
      Record(state, trajectory, InvestigationStarted, None, None, None);
    }

    static lemma NothingFollows(w: World<P, E>, c: Config<P, E>)
      requires WellFormed(c) && c.control.Done?
      ensures RunToEnd(w, c) == c
    {
    }
  }
}
