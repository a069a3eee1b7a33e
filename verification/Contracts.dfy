/** Value contracts shared by the runtime, the planners and the executor
    (app/runtime/contracts.py, app/schemas/investigation.py, app/schemas/tools.py). */
module Contracts {
  datatype Option<+T> = None | Some(value: T)

  /** A JSON-like value: tool arguments, tool payloads and evidence content. */
  datatype Value =
    | Null
    | Flag(b: bool)
    | Number(n: int)
    | Text(s: string)
    | Items(xs: seq<Value>)
    | Object(fields: map<string, Value>)

  type Arguments = map<string, Value>

  predicate IsSpace(c: char) {
    c == ' ' || c == '\t' || c == '\n' || c == '\r'
  }

  /** Text that still has a character after stripping white space. */
  predicate NonBlank(s: string) {
    exists i :: 0 <= i < |s| && !IsSpace(s[i])
  }

  type NonEmptyStr = s: string | NonBlank(s) witness (assert NonBlank("x") by { assert !IsSpace("x"[0]); } "x")

  datatype Alert = Alert(
    alertId: string, eventType: string,
    host: Option<string>, user: Option<string>, processName: Option<string>,
    commandLine: Option<string>, srcIp: Option<string>, dstIp: Option<string>)

  // ----- enumerations ---------------------------------------------------------

  datatype RuntimeStatus = Initialized | Planning | Running | Completed | Failed | BudgetExhausted

  datatype StopReason =
    | Completed
    | PlannerFailed
    | ToolFailureLimit
    | MaxStepsExceeded
    | MaxToolCallsExceeded
    | MaxToolCallsPerStepExceeded
    | UnrecoverableToolError
    | StepFailed
  {
    /** The value string of the reason; it doubles as the error text of a blocked step. */
    function Name(): string {
      match this
      case Completed => "completed"
      case PlannerFailed => "planner_failed"
      case ToolFailureLimit => "tool_failure_limit"
      case MaxStepsExceeded => "max_steps_exceeded"
      case MaxToolCallsExceeded => "max_tool_calls_exceeded"
      case MaxToolCallsPerStepExceeded => "max_tool_calls_per_step_exceeded"
      case UnrecoverableToolError => "unrecoverable_tool_error"
      case StepFailed => "step_failed"
    }

    predicate IsCallLimit() {
      MaxToolCallsExceeded? || MaxToolCallsPerStepExceeded?
    }

    predicate IsBudgetReason() {
      MaxStepsExceeded? || IsCallLimit() || ToolFailureLimit?
    }
  }

  datatype PlannerAction = CallTool | CompleteStep | FailStep

  datatype FailureKind = InvalidArguments | UnknownTool | ExecutionError | ExecutorException

  // ----- planning ----------------------------------------------------------------

  datatype StepStatus = Pending | Running | Completed | Failed | Skipped

  datatype Step = Step(
    stepId: string, order: nat, action: string, suggestedTool: Option<string>,
    status: StepStatus, startedAt: Option<int>, completedAt: Option<int>, error: Option<string>)
  {
    /** The lifecycle contract that attribute assignment does not re-check. */
    predicate ValidLifecycle() {
      && (status.Running? ==> startedAt.Some?)
      && (status.Completed? ==> startedAt.Some? && completedAt.Some?)
      && (status.Failed? ==> error.Some? && NonBlank(error.value))
      && (startedAt.Some? && completedAt.Some? ==> startedAt.value <= completedAt.value)
    }
  }

  /** A decision that passed validation: only `Call` carries a tool and arguments. */
  datatype PlannerDecision =
    | Call(toolName: NonEmptyStr, arguments: Arguments, rationale: NonEmptyStr)
    | Complete(rationale: NonEmptyStr)
    | Fail(rationale: NonEmptyStr)
  {
    function Action(): PlannerAction {
      match this
      case Call(_, _, _) => CallTool
      case Complete(_) => CompleteStep
      case Fail(_) => FailStep
    }
  }

  /** What `create_plan` and `decide_next_action` may do: return or raise. */
  datatype PlanReply = Planned(steps: seq<Step>) | PlanRaised
  datatype PlannerReply = Decided(decision: PlannerDecision) | PlannerRaised

  // ----- tools --------------------------------------------------------------------

  const SEARCH_ENDPOINT := "search_endpoint_events"
  const SEARCH_NETWORK := "search_network_activity"
  const LOOKUP_FILE := "lookup_file_reputation"
  const LOOKUP_IOC := "lookup_ioc_reputation"
  const SEARCH_CTI := "search_cti"

  datatype CallStatus = Requested | Running | Succeeded | Failed

  datatype ToolCall = ToolCall(
    callId: string, incidentId: string, stepId: string, toolName: string, arguments: Arguments,
    rationale: string, status: CallStatus, requestedAt: int,
    startedAt: Option<int>, completedAt: Option<int>)

  datatype ToolResult = ToolResult(
    resultId: string, callId: string, toolName: string, success: bool,
    data: Value, error: Option<string>)

  /** What `execute` may do: return a result or raise. */
  datatype ExecutorReply = Returned(result: ToolResult) | ExecutorRaised

  datatype PlanningContext = PlanningContext(
    alert: Alert, steps: seq<Step>, current: Step,
    calls: seq<ToolCall>, results: seq<ToolResult>,
    remainingToolBudget: int, remainingStepBudget: int)

  // ----- trajectory ----------------------------------------------------------------

  datatype EventKind =
    | InvestigationStarted
    | PlanCreated(stepCount: nat)
    | StepStarted
    | DecisionMade(action: PlannerAction)
    | CallCreated(toolName: string, attempt: nat)
    | CallStarted
    | CallSucceeded(attempt: nat)
    | CallFailed(failure: FailureKind, attempt: nat)
    | RetryScheduled(nextAttempt: nat)
    | StepCompleted
    | StepFailed
    | RunExhausted
    | RunCompleted
    | RunFailed

  datatype Event = Event(
    sequence: nat, timestamp: int, incidentId: string, kind: EventKind,
    stepId: Option<string>, callId: Option<string>, resultId: Option<string>)
}
