/** The model-driven planner: request/repair loop, validation, request budget and decision
    trace (app/agents/llm_planner.py, app/agents/llm_budget.py, app/agents/decision_trace.py). */
module LlmPlanner {
  import opened Contracts
  import opened Machine
  import opened Deterministic
  import Budget
  import Ids

  // ----- the model and its answers ------------------------------------------------------

  /** A model response after the JSON and decision contracts were checked. */
  datatype ModelResponse = NotJson | NotAnObject | InvalidDecision | Proposed(decision: PlannerDecision)

  /** What one model request may do. `OtherError` is any exception that is not a client error. */
  datatype ClientReply = Content(response: ModelResponse) | ClientError | OtherError

  datatype RejectionKind =
    | RequestFailed | InvalidJson | InvalidDecisionKind | IllegalTool | BudgetExceeded
    | CaseIdMismatch | IllegalArguments

  /** The planner's fixed configuration. `complete` is the model client with its private state,
      `validate` the input schema of a tool (normalised arguments, or nothing), `sameCase` the
      folded comparison of a supplied case id with the trusted one. */
  datatype LlmSettings<!C> = LlmSettings(
    skeleton: Settings,
    maxRequests: Budget.Positive,
    maxRepairs: nat,
    complete: (C, PlanningContext, nat) -> (C, ClientReply),
    validate: (string, Arguments) -> Option<Arguments>,
    sameCase: Value -> bool)
  {
    function CaseId(): string { skeleton.caseId }
  }

  const CASE_ID := "case_id"

  function AllowedTools(order: nat): set<string> {
    if order == 1 then {SEARCH_ENDPOINT}
    else if order == 2 then {LOOKUP_FILE}
    else if order == 3 then {SEARCH_NETWORK}
    else if order == 4 then {LOOKUP_IOC}
    else if order == 5 then {SEARCH_CTI}
    else {}
  }

  /** The declared argument names of each tool's input schema. */
  function InputFields(toolName: string): set<string> {
    if toolName == SEARCH_ENDPOINT then
      {CASE_ID, "event_types", "host", "user", "process_name", "parent_process_name", "command_line_contains",
       "file_path", "sha256", "start_time", "end_time", "limit"}
    else if toolName == SEARCH_NETWORK then
      {CASE_ID, "host", "src_ip", "dst_ip", "dst_port", "protocol", "direction", "domain", "query_contains",
       "record_type", "process_name", "start_time", "end_time", "include_network", "include_dns", "limit"}
    else if toolName == LOOKUP_FILE then {CASE_ID, "sha256", "path", "file_name", "host"}
    else if toolName == LOOKUP_IOC then {"indicator", "ioc_type"}
    else if toolName == SEARCH_CTI then {"query", "indicator", "technique_id", "limit"}
    else {}
  }

  /** Input schemas report declared fields only and leave a case id they accept as it is. */
  ghost predicate SchemasKeepCaseId<C>(settings: LlmSettings<C>) {
    forall toolName: string, arguments: Arguments :: settings.validate(toolName, arguments).Some? ==>
      var dumped := settings.validate(toolName, arguments).value;
      && dumped.Keys <= InputFields(toolName)
      && (CASE_ID in arguments && CASE_ID in InputFields(toolName) ==>
            CASE_ID in dumped && dumped[CASE_ID] == arguments[CASE_ID])
  }

  datatype Outcome = Valid(decision: PlannerDecision) | Invalid(kind: RejectionKind)

  function ValidateCall<C>(settings: LlmSettings<C>, decision: PlannerDecision, context: PlanningContext): Outcome
    requires decision.Call?
  {
    if decision.toolName !in AllowedTools(context.current.order) then Invalid(IllegalTool)
    else if context.remainingToolBudget <= 0 || context.remainingStepBudget <= 0 then Invalid(BudgetExceeded)
    else
      var supplied := if CASE_ID in decision.arguments then decision.arguments[CASE_ID] else Null;
      var arguments := decision.arguments - {CASE_ID};
      var fields := InputFields(decision.toolName);
      if supplied != Null && !settings.sameCase(supplied) then Invalid(CaseIdMismatch)
      else if !(arguments.Keys <= fields) then Invalid(IllegalArguments)
      else
        var trusted := if CASE_ID in fields then arguments[CASE_ID := Text(settings.CaseId())] else arguments;
        var validated := settings.validate(decision.toolName, trusted);
        if validated.None? then Invalid(IllegalArguments)
        else Valid(decision.(arguments := validated.value))
  }

  function Validate<C>(settings: LlmSettings<C>, response: ModelResponse, context: PlanningContext): Outcome {
    match response
    case NotJson => Invalid(InvalidJson)
    case NotAnObject => Invalid(InvalidJson)
    case InvalidDecision => Invalid(InvalidDecisionKind)
    case Proposed(decision) => if decision.Call? then ValidateCall(settings, decision, context) else Valid(decision)
  }

  // ----- the decision trace ------------------------------------------------------------------

  datatype TraceStatus = Accepted | Repaired | RejectedResponse | Fallback

  datatype TraceEntry = TraceEntry(
    decisionId: string, requestSequence: nat, stepId: Option<string>, action: PlannerAction,
    selectedTool: Option<string>, status: TraceStatus, repairAttempt: nat,
    failure: Option<RejectionKind>, callId: Option<string>)

  const DECISION_PREFIX := "AGD"

  function Append(entries: seq<TraceEntry>, requestSequence: nat, stepId: string, action: PlannerAction,
                  selectedTool: Option<string>, status: TraceStatus, repairAttempt: nat,
                  failure: Option<RejectionKind>): seq<TraceEntry>
  {
    entries + [TraceEntry(Ids.FormatId(DECISION_PREFIX, |entries| + 1), requestSequence, Some(stepId), action,
                          selectedTool, status, repairAttempt, failure, None)]
  }

  function SelectedTool(decision: PlannerDecision): Option<string> {
    if decision.Call? then Some(decision.toolName) else None
  }

  // ----- deciding -------------------------------------------------------------------------------

  /** The planner's own failure detail; the runtime only reports that the planner failed. */
  datatype FailureReason = RequestBudgetSpent | ModelRequestFailed | ResponseRejected(kind: RejectionKind)

  datatype LlmState<C> = LlmState(
    skeleton: PlannerState, used: nat, entries: seq<TraceEntry>, client: C, lastFailure: Option<FailureReason>)

  /** The request/repair loop from its `repair`-th iteration on. */
  function Requests<C>(settings: LlmSettings<C>, state: LlmState<C>, context: PlanningContext,
                       repair: nat): (LlmState<C>, PlannerReply)
    decreases if repair <= settings.maxRepairs then settings.maxRepairs - repair + 1 else 0
  {
    var step := context.current.stepId;
    if state.used >= settings.maxRequests then (state.(lastFailure := Some(RequestBudgetSpent)), PlannerRaised)
    else
      var sequence := state.used + 1;
      var (client, reply) := settings.complete(state.client, context, repair);
      var asked := state.(used := sequence, client := client);
      match reply
      case OtherError => (asked, PlannerRaised)
      case ClientError =>
        (asked.(entries := Append(asked.entries, sequence, step, CallTool, None, RejectedResponse, repair,
                                  Some(RequestFailed)), lastFailure := Some(ModelRequestFailed)), PlannerRaised)
      case Content(response) =>
        match Validate(settings, response, context)
        case Valid(decision) =>
          var status := if repair == 0 then Accepted else Repaired;
          (asked.(entries := Append(asked.entries, sequence, step, decision.Action(), SelectedTool(decision), status,
                                    repair, None)), Decided(decision))
        case Invalid(kind) =>
          var noted := asked.(entries := Append(asked.entries, sequence, step, CallTool, None, RejectedResponse, repair,
                                                Some(kind)), lastFailure := Some(ResponseRejected(kind)));
          if repair >= settings.maxRepairs then (noted, PlannerRaised)
          else Requests(settings, noted, context, repair + 1)
  }

  predicate FallsBack(context: PlanningContext) {
    || AllowedTools(context.current.order) == {}
    || context.remainingStepBudget <= 0
    || context.remainingToolBudget <= 0
  }

  function LlmDecide<C>(settings: LlmSettings<C>, state: LlmState<C>, context: PlanningContext)
    : (LlmState<C>, PlannerReply)
  {
    if FallsBack(context) then
      (state.(entries := Append(state.entries, 0, context.current.stepId, CompleteStep, None, Fallback, 0, None)),
       Decided(PlannerDecision.Complete(Literal("closed without tool calls"))))
    else Requests(settings, state, context, 0)
  }

  function LlmPlan<C>(settings: LlmSettings<C>, state: LlmState<C>, alert: Alert): (LlmState<C>, PlanReply) {
    var (skeleton, steps) := PlanFor(settings.skeleton, state.skeleton, alert);
    (state.(skeleton := skeleton), Planned(steps))
  }

  // ----- the objects -----------------------------------------------------------------------------

  /** Counts model requests and refuses to exceed the budget. */
  class LLMBudgetTracker {
    const maxRequests: Budget.Positive
    var used: nat

    constructor (maxRequests: Budget.Positive)
      ensures this.maxRequests == maxRequests && used == 0
    {
      this.maxRequests, used := maxRequests, 0;
    }

    /** `None` stands for the budget exception. */
    method Consume() returns (sequence: Option<nat>)
      modifies this
      ensures sequence == if old(used) >= maxRequests then None else Some(old(used) + 1)
      ensures used == if old(used) >= maxRequests then old(used) else old(used) + 1
    {
      if used >= maxRequests {
        return None;
      }
      used := used + 1;
      sequence := Some(used);
    }
  }

  class AgentDecisionTraceRecorder {
    var sequence: nat
    var entries: seq<TraceEntry>

    ghost predicate Valid()
      reads this
    {
      sequence == |entries|
    }

    constructor ()
      ensures Valid() && entries == []
    {
      sequence, entries := 0, [];
    }

    method Record(requestSequence: nat, stepId: string, action: PlannerAction, selectedTool: Option<string>,
                  status: TraceStatus, repairAttempt: nat, failure: Option<RejectionKind>)
      requires Valid()
      modifies this
      ensures Valid()
      ensures entries == Append(old(entries), requestSequence, stepId, action, selectedTool, status, repairAttempt,
                                failure)
    {
      sequence := sequence + 1;
      entries := entries + [TraceEntry(Ids.FormatId(DECISION_PREFIX, sequence), requestSequence, Some(stepId), action,
                                       selectedTool, status, repairAttempt, failure, None)];
    }
  }

  class LLMPlanner<C> {
    const settings: LlmSettings<C>
    const tracker: LLMBudgetTracker
    const recorder: AgentDecisionTraceRecorder
    var client: C
    var lastFailure: Option<FailureReason>

    ghost predicate Valid()
      reads this, recorder
    {
      recorder.Valid() && tracker.maxRequests == settings.maxRequests
    }

    /** The planner's state; the skeleton planner is not touched while deciding. */
    ghost function State(skeleton: PlannerState): LlmState<C>
      reads this, tracker, recorder
    {
      LlmState(skeleton, tracker.used, recorder.entries, client, lastFailure)
    }

    constructor (settings: LlmSettings<C>, client: C)
      ensures Valid() && this.settings == settings
      ensures fresh(tracker) && fresh(recorder)
      ensures forall skeleton :: State(skeleton) == LlmState(skeleton, 0, [], client, None)
    {
      this.settings, this.client, lastFailure := settings, client, None;
      tracker := new LLMBudgetTracker(settings.maxRequests);
      recorder := new AgentDecisionTraceRecorder();
    }

    method DecideNextAction(context: PlanningContext, ghost skeleton: PlannerState) returns (reply: PlannerReply)
      requires Valid()
      modifies this, tracker, recorder
      ensures Valid()
      ensures (State(skeleton), reply) == LlmDecide(settings, old(State(skeleton)), context)
    {
      var step := context.current.stepId;
      if FallsBack(context) {
        recorder.Record(0, step, CompleteStep, None, Fallback, 0, None);
        return Decided(PlannerDecision.Complete(Literal("closed without tool calls")));
      }
      var repairAttempt := 0;
      while true
        invariant Valid() && repairAttempt <= settings.maxRepairs
        invariant Requests(settings, State(skeleton), context, repairAttempt)
               == Requests(settings, old(State(skeleton)), context, 0)
        decreases settings.maxRepairs - repairAttempt
      {
        var sequence := tracker.Consume();
        if sequence.None? {
          lastFailure := Some(RequestBudgetSpent);
          return PlannerRaised;
        }
        var (next, answer) := settings.complete(client, context, repairAttempt);
        client := next;
        if answer.OtherError? {
          return PlannerRaised;
        }
        if answer.ClientError? {
          lastFailure := Some(ModelRequestFailed);
          recorder.Record(sequence.value, step, CallTool, None, RejectedResponse, repairAttempt, Some(RequestFailed));
          return PlannerRaised;
        }
        var outcome := Validate(settings, answer.response, context);
        if outcome.Valid? {
          recorder.Record(sequence.value, step, outcome.decision.Action(), SelectedTool(outcome.decision),
                          if repairAttempt == 0 then Accepted else Repaired, repairAttempt, None);
          return Decided(outcome.decision);
        }
        lastFailure := Some(ResponseRejected(outcome.kind));
        recorder.Record(sequence.value, step, CallTool, None, RejectedResponse, repairAttempt, Some(outcome.kind));
        if repairAttempt >= settings.maxRepairs {
          return PlannerRaised;
        }
        repairAttempt := repairAttempt + 1;
      }
    }
  }
}
