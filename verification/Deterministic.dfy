/** The rule-based planner (app/agents/deterministic.py). */
module Deterministic {
  import opened Contracts
  import opened Machine
  import Ids

  datatype PlannedCall = PlannedCall(toolName: NonEmptyStr, arguments: Arguments)
  datatype StepTemplate = StepTemplate(action: string, calls: seq<PlannedCall>)

  /** What the planner remembers: the planned calls per step id and its own id counters. */
  datatype PlannerState = PlannerState(planned: map<string, seq<PlannedCall>>, nextPlan: nat, nextStep: nat)

  /** The case the planner is bound to and the two text helpers it applies to an alert
      (last file-like token of the command line, process name without directory and extension). */
  datatype Settings = Settings(
    caseId: string,
    fileToken: Alert -> Option<string>,
    processStem: Alert -> Option<string>)

  function Literal(s: string): NonEmptyStr
    requires s != "" && !IsSpace(s[0])
  {
    assert NonBlank(s);
    s
  }

  predicate Present(value: Option<string>) {
    value.Some? && value.value != ""
  }

  // ----- templates -----------------------------------------------------------------

  function IdentityArguments(settings: Settings, alert: Alert): Arguments {
    var base: Arguments := map["case_id" := Text(settings.caseId)];
    if Present(alert.processName) then base["process_name" := Text(alert.processName.value)]
    else if Present(alert.host) then base["host" := Text(alert.host.value)]
    else base
  }

  function EndpointCalls(settings: Settings, alert: Alert): seq<PlannedCall> {
    [PlannedCall(Literal(SEARCH_ENDPOINT), IdentityArguments(settings, alert)),
     PlannedCall(Literal(SEARCH_ENDPOINT),
                 map["case_id" := Text(settings.caseId), "event_types" := Items([Text(alert.eventType)])])]
  }

  function FileCalls(settings: Settings, alert: Alert): seq<PlannedCall> {
    var token := settings.fileToken(alert);
    if token.None? then []
    else [PlannedCall(Literal(LOOKUP_FILE),
                      map["case_id" := Text(settings.caseId), "file_name" := Text(token.value)])]
  }

  function DestinationArguments(settings: Settings, alert: Alert): Arguments {
    var base: Arguments := map["case_id" := Text(settings.caseId)];
    if Present(alert.dstIp) then base["dst_ip" := Text(alert.dstIp.value)]
    else if Present(alert.srcIp) then base["src_ip" := Text(alert.srcIp.value)]
    else base
  }

  function NetworkCalls(settings: Settings, alert: Alert): seq<PlannedCall> {
    [PlannedCall(Literal(SEARCH_NETWORK), DestinationArguments(settings, alert))] +
    if Present(alert.processName) then
      [PlannedCall(Literal(SEARCH_NETWORK),
                   map["case_id" := Text(settings.caseId), "process_name" := Text(alert.processName.value)])]
    else []
  }

  function IndicatorCall(indicator: Option<string>): seq<PlannedCall> {
    if Present(indicator) then [PlannedCall(Literal(LOOKUP_IOC), map["indicator" := Text(indicator.value)])] else []
  }

  function KnowledgeCalls(settings: Settings, alert: Alert): seq<PlannedCall> {
    var stem := settings.processStem(alert);
    (if Present(alert.dstIp) then [PlannedCall(Literal(SEARCH_CTI), map["indicator" := Text(alert.dstIp.value)])]
     else [])
    + (if Present(stem) then [PlannedCall(Literal(SEARCH_CTI), map["query" := Text(stem.value)])] else [])
  }

  /** The fixed five steps. */
  function StepTemplates(settings: Settings, alert: Alert): (r: seq<StepTemplate>)
    ensures |r| == 5
  {
    [StepTemplate("Collect endpoint activity for the alert", EndpointCalls(settings, alert)),
     StepTemplate("Check the file artifact referenced by the alert", FileCalls(settings, alert)),
     StepTemplate("Collect network and DNS activity for the alert", NetworkCalls(settings, alert)),
     StepTemplate("Enrich the alert indicators with reputation",
                  IndicatorCall(alert.dstIp) + IndicatorCall(alert.srcIp)),
     StepTemplate("Consult threat knowledge for the alert behaviour", KnowledgeCalls(settings, alert))]
  }

  // ----- creating a plan ------------------------------------------------------------

  function StepIdAt(base: nat, k: nat): string {
    Ids.FormatId(Ids.STEP_PREFIX, base + k)
  }

  function StepFor(template: StepTemplate, base: nat, k: nat): Step {
    Step(StepIdAt(base, k), k + 1, template.action,
         if template.calls == [] then None else Some(template.calls[0].toolName),
         StepStatus.Pending, None, None, None)
  }

  function StepsFor(templates: seq<StepTemplate>, base: nat): seq<Step> {
    seq(|templates|, k requires 0 <= k < |templates| => StepFor(templates[k], base, k))
  }

  /** `planned` after the first `n` templates were registered. */
  function Register(planned: map<string, seq<PlannedCall>>, templates: seq<StepTemplate>, base: nat,
                    n: nat): map<string, seq<PlannedCall>>
    requires n <= |templates|
  {
    if n == 0 then planned
    else Register(planned, templates, base, n - 1)[StepIdAt(base, n - 1) := templates[n - 1].calls]
  }

  function PlanFor(settings: Settings, state: PlannerState, alert: Alert): (PlannerState, seq<Step>) {
    var templates := StepTemplates(settings, alert);
    (PlannerState(Register(state.planned, templates, state.nextStep, |templates|),
                  state.nextPlan + 1, state.nextStep + |templates|),
     StepsFor(templates, state.nextStep))
  }

  // ----- deciding --------------------------------------------------------------------

  function PlannedFor(planned: map<string, seq<PlannedCall>>, stepId: string): seq<PlannedCall> {
    if stepId in planned then planned[stepId] else []
  }

  function CallIdsOf(calls: seq<ToolCall>, stepId: string): set<string> {
    set call | call in calls && call.stepId == stepId :: call.callId
  }

  function CountHits(results: seq<ToolResult>, ids: set<string>): nat {
    if results == [] then 0
    else CountHits(results[..|results| - 1], ids)
         + (if results[|results| - 1].callId in ids && results[|results| - 1].success then 1 else 0)
  }

  function CompletedCallCount(context: PlanningContext, stepId: string): nat {
    CountHits(context.results, CallIdsOf(context.calls, stepId))
  }

  function Decide(state: PlannerState, context: PlanningContext): PlannerDecision {
    var planned := PlannedFor(state.planned, context.current.stepId);
    var completed := CompletedCallCount(context, context.current.stepId);
    if completed >= |planned| then
      PlannerDecision.Complete(Literal("all planned tool call(s) finished"))
    else
      PlannerDecision.Call(planned[completed].toolName, planned[completed].arguments, Literal("planned call"))
  }

  /** The planner as an object: `plannedCalls` and the id counters are updated in place. */
  class DeterministicPlanner {
    const settings: Settings
    var plannedCalls: map<string, seq<PlannedCall>>
    const ids: Ids.SequentialIdGenerator

    ghost predicate Valid()
      reads this, ids
    {
      Ids.PLAN_PREFIX in ids.next && Ids.STEP_PREFIX in ids.next
    }

    ghost function State(): PlannerState
      reads this, ids
      requires Valid()
    {
      PlannerState(plannedCalls, ids.next[Ids.PLAN_PREFIX], ids.next[Ids.STEP_PREFIX])
    }

    constructor (settings: Settings, ids: Ids.SequentialIdGenerator)
      requires Ids.PLAN_PREFIX in ids.next && Ids.STEP_PREFIX in ids.next
      ensures Valid() && this.settings == settings && this.ids == ids
      ensures State() == PlannerState(map[], ids.next[Ids.PLAN_PREFIX], ids.next[Ids.STEP_PREFIX])
    {
      this.settings, this.ids, plannedCalls := settings, ids, map[];
    }

    method CreatePlan(alert: Alert) returns (planId: string, steps: seq<Step>)
      requires Valid()
      modifies this, ids
      ensures Valid()
      ensures planId == Ids.FormatId(Ids.PLAN_PREFIX, old(State()).nextPlan)
      ensures (State(), steps) == PlanFor(settings, old(State()), alert)
    {
      hide Ids.FormatId, Register, StepsFor, StepTemplates;
      planId := ids.Take(Ids.PLAN_PREFIX);
      steps := RegisterSteps(StepTemplates(settings, alert));
    }

    /** One fresh step id and one table entry. */
    method RegisterStep(template: StepTemplate, k: nat) returns (step: Step)
      requires Valid() && k <= State().nextStep
      modifies this, ids
      ensures Valid()
      ensures step == StepFor(template, old(State()).nextStep - k, k)
      ensures State() == old(State()).(planned := old(State()).planned[step.stepId := template.calls],
                                       nextStep := old(State()).nextStep + 1)
    {
      var stepId := ids.Take(Ids.STEP_PREFIX);
      plannedCalls := plannedCalls[stepId := template.calls];
      step := Step(stepId, k + 1, template.action,
                   if template.calls == [] then None else Some(template.calls[0].toolName),
                   StepStatus.Pending, None, None, None);
    }

    /** The loop over the templates. */
    method RegisterSteps(templates: seq<StepTemplate>) returns (steps: seq<Step>)
      requires Valid()
      modifies this, ids
      ensures Valid()
      ensures steps == StepsFor(templates, old(State()).nextStep)
      ensures State() == old(State()).(
                planned := Register(old(State()).planned, templates, old(State()).nextStep, |templates|),
                nextStep := old(State()).nextStep + |templates|)
    {
      hide StepIdAt;
      ghost var before := State();
      steps := [];
      for k := 0 to |templates|
        invariant Valid() && |steps| == k
        invariant forall j :: 0 <= j < k ==> steps[j] == StepFor(templates[j], before.nextStep, j)
        invariant State() == PlannerState(Register(before.planned, templates, before.nextStep, k),
                                          before.nextPlan, before.nextStep + k)
      {
        var step := RegisterStep(templates[k], k);
        steps := steps + [step];
      }
    }

    /** The ids of the step's calls, then the successful results among them, result by result. */
    method CountCompleted(context: PlanningContext, stepId: string) returns (count: nat)
      ensures count == CompletedCallCount(context, stepId)
    {
      var callIds: set<string> := {};
      for n := 0 to |context.calls|
        invariant callIds == CallIdsOf(context.calls[..n], stepId)
      {
        var call := context.calls[n];
        assert context.calls[..n + 1] == context.calls[..n] + [call];
        if call.stepId == stepId {
          callIds := callIds + {call.callId};
        }
      }
      assert context.calls[..|context.calls|] == context.calls;
      count := 0;
      for n := 0 to |context.results|
        invariant count == CountHits(context.results[..n], callIds)
      {
        assert context.results[..n + 1][..n] == context.results[..n];
        if context.results[n].callId in callIds && context.results[n].success {
          count := count + 1;
        }
      }
      assert context.results[..|context.results|] == context.results;
    }

    /** The step's first planned call that has not succeeded yet, or completion when all have. */
    method DecideNextAction(context: PlanningContext) returns (decision: PlannerDecision)
      requires Valid()
      ensures decision == Decide(State(), context)
    {
      hide CompletedCallCount, CountHits;
      var stepId := context.current.stepId;
      var planned := if stepId in plannedCalls then plannedCalls[stepId] else [];
      var completed := CountCompleted(context, stepId);
      if completed >= |planned| {
        return PlannerDecision.Complete(Literal("all planned tool call(s) finished"));
      }
      var nextCall := planned[completed];
      return PlannerDecision.Call(nextCall.toolName, nextCall.arguments, Literal("planned call"));
    }
  }

  // ----- the planner and its registered calls -----------------------------------------

  lemma {:induction false} RegisterFinds(planned: map<string, seq<PlannedCall>>, templates: seq<StepTemplate>,
                                         base: nat, n: nat, k: nat)
    requires k < n <= |templates|
    ensures PlannedFor(Register(planned, templates, base, n), StepIdAt(base, k)) == templates[k].calls
  {
    if k < n - 1 {
      RegisterFinds(planned, templates, base, n - 1, k);
      if StepIdAt(base, k) == StepIdAt(base, n - 1) {
        Ids.FormatIdInjective(Ids.STEP_PREFIX, base + k, base + n - 1);
      }
    }
  }

  /** The table holds each new step's own template, even where old entries had the same ids. */
  lemma CreatePlanRegisters(settings: Settings, state: PlannerState, alert: Alert, k: nat)
    requires k < 5
    ensures var (after, steps) := PlanFor(settings, state, alert);
            && |steps| == 5
            && PlannedFor(after.planned, steps[k].stepId) == StepTemplates(settings, alert)[k].calls
            && forall j :: 0 <= j < 5 && j != k ==> steps[j].stepId != steps[k].stepId
  {
    var templates := StepTemplates(settings, alert);
    RegisterFinds(state.planned, templates, state.nextStep, |templates|, k);
    forall j | 0 <= j < 5 && j != k ensures StepIdAt(state.nextStep, j) != StepIdAt(state.nextStep, k) {
      if StepIdAt(state.nextStep, j) == StepIdAt(state.nextStep, k) {
        Ids.FormatIdInjective(Ids.STEP_PREFIX, state.nextStep + j, state.nextStep + k);
      }
    }
  }
}
