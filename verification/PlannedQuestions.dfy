/** What the rule-based planner asks for, and that its runs ask for nothing else
    (app/agents/deterministic.py). */
module PlannedQuestions {
  import opened Contracts
  import opened Machine
  import opened Effects
  import opened Deterministic
  import opened LlmPlanner
  import opened PlanRefinement
  import opened SufficientBudget
  import Lifecycle
  import LlmRuns
  import Safety

  // ----- the questions of one plan --------------------------------------------------------------

  /** The calls that a fresh plan for the alert registers for its step `k`. */
  function CallsPlanned(settings: Settings, state: PlannerState, alert: Alert, k: nat): seq<PlannedCall>
    requires k < 5
  {
    var (after, steps) := PlanFor(settings, state, alert);
    PlannedFor(after.planned, steps[k].stepId)
  }

  /** The call filters by `key` exactly when there is a value for it, and then by that value. */
  predicate Filters(call: PlannedCall, key: string, value: Option<string>) {
    && (key in call.arguments <==> Present(value))
    && (Present(value) ==> call.arguments[key] == Text(value.value))
  }

  /** The value, unless a better one is there. */
  function Unless(better: Option<string>, value: Option<string>): Option<string> {
    if Present(better) then None else value
  }

  /** Step 1 searches by the alerting process, else by the host, and then by the event type. */
  lemma EndpointQuestions(settings: Settings, state: PlannerState, alert: Alert)
    ensures var calls := CallsPlanned(settings, state, alert, 0);
            && |calls| == 2
            && Filters(calls[0], "process_name", alert.processName)
            && Filters(calls[0], "host", Unless(alert.processName, alert.host))
            && calls[0].arguments.Keys <= {CASE_ID, "process_name", "host"}
            && calls[1].arguments.Keys == {CASE_ID, "event_types"}
            && calls[1].arguments["event_types"] == Items([Text(alert.eventType)])
  {
    hide PlanFor, StepTemplates;
    Registered(settings, state, alert, 0);
    KeysDiffer();
  }

  /** Step 2 looks the file token of the command line up, if there is one. */
  lemma FileQuestions(settings: Settings, state: PlannerState, alert: Alert)
    ensures var calls, token := CallsPlanned(settings, state, alert, 1), settings.fileToken(alert);
            && |calls| == (if token.Some? then 1 else 0)
            && (token.Some? ==> calls[0].arguments.Keys == {CASE_ID, "file_name"}
                                && calls[0].arguments["file_name"] == Text(token.value))
  {
    hide PlanFor, StepTemplates;
    Registered(settings, state, alert, 1);
  }

  /** Step 3 searches by the destination, else by the source, and then by the alerting process if known. */
  lemma NetworkQuestions(settings: Settings, state: PlannerState, alert: Alert)
    ensures var calls := CallsPlanned(settings, state, alert, 2);
            && |calls| == (if Present(alert.processName) then 2 else 1)
            && Filters(calls[0], "dst_ip", alert.dstIp)
            && Filters(calls[0], "src_ip", Unless(alert.dstIp, alert.srcIp))
            && calls[0].arguments.Keys <= {CASE_ID, "dst_ip", "src_ip"}
            && (Present(alert.processName) ==>
                  Filters(calls[1], "process_name", alert.processName)
                  && calls[1].arguments.Keys == {CASE_ID, "process_name"})
  {
    hide PlanFor, StepTemplates;
    Registered(settings, state, alert, 2);
    KeysDiffer();
  }

  predicate IsAddress(alert: Alert, x: string) {
    x != "" && (alert.dstIp == Some(x) || alert.srcIp == Some(x))
  }

  function About(x: string): Arguments {
    map["indicator" := Text(x)]
  }

  predicate AsksAbout(call: PlannedCall, x: string) {
    call.arguments == About(x)
  }

  ghost predicate AsksAboutAnAddress(alert: Alert, call: PlannedCall) {
    exists x :: IsAddress(alert, x) && AsksAbout(call, x)
  }

  ghost predicate AskedAbout(calls: seq<PlannedCall>, x: string) {
    exists j :: 0 <= j < |calls| && AsksAbout(calls[j], x)
  }

  /** Reputation lookups about exactly the alert's addresses. */
  ghost predicate LooksUpAddresses(calls: seq<PlannedCall>, alert: Alert) {
    && (forall j :: 0 <= j < |calls| ==> calls[j].toolName == LOOKUP_IOC && AsksAboutAnAddress(alert, calls[j]))
    && (forall x :: IsAddress(alert, x) ==> AskedAbout(calls, x))
  }

  /** Step 4 looks exactly the alert's non-empty addresses up, the destination first. */
  lemma ReputationQuestions(settings: Settings, state: PlannerState, alert: Alert)
    ensures var calls := CallsPlanned(settings, state, alert, 3);
            && LooksUpAddresses(calls, alert)
            && |calls| == (if Present(alert.dstIp) then 1 else 0) + (if Present(alert.srcIp) then 1 else 0)
            && (Present(alert.dstIp) ==> AsksAbout(calls[0], alert.dstIp.value))
  {
    hide PlanFor, StepTemplates;
    Registered(settings, state, alert, 3);
    hide CallsPlanned;
    var calls := IndicatorCall(alert.dstIp) + IndicatorCall(alert.srcIp);
    if Present(alert.dstIp) { assert AsksAbout(calls[0], alert.dstIp.value); }
    if Present(alert.srcIp) { assert AsksAbout(calls[|calls| - 1], alert.srcIp.value); }
    forall x | IsAddress(alert, x) ensures AskedAbout(calls, x) {
      assert AsksAbout(calls[0], x) || AsksAbout(calls[|calls| - 1], x);
    }
  }

  /** Step 5 asks for the destination and for the stem of the alerting process. */
  lemma KnowledgeQuestions(settings: Settings, state: PlannerState, alert: Alert)
    ensures var calls, stem := CallsPlanned(settings, state, alert, 4), settings.processStem(alert);
            && |calls| == (if Present(alert.dstIp) then 1 else 0) + (if Present(stem) then 1 else 0)
            && (Present(alert.dstIp) ==> AsksAbout(calls[0], alert.dstIp.value))
            && (Present(stem) ==> calls[|calls| - 1].arguments == map["query" := Text(stem.value)])
  {
    hide PlanFor, StepTemplates;
    Registered(settings, state, alert, 4);
  }

  lemma KeysDiffer()
    ensures CASE_ID !in {"process_name", "host", "dst_ip", "src_ip"}
    ensures "process_name" != "host" && "dst_ip" != "src_ip"
  {
    assert CASE_ID[0] == 'c' && "process_name"[0] == 'p' && "host"[0] == 'h' && "dst_ip"[0] == 'd'
           && "src_ip"[0] == 's';
  }

  /** Which calls each step of the plan was registered with. */
  lemma Registered(settings: Settings, state: PlannerState, alert: Alert, k: nat)
    requires k < 5
    ensures CallsPlanned(settings, state, alert, k)
            == match k
               case 0 => EndpointCalls(settings, alert)
               case 1 => FileCalls(settings, alert)
               case 2 => NetworkCalls(settings, alert)
               case 3 => IndicatorCall(alert.dstIp) + IndicatorCall(alert.srcIp)
               case _ => KnowledgeCalls(settings, alert)
  {
    CreatePlanRegisters(settings, state, alert, k);
    hide PlanFor, EndpointCalls, FileCalls, NetworkCalls, IndicatorCall, KnowledgeCalls;
  }

  // ----- every planned call is legal in its step -------------------------------------------------

  predicate LegalIn(settings: Settings, order: nat, toolName: string, arguments: Arguments) {
    LlmRuns.LegalCall(settings.caseId, order, toolName, arguments) && arguments.Keys <= InputFields(toolName)
  }

  /** Step `k` stands at its place, suggests the tool of its first call, and each of its calls names a tool
      allowed there, with declared arguments and the trusted case id. */
  lemma PlanIsLegal(settings: Settings, state: PlannerState, alert: Alert, k: nat)
    requires k < 5
    ensures var calls, step := CallsPlanned(settings, state, alert, k), PlanFor(settings, state, alert).1[k];
            && step.order == k + 1
            && (step.suggestedTool.Some? <==> calls != [])
            && (step.suggestedTool.Some? ==> step.suggestedTool.value in AllowedTools(step.order))
            && forall j :: 0 <= j < |calls| ==> LegalIn(settings, step.order, calls[j].toolName, calls[j].arguments)
  {
    CreatePlanRegisters(settings, state, alert, k);
    TemplateIsLegal(settings, alert, k);
    hide StepTemplates, LegalIn;
  }

  lemma TemplateIsLegal(settings: Settings, alert: Alert, k: nat)
    requires k < 5
    ensures var calls := StepTemplates(settings, alert)[k].calls;
            && (calls != [] ==> calls[0].toolName in AllowedTools(k + 1))
            && forall j :: 0 <= j < |calls| ==> LegalIn(settings, k + 1, calls[j].toolName, calls[j].arguments)
  {
    var calls := StepTemplates(settings, alert)[k].calls;
    forall j | 0 <= j < |calls| ensures LegalIn(settings, k + 1, calls[j].toolName, calls[j].arguments) {
      match k
      case 0 => EndpointLegal(settings, alert, j);
      case 1 => FileLegal(settings, alert, j);
      case 2 => NetworkLegal(settings, alert, j);
      case 3 => IndicatorLegal(settings, alert, j);
      case _ => KnowledgeLegal(settings, alert, j);
    }
    if calls != [] { assert LegalIn(settings, k + 1, calls[0].toolName, calls[0].arguments); }
  }

  lemma EndpointLegal(settings: Settings, alert: Alert, j: nat)
    requires j < |EndpointCalls(settings, alert)|
    ensures var call := EndpointCalls(settings, alert)[j]; LegalIn(settings, 1, call.toolName, call.arguments)
  {
    KeysDiffer();
  }

  lemma FileLegal(settings: Settings, alert: Alert, j: nat)
    requires j < |FileCalls(settings, alert)|
    ensures var call := FileCalls(settings, alert)[j]; LegalIn(settings, 2, call.toolName, call.arguments)
  {
  }

  lemma NetworkLegal(settings: Settings, alert: Alert, j: nat)
    requires j < |NetworkCalls(settings, alert)|
    ensures var call := NetworkCalls(settings, alert)[j]; LegalIn(settings, 3, call.toolName, call.arguments)
  {
    KeysDiffer();
  }

  lemma IndicatorLegal(settings: Settings, alert: Alert, j: nat)
    requires j < |IndicatorCall(alert.dstIp) + IndicatorCall(alert.srcIp)|
    ensures var call := (IndicatorCall(alert.dstIp) + IndicatorCall(alert.srcIp))[j];
            LegalIn(settings, 4, call.toolName, call.arguments)
  {
  }

  lemma KnowledgeLegal(settings: Settings, alert: Alert, j: nat)
    requires j < |KnowledgeCalls(settings, alert)|
    ensures var call := KnowledgeCalls(settings, alert)[j]; LegalIn(settings, 5, call.toolName, call.arguments)
  {
  }

  // ----- runs ask the plan's questions only -------------------------------------------------------

  predicate OnList(calls: seq<PlannedCall>, toolName: string, arguments: Arguments) {
    exists j :: 0 <= j < |calls| && calls[j].toolName == toolName && calls[j].arguments == arguments
  }

  /** The call was planned for its step. */
  predicate PlannedCallOf(table: map<string, seq<PlannedCall>>, planned: seq<Step>, call: ToolCall) {
    exists k :: 0 <= k < |planned| && planned[k].stepId == call.stepId
                && OnList(PlannedFor(table, call.stepId), call.toolName, call.arguments)
  }

  /** Ids and places of the steps stay as planned. */
  predicate SameSteps(steps: seq<Step>, planned: seq<Step>) {
    && |steps| == |planned|
    && forall k :: 0 <= k < |planned| ==> steps[k].stepId == planned[k].stepId && steps[k].order == planned[k].order
  }

  ghost predicate AsPlanned<E>(c: Config<PlannerState, E>, table: map<string, seq<PlannedCall>>, planned: seq<Step>) {
    && WellFormed(c) && c.planner.planned == table && SameSteps(c.st.steps, planned)
    && (forall j :: 0 <= j < |c.st.calls| ==> PlannedCallOf(table, planned, c.st.calls[j]))
    && (c.control.Calling? ==>
          OnList(PlannedFor(table, planned[c.control.i].stepId), c.control.request.toolName,
                 c.control.request.arguments))
  }

  lemma DecideAsPlanned<E(!new)>(w: World<PlannerState, E>, c: Config<PlannerState, E>,
                                 table: map<string, seq<PlannedCall>>, planned: seq<Step>)
    requires AsPlanned(c, table, planned) && c.control.Deciding? && DecidesByTable(w)
    ensures AsPlanned(Next(w, c), table, planned)
  {
    hide PlannedCallOf, CompletedCallCount;
    var x := Context(w, c.st, c.control.i);
    assert w.decide(c.planner, x) == (c.planner, Decided(Decide(c.planner, x)));
    OtherStepsKeepCalls(w, c);
  }

  lemma AttemptAsPlanned<E>(w: World<PlannerState, E>, c: Config<PlannerState, E>, n: Config<PlannerState, E>,
                            begun: ToolCall, reply: ExecutorReply, table: map<string, seq<PlannedCall>>,
                            planned: seq<Step>)
    requires AsPlanned(c, table, planned) && IsAttempt(w, c, n, begun, reply)
    ensures AsPlanned(n, table, planned)
  {
    hide OnList;
    forall j | 0 <= j < |n.st.calls| ensures PlannedCallOf(table, planned, n.st.calls[j]) {
      if j < |c.st.calls| {
        assert n.st.calls[..|c.st.calls|][j] == c.st.calls[j];
      } else {
        assert planned[c.control.i].stepId == n.st.calls[j].stepId;
      }
    }
  }

  lemma NextAsPlanned<E(!new)>(w: World<PlannerState, E>, c: Config<PlannerState, E>,
                               table: map<string, seq<PlannedCall>>, planned: seq<Step>)
    requires AsPlanned(c, table, planned) && DecidesByTable(w) && !c.control.Done? && !c.control.Start?
    ensures AsPlanned(Next(w, c), table, planned)
  {
    hide PlannedCallOf, OnList, BeginAttempt, Attempted;
    if c.control.Deciding? {
      DecideAsPlanned(w, c, table, planned);
    } else if c.control.Calling? && Blocked(w, c.st, c.control.i).None? {
      var begun, reply := AttemptEffect(w, c);
      hide Next;
      AttemptAsPlanned(w, c, Next(w, c), begun, reply, table, planned);
    } else {
      OtherStepsKeepCalls(w, c);
      LlmRuns.StepsKeepIdentity(w, c);
    }
  }

  lemma {:induction false} RunAsPlanned<E(!new)>(w: World<PlannerState, E>, c: Config<PlannerState, E>,
                                                 table: map<string, seq<PlannedCall>>, planned: seq<Step>)
    requires AsPlanned(c, table, planned) && DecidesByTable(w) && !c.control.Start?
    ensures AsPlanned(RunToEnd(w, c), table, planned)
    decreases !c.control.Done?, Measure(w, c)
  {
    if !c.control.Done? {
      NextDecreases(w, c);
      NextAsPlanned(w, c, table, planned);
      hide Next, Measure, AsPlanned;
      RunAsPlanned(w, Next(w, c), table, planned);
    }
  }

  /** Whatever the executor answers, every call of a run of the rule-based planner was planned for its step, so
      its tool is allowed at the step's place, its arguments are declared, and the case id is the trusted one. */
  lemma RunsAskLegally<E(!new)>(w: World<PlannerState, E>, settings: Settings, planner: PlannerState, executor: E,
                                incidentId: string, ticks: nat, nextCall: nat)
    requires UsesDeterministicPlanner(w, settings)
    ensures var (after, planned) := PlanFor(settings, planner, w.alert);
            var run := RunToEnd(w, Initial(w, planner, executor, incidentId, ticks, nextCall)).st;
            && SameSteps(run.steps, planned)
            && forall j :: 0 <= j < |run.calls| ==> PlannedCallOf(after.planned, planned, run.calls[j])
                                                    && LegalSomewhere(settings, run.steps, run.calls[j])
  {
    hide PlanFor;
    var start := Initial(w, planner, executor, incidentId, ticks, nextCall);
    var (after, planned) := PlanFor(settings, planner, w.alert);
    assert w.createPlan(planner, w.alert) == (after, Planned(planned));
    assert AsPlanned(Next(w, start), after.planned, planned);
    hide Next, RunToEnd, Initial, PlannedCallOf, AsPlanned;
    OneStep(w, start);
    RunAsPlanned(w, Next(w, start), after.planned, planned);
    var run := RunToEnd(w, start).st;
    AsPlannedMeans(RunToEnd(w, start), after.planned, planned);
    forall j | 0 <= j < |run.calls| ensures LegalSomewhere(settings, run.steps, run.calls[j]) {
      PlannedIsLegal(settings, planner, w.alert, run.steps, run.calls[j]);
    }
  }

  lemma AsPlannedMeans<E>(c: Config<PlannerState, E>, table: map<string, seq<PlannedCall>>, planned: seq<Step>)
    requires AsPlanned(c, table, planned)
    ensures SameSteps(c.st.steps, planned)
    ensures forall j :: 0 <= j < |c.st.calls| ==> PlannedCallOf(table, planned, c.st.calls[j])
  {
  }

  ghost predicate LegalSomewhere(settings: Settings, steps: seq<Step>, call: ToolCall) {
    exists k :: 0 <= k < |steps| && steps[k].stepId == call.stepId && steps[k].order == k + 1
                && LegalIn(settings, steps[k].order, call.toolName, call.arguments)
  }

  lemma PlannedIsLegal(settings: Settings, state: PlannerState, alert: Alert, steps: seq<Step>, call: ToolCall)
    requires var (after, planned) := PlanFor(settings, state, alert);
             SameSteps(steps, planned) && PlannedCallOf(after.planned, planned, call)
    ensures LegalSomewhere(settings, steps, call)
  {
    hide LegalIn, StepTemplates, Register;
    var (after, planned) := PlanFor(settings, state, alert);
    var k :| 0 <= k < |planned| && planned[k].stepId == call.stepId
             && OnList(PlannedFor(after.planned, call.stepId), call.toolName, call.arguments);
    PlanIsLegal(settings, state, alert, k);
    assert steps[k].stepId == call.stepId;
  }

  // ----- a completed run has asked everything -------------------------------------------------------

  lemma {:induction false} SucceededMember(calls: seq<ToolCall>, stepId: string, shape: (string, Arguments))
    ensures shape in SucceededCalls(calls, stepId)
            <==> exists j :: 0 <= j < |calls| && calls[j].stepId == stepId && calls[j].status.Succeeded?
                             && (calls[j].toolName, calls[j].arguments) == shape
  {
    if calls != [] {
      SucceededMember(calls[..|calls| - 1], stepId, shape);
      var call := calls[|calls| - 1];
      if call.stepId == stepId && call.status.Succeeded? && (call.toolName, call.arguments) == shape {
        assert shape in SucceededCalls(calls, stepId);
      }
    }
  }

  predicate LookedUp(call: ToolCall, x: string) {
    call.status.Succeeded? && call.toolName == LOOKUP_IOC && call.arguments == About(x)
  }

  /** A completed run of the rule-based planner has successfully looked the reputation up of exactly the alert's
      non-empty addresses. */
  lemma CompletedRunsLookUpTheAddresses<E(!new)>(w: World<PlannerState, E>, settings: Settings, planner: PlannerState,
                                                 executor: E, incidentId: string, ticks: nat, nextCall: nat, x: string)
    requires UsesDeterministicPlanner(w, settings) && Safety.Echoes(w)
    requires RunToEnd(w, Initial(w, planner, executor, incidentId, ticks, nextCall)).st.stopReason
             == Some(StopReason.Completed)
    ensures var run := RunToEnd(w, Initial(w, planner, executor, incidentId, ticks, nextCall)).st;
            (exists j :: 0 <= j < |run.calls| && LookedUp(run.calls[j], x)) <==> IsAddress(w.alert, x)
  {
    hide RunToEnd, Initial, Safety.Echoes, StepTemplates, Register, PlannedCallOf, About, LooksUpAddresses;
    var (after, planned) := PlanFor(settings, planner, w.alert);
    assert w.createPlan(planner, w.alert) == (after, Planned(planned));
    var run := RunToEnd(w, Initial(w, planner, executor, incidentId, ticks, nextCall)).st;
    DeterministicPlanIsFresh(w, settings, planner);
    RunsAskLegally(w, settings, planner, executor, incidentId, ticks, nextCall);
    RunsRefineThePlan(w, planner, executor, incidentId, ticks, nextCall);
    Lifecycle.AllStepsCompleted(w, planner, executor, incidentId, ticks, nextCall);
    var s, calls := planned[3].stepId, CallsPlanned(settings, planner, w.alert, 3);
    assert run.steps[3].status.Completed? && SucceededCalls(run.calls, s) == Shapes(calls);
    SucceededMember(run.calls, s, (LOOKUP_IOC, About(x)));
    ReputationQuestions(settings, planner, w.alert);
    AddressesAsShapes(calls, w.alert, x);
    if j :| 0 <= j < |run.calls| && LookedUp(run.calls[j], x) {
      LookupIsInStepFour(settings, run.steps, run.calls[j]);
    }
  }

  lemma LookupIsInStepFour(settings: Settings, steps: seq<Step>, call: ToolCall)
    requires LegalSomewhere(settings, steps, call) && call.toolName == LOOKUP_IOC
    ensures |steps| > 3 && call.stepId == steps[3].stepId
  {
    ToolsDiffer();
  }

  lemma ToolsDiffer()
    ensures forall order :: LOOKUP_IOC in AllowedTools(order) ==> order == 4
  {
    assert LOOKUP_IOC[0] == 'l' && LOOKUP_IOC[7] == 'i' && LOOKUP_FILE[7] == 'f';
    assert SEARCH_ENDPOINT[0] == 's' && SEARCH_NETWORK[0] == 's' && SEARCH_CTI[0] == 's';
  }

  lemma AboutIsInjective(x: string, y: string)
    requires About(x) == About(y)
    ensures x == y
  {
    assert About(x)["indicator"] == Text(x) && About(y)["indicator"] == Text(y);
  }

  lemma AddressesAsShapes(calls: seq<PlannedCall>, alert: Alert, x: string)
    requires LooksUpAddresses(calls, alert)
    ensures (LOOKUP_IOC, About(x)) in Shapes(calls) <==> IsAddress(alert, x)
  {
    hide About, IsAddress, AsksAboutAnAddress, AskedAbout;
    if IsAddress(alert, x) {
      AskedAsShape(calls, x);
    }
    if (LOOKUP_IOC, About(x)) in Shapes(calls) {
      var j :| 0 <= j < |Shapes(calls)| && Shapes(calls)[j] == (LOOKUP_IOC, About(x));
      AboutOne(alert, calls[j], x);
    }
  }

  lemma AskedAsShape(calls: seq<PlannedCall>, x: string)
    requires AskedAbout(calls, x) && forall j :: 0 <= j < |calls| ==> calls[j].toolName == LOOKUP_IOC
    ensures (LOOKUP_IOC, About(x)) in Shapes(calls)
  {
    hide About;
    var j :| 0 <= j < |calls| && AsksAbout(calls[j], x);
    assert Shapes(calls)[j] == (LOOKUP_IOC, About(x));
  }

  lemma AboutOne(alert: Alert, call: PlannedCall, x: string)
    requires AsksAboutAnAddress(alert, call) && AsksAbout(call, x)
    ensures IsAddress(alert, x)
  {
    hide About;
    var y :| IsAddress(alert, y) && AsksAbout(call, y);
    AboutIsInjective(x, y);
  }
}
