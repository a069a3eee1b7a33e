/** What the model-driven planner makes of the model's answers: which one it accepts, what it keeps of it, and
    why it rejects the others (app/agents/llm_planner.py). */
module ModelAnswers {
  import opened Contracts
  import opened Machine
  import opened Effects
  import opened LlmPlanner
  import Ids
  import LlmRuns

  // ----- what is kept of an accepted proposal -----------------------------------------------------

  /** `trusted` is `proposed` with the case id replaced by the trusted one where the tool declares a case id, and
      removed where it does not. */
  ghost predicate WithTrustedCase<C>(settings: LlmSettings<C>, toolName: string, proposed: Arguments,
                                     trusted: Arguments)
  {
    && (forall key :: key != CASE_ID ==>
          && (key in trusted <==> key in proposed)
          && (key in proposed ==> trusted[key] == proposed[key]))
    && (CASE_ID in trusted <==> CASE_ID in InputFields(toolName))
    && (CASE_ID in trusted ==> trusted[CASE_ID] == Text(settings.CaseId()))
  }

  /** The arguments of the call are what the tool's schema reports for the proposed ones under the trusted case. */
  ghost predicate Reported<C>(settings: LlmSettings<C>, toolName: string, proposed: Arguments, arguments: Arguments) {
    exists trusted: Arguments ::
      WithTrustedCase(settings, toolName, proposed, trusted) && settings.validate(toolName, trusted) == Some(arguments)
  }

  /** A proposal that is no call is kept as it is; a call keeps its tool and its rationale. */
  ghost predicate Kept<C>(settings: LlmSettings<C>, proposed: PlannerDecision, decision: PlannerDecision) {
    if !proposed.Call? then decision == proposed
    else
      && decision.Call? && decision.toolName == proposed.toolName && decision.rationale == proposed.rationale
      && Reported(settings, proposed.toolName, proposed.arguments, decision.arguments)
  }

  // ----- which answers are accepted ------------------------------------------------------------------

  /** The proposal carries a case id of its own that is not the trusted one. */
  predicate ForeignCase<C>(settings: LlmSettings<C>, arguments: Arguments) {
    CASE_ID in arguments && arguments[CASE_ID] != Null && !settings.sameCase(arguments[CASE_ID])
  }

  predicate Budgeted(context: PlanningContext) {
    context.remainingToolBudget > 0 && context.remainingStepBudget > 0
  }

  /** Only declared arguments, which the tool's schema accepts under the trusted case. */
  ghost predicate SchemaAccepts<C>(settings: LlmSettings<C>, toolName: string, arguments: Arguments) {
    && (forall key :: key in arguments && key != CASE_ID ==> key in InputFields(toolName))
    && exists trusted: Arguments ::
         WithTrustedCase(settings, toolName, arguments, trusted) && settings.validate(toolName, trusted).Some?
  }

  ghost predicate Acceptable<C>(settings: LlmSettings<C>, context: PlanningContext, response: ModelResponse) {
    && response.Proposed?
    && (response.decision.Call? ==>
          var call := response.decision;
          && call.toolName in AllowedTools(context.current.order) && Budgeted(context)
          && !ForeignCase(settings, call.arguments) && SchemaAccepts(settings, call.toolName, call.arguments))
  }

  lemma TrustedIsUnique<C>(settings: LlmSettings<C>, toolName: string, proposed: Arguments, a: Arguments, b: Arguments)
    requires WithTrustedCase(settings, toolName, proposed, a) && WithTrustedCase(settings, toolName, proposed, b)
    ensures a == b
  {
    hide InputFields;
    assert forall key :: key in a <==> key in b;
  }

  function TrustedArguments<C>(settings: LlmSettings<C>, toolName: string, proposed: Arguments): (r: Arguments)
    ensures WithTrustedCase(settings, toolName, proposed, r)
  {
    var others := proposed - {CASE_ID};
    if CASE_ID in InputFields(toolName) then others[CASE_ID := Text(settings.CaseId())] else others
  }

  /** The validator accepts exactly the acceptable answers, and keeps what it must of them. */
  lemma AcceptedIff<C>(settings: LlmSettings<C>, response: ModelResponse, context: PlanningContext)
    ensures Validate(settings, response, context).Valid? <==> Acceptable(settings, context, response)
    ensures Validate(settings, response, context).Valid? ==>
              Kept(settings, response.decision, Validate(settings, response, context).decision)
  {
    hide InputFields, AllowedTools;
    if response.Proposed? && response.decision.Call? {
      var call := response.decision;
      var trusted := TrustedArguments(settings, call.toolName, call.arguments);
      if SchemaAccepts(settings, call.toolName, call.arguments) {
        var other: Arguments :| WithTrustedCase(settings, call.toolName, call.arguments, other)
                                && settings.validate(call.toolName, other).Some?;
        TrustedIsUnique(settings, call.toolName, call.arguments, trusted, other);
      }
    }
  }

  /** The kind a rejection is recorded under is that of the first requirement the answer misses. */
  lemma RejectedAs<C>(settings: LlmSettings<C>, response: ModelResponse, context: PlanningContext)
    requires Validate(settings, response, context).Invalid?
    ensures var kind := Validate(settings, response, context).kind;
            && (kind.InvalidJson? <==> response.NotJson? || response.NotAnObject?)
            && (kind.InvalidDecisionKind? <==> response.InvalidDecision?)
            && (response.Proposed? ==>
                  var call := response.decision;
                  var allowed := call.Call? && call.toolName in AllowedTools(context.current.order);
                  && call.Call?
                  && (kind.IllegalTool? <==> !allowed)
                  && (kind.BudgetExceeded? <==> allowed && !Budgeted(context))
                  && (kind.CaseIdMismatch? <==> allowed && Budgeted(context) && ForeignCase(settings, call.arguments))
                  && (kind.IllegalArguments? <==>
                      allowed && Budgeted(context) && !ForeignCase(settings, call.arguments)))
  {
    hide InputFields, AllowedTools;
  }

  // ----- which answer decides ----------------------------------------------------------------------------

  /** The client before its `n`-th request of a decision, and its answer to that request. */
  function ClientBefore<C>(settings: LlmSettings<C>, client: C, context: PlanningContext, n: nat): C {
    if n == 0 then client
    else settings.complete(ClientBefore(settings, client, context, n - 1), context, n - 1).0
  }

  function Answer<C>(settings: LlmSettings<C>, client: C, context: PlanningContext, n: nat): ClientReply {
    settings.complete(ClientBefore(settings, client, context, n), context, n).1
  }

  /** The `n`-th answer is the first acceptable one, and it comes within the repairs and the request budget. */
  ghost predicate FirstAcceptable<C>(settings: LlmSettings<C>, state: LlmState<C>, context: PlanningContext, n: nat) {
    && n <= settings.maxRepairs && state.used + n < settings.maxRequests
    && Answer(settings, state.client, context, n).Content?
    && Acceptable(settings, context, Answer(settings, state.client, context, n).response)
    && forall i :: 0 <= i < n ==> Answer(settings, state.client, context, i).Content?
                                  && !Acceptable(settings, context, Answer(settings, state.client, context, i).response)
  }

  /** The loop from its `r`-th iteration on, all answers before having been rejected. */
  ghost predicate StillAsking<C>(settings: LlmSettings<C>, start: LlmState<C>, state: LlmState<C>,
                                 context: PlanningContext, r: nat)
  {
    && state.used == start.used + r && state.client == ClientBefore(settings, start.client, context, r)
    && forall i :: 0 <= i < r ==> Answer(settings, start.client, context, i).Content?
                                  && !Acceptable(settings, context, Answer(settings, start.client, context, i).response)
  }

  /** One more rejected response. */
  lemma StillAskingNext<C>(settings: LlmSettings<C>, start: LlmState<C>, state: LlmState<C>, context: PlanningContext,
                           r: nat, kind: RejectionKind)
    requires StillAsking(settings, start, state, context, r)
    requires Answer(settings, start.client, context, r).Content?
    requires !Acceptable(settings, context, Answer(settings, start.client, context, r).response)
    ensures var client := settings.complete(state.client, context, r).0;
            StillAsking(settings, start, LlmRuns.Rejected(state, client, context, r, kind, ResponseRejected(kind)),
                        context, r + 1)
  {
    hide Acceptable, Append;
  }

  lemma {:induction false} LoopDecides<C>(settings: LlmSettings<C>, start: LlmState<C>, state: LlmState<C>,
                                          context: PlanningContext, r: nat)
    requires StillAsking(settings, start, state, context, r) && r <= settings.maxRepairs
    ensures var (after, reply) := Requests(settings, state, context, r);
            reply.Decided? ==>
              var n := after.used - start.used - 1;
              && n >= r && FirstAcceptable(settings, start, context, n)
              && Kept(settings, Answer(settings, start.client, context, n).response.decision, reply.decision)
    decreases settings.maxRepairs - r
  {
    hide Validate, Acceptable, Kept, Append;
    var answer := Answer(settings, start.client, context, r);
    if state.used < settings.maxRequests && answer.Content? {
      AcceptedIff(settings, answer.response, context);
      var validated := Validate(settings, answer.response, context);
      if validated.Invalid? && r < settings.maxRepairs {
        StillAskingNext(settings, start, state, context, r, validated.kind);
        var client := settings.complete(state.client, context, r).0;
        hide StillAsking, FirstAcceptable, Answer;
        LoopDecides(settings, start, LlmRuns.Rejected(state, client, context, r, validated.kind,
                                                      ResponseRejected(validated.kind)), context, r + 1);
      }
    }
  }

  lemma {:induction false} LoopMeets<C>(settings: LlmSettings<C>, start: LlmState<C>, state: LlmState<C>,
                                        context: PlanningContext, r: nat, n: nat)
    requires StillAsking(settings, start, state, context, r) && r <= n && FirstAcceptable(settings, start, context, n)
    ensures Requests(settings, state, context, r).1.Decided?
    decreases n - r
  {
    hide Validate, Acceptable, Append;
    var answer := Answer(settings, start.client, context, r);
    AcceptedIff(settings, answer.response, context);
    if r < n {
      var kind := Validate(settings, answer.response, context).kind;
      StillAskingNext(settings, start, state, context, r, kind);
      var client := settings.complete(state.client, context, r).0;
      LoopMeets(settings, start, LlmRuns.Rejected(state, client, context, r, kind, ResponseRejected(kind)), context,
                r + 1, n);
    }
  }

  /** The planner decides by the first acceptable answer of this decision, as long as it comes within the repairs
      and the request budget and every answer before it is a rejected response; it keeps that proposal, asking
      exactly once more than it rejected. Without an allowed tool or without budget it completes the step unasked. */
  lemma FirstAcceptableDecides<C>(settings: LlmSettings<C>, state: LlmState<C>, context: PlanningContext)
    ensures var (after, reply) := LlmDecide(settings, state, context);
            if AllowedTools(context.current.order) == {} || !Budgeted(context) then
              reply.Decided? && reply.decision.Complete? && after.used == state.used && after.client == state.client
            else
              && (reply.Decided? <==> exists n :: FirstAcceptable(settings, state, context, n))
              && (reply.Decided? ==>
                    var n := after.used - state.used - 1;
                    && n >= 0 && FirstAcceptable(settings, state, context, n)
                    && Kept(settings, Answer(settings, state.client, context, n).response.decision, reply.decision))
  {
    hide Requests, FirstAcceptable, Kept;
    if !FallsBack(context) {
      LoopDecides(settings, state, state, context, 0);
      if n :| FirstAcceptable(settings, state, context, n) {
        LoopMeets(settings, state, state, context, 0, n);
      }
    }
  }

  // ----- the trace of a decision ---------------------------------------------------------------------

  /** What the trace says of the `i`-th answer, a rejected one. */
  ghost predicate RejectionTraced<C>(settings: LlmSettings<C>, start: LlmState<C>, context: PlanningContext, i: nat,
                                     entry: TraceEntry)
  {
    var answer := Answer(settings, start.client, context, i);
    && entry.decisionId == Ids.FormatId(DECISION_PREFIX, |start.entries| + i + 1)
    && entry.requestSequence == start.used + i + 1 && entry.repairAttempt == i
    && entry.stepId == Some(context.current.stepId) && entry.callId.None?
    && entry.status.RejectedResponse? && entry.action.CallTool? && entry.selectedTool.None?
    && answer.Content? && Validate(settings, answer.response, context).Invalid?
    && entry.failure == Some(Validate(settings, answer.response, context).kind)
  }

  /** What the trace says of the accepted answer. */
  ghost predicate AcceptanceTraced<C>(settings: LlmSettings<C>, start: LlmState<C>, context: PlanningContext, n: nat,
                                      entry: TraceEntry, decision: PlannerDecision)
  {
    && entry.decisionId == Ids.FormatId(DECISION_PREFIX, |start.entries| + n + 1)
    && entry.requestSequence == start.used + n + 1 && entry.repairAttempt == n
    && entry.stepId == Some(context.current.stepId) && entry.callId.None?
    && (entry.status.Accepted? <==> n == 0) && (entry.status.Repaired? <==> n > 0)
    && entry.action == decision.Action() && entry.failure.None?
    && entry.selectedTool == (if decision.Call? then Some(decision.toolName) else None)
  }

  /** The rejections so far are in the trace, in order. */
  ghost predicate RejectionsTraced<C>(settings: LlmSettings<C>, start: LlmState<C>, state: LlmState<C>,
                                      context: PlanningContext, r: nat)
  {
    && start.entries <= state.entries && |state.entries| == |start.entries| + r
    && var written := state.entries[|start.entries|..];
       forall i :: 0 <= i < r ==> RejectionTraced(settings, start, context, i, written[i])
  }

  lemma OneMoreRejectionTraced<C>(settings: LlmSettings<C>, start: LlmState<C>, state: LlmState<C>,
                                  context: PlanningContext, r: nat)
    requires StillAsking(settings, start, state, context, r) && RejectionsTraced(settings, start, state, context, r)
    requires Answer(settings, start.client, context, r).Content?
    requires Validate(settings, Answer(settings, start.client, context, r).response, context).Invalid?
    ensures var kind := Validate(settings, Answer(settings, start.client, context, r).response, context).kind;
            var client := settings.complete(state.client, context, r).0;
            RejectionsTraced(settings, start, LlmRuns.Rejected(state, client, context, r, kind, ResponseRejected(kind)),
                             context, r + 1)
  {
    hide Validate, Acceptable, Answer, ClientBefore, Ids.FormatId;
    var kind := Validate(settings, Answer(settings, start.client, context, r).response, context).kind;
    var next := LlmRuns.Rejected(state, settings.complete(state.client, context, r).0, context, r, kind,
                                 ResponseRejected(kind));
    var before, written := state.entries[|start.entries|..], next.entries[|start.entries|..];
    assert written == before + [next.entries[|state.entries|]];
    assert RejectionTraced(settings, start, context, r, written[r]);
    forall i | 0 <= i < r ensures written[i] == before[i] {
    }
  }

  lemma {:induction false} LoopTraces<C>(settings: LlmSettings<C>, start: LlmState<C>, state: LlmState<C>,
                                         context: PlanningContext, r: nat)
    requires StillAsking(settings, start, state, context, r) && RejectionsTraced(settings, start, state, context, r)
    requires r <= settings.maxRepairs
    ensures var (after, reply) := Requests(settings, state, context, r);
            reply.Decided? ==> DecisionTraced(settings, start, context, after, reply.decision)
    decreases settings.maxRepairs - r
  {
    hide Validate, Acceptable, Ids.FormatId;
    var answer := Answer(settings, start.client, context, r);
    if state.used < settings.maxRequests && answer.Content? {
      AcceptedIff(settings, answer.response, context);
      var validated := Validate(settings, answer.response, context);
      if validated.Valid? {
        AcceptanceIsTraced(settings, start, state, context, r);
      } else if r < settings.maxRepairs {
        OneMoreRejectionTraced(settings, start, state, context, r);
        StillAskingNext(settings, start, state, context, r, validated.kind);
        var client := settings.complete(state.client, context, r).0;
        hide StillAsking, Answer, RejectionsTraced, DecisionTraced, Append;
        LoopTraces(settings, start, LlmRuns.Rejected(state, client, context, r, validated.kind,
                                                     ResponseRejected(validated.kind)), context, r + 1);
      }
    }
  }

  /** One entry a request: the rejections in order, then the accepted answer. */
  ghost predicate DecisionTraced<C>(settings: LlmSettings<C>, start: LlmState<C>, context: PlanningContext,
                                    after: LlmState<C>, decision: PlannerDecision)
  {
    && after.used > start.used
    && var n := after.used - start.used - 1;
    && start.entries <= after.entries && |after.entries| == |start.entries| + n + 1
    && var written := after.entries[|start.entries|..];
    && (forall i :: 0 <= i < n ==> RejectionTraced(settings, start, context, i, written[i]))
    && AcceptanceTraced(settings, start, context, n, written[n], decision)
  }

  lemma AcceptanceIsTraced<C>(settings: LlmSettings<C>, start: LlmState<C>, state: LlmState<C>,
                              context: PlanningContext, r: nat)
    requires StillAsking(settings, start, state, context, r) && RejectionsTraced(settings, start, state, context, r)
    requires state.used < settings.maxRequests && Answer(settings, start.client, context, r).Content?
    requires Validate(settings, Answer(settings, start.client, context, r).response, context).Valid?
    ensures var (after, reply) := Requests(settings, state, context, r);
            reply.Decided? && DecisionTraced(settings, start, context, after, reply.decision)
  {
    hide Validate, Acceptable, Ids.FormatId, RejectionTraced;
    var (after, reply) := Requests(settings, state, context, r);
    var before, written := state.entries[|start.entries|..], after.entries[|start.entries|..];
    assert written == before + [after.entries[|state.entries|]];
    forall i | 0 <= i < r ensures written[i] == before[i] {
    }
  }

  /** Every decision that was asked for leaves one trace entry a request: the rejected answers in order, each under the
      kind it was rejected as, and then the accepted one, with the decision's action and tool. */
  lemma DecisionsAreTraced<C>(settings: LlmSettings<C>, state: LlmState<C>, context: PlanningContext)
    requires AllowedTools(context.current.order) != {} && Budgeted(context)
    ensures var (after, reply) := LlmDecide(settings, state, context);
            reply.Decided? ==> DecisionTraced(settings, state, context, after, reply.decision)
  {
    hide Requests, DecisionTraced;
    LoopTraces(settings, state, state, context, 0);
  }

  // ----- schemas that return what they are given ---------------------------------------------------------------

  ghost predicate SchemasReturnTheirInput<C>(settings: LlmSettings<C>) {
    forall toolName: string, arguments: Arguments :: settings.validate(toolName, arguments).Some? ==>
      settings.validate(toolName, arguments).value == arguments
  }

  /** Under such schemas an accepted call differs from its proposal in the case id at most. */
  lemma OnlyTheCaseChanges<C>(settings: LlmSettings<C>, toolName: string, proposed: Arguments, arguments: Arguments)
    requires SchemasReturnTheirInput(settings) && Reported(settings, toolName, proposed, arguments)
    ensures forall key :: key != CASE_ID ==>
              && (key in arguments <==> key in proposed)
              && (key in proposed ==> arguments[key] == proposed[key])
  {
    hide InputFields;
  }

  // ----- every run ------------------------------------------------------------------------------------------------

  /** The model proposed this request in the step `stepId`. */
  ghost predicate Proposes<C(!new)>(settings: LlmSettings<C>, stepId: string, toolName: string, arguments: Arguments,
                                    rationale: string)
  {
    exists client: C, context: PlanningContext, n: nat ::
      ProposedAt(settings, client, context, n, stepId, toolName, arguments, rationale)
  }

  ghost predicate ProposedAt<C>(settings: LlmSettings<C>, client: C, context: PlanningContext, n: nat, stepId: string,
                                toolName: string, arguments: Arguments, rationale: string)
  {
    var reply := settings.complete(client, context, n).1;
    && context.current.stepId == stepId
    && reply.Content? && reply.response.Proposed? && reply.response.decision.Call?
    && reply.response.decision.toolName == toolName && reply.response.decision.rationale == rationale
    && Reported(settings, toolName, reply.response.decision.arguments, arguments)
  }

  ghost predicate AsProposed<C(!new), E>(settings: LlmSettings<C>, c: Config<LlmState<C>, E>) {
    && WellFormed(c)
    && (forall j :: 0 <= j < |c.st.calls| ==>
          var call := c.st.calls[j]; Proposes(settings, call.stepId, call.toolName, call.arguments, call.rationale))
    && (c.control.Calling? ==>
          var request := c.control.request;
          Proposes(settings, c.st.steps[c.control.i].stepId, request.toolName, request.arguments, request.rationale))
  }

  lemma DecisionIsProposed<C(!new)>(settings: LlmSettings<C>, state: LlmState<C>, context: PlanningContext)
    ensures var reply := LlmDecide(settings, state, context).1;
            reply.Decided? && reply.decision.Call? ==>
              Proposes(settings, context.current.stepId, reply.decision.toolName, reply.decision.arguments,
                       reply.decision.rationale)
  {
    hide LlmDecide, Reported, AllowedTools, SchemaAccepts;
    FirstAcceptableDecides(settings, state, context);
    var (after, reply) := LlmDecide(settings, state, context);
    if reply.Decided? && reply.decision.Call? {
      var n: nat := after.used - state.used - 1;
      assert ProposedAt(settings, ClientBefore(settings, state.client, context, n), context, n, context.current.stepId,
                        reply.decision.toolName, reply.decision.arguments, reply.decision.rationale);
    }
  }

  lemma DecideAsProposed<C(!new), E>(w: World<LlmState<C>, E>, settings: LlmSettings<C>, c: Config<LlmState<C>, E>)
    requires AsProposed(settings, c) && c.control.Deciding? && LlmRuns.UsesLlmPlanner(w, settings)
    ensures AsProposed(settings, Next(w, c))
  {
    hide LlmDecide, Proposes;
    var x := Context(w, c.st, c.control.i);
    assert w.decide(c.planner, x) == LlmDecide(settings, c.planner, x);
    DecisionIsProposed(settings, c.planner, x);
    OtherStepsKeepCalls(w, c);
  }

  lemma AttemptAsProposed<C(!new), E>(w: World<LlmState<C>, E>, settings: LlmSettings<C>, c: Config<LlmState<C>, E>,
                                      n: Config<LlmState<C>, E>, begun: ToolCall, reply: ExecutorReply)
    requires AsProposed(settings, c) && IsAttempt(w, c, n, begun, reply)
    ensures AsProposed(settings, n)
  {
    hide Proposes;
    forall j | 0 <= j < |c.st.calls| ensures n.st.calls[j] == c.st.calls[j] {
      assert n.st.calls[..|c.st.calls|][j] == c.st.calls[j];
    }
  }

  lemma NextAsProposed<C(!new), E>(w: World<LlmState<C>, E>, settings: LlmSettings<C>, c: Config<LlmState<C>, E>)
    requires AsProposed(settings, c) && LlmRuns.UsesLlmPlanner(w, settings) && !c.control.Done? && !c.control.Start?
    ensures AsProposed(settings, Next(w, c))
  {
    hide Proposes, BeginAttempt, Attempted;
    if c.control.Deciding? {
      DecideAsProposed(w, settings, c);
    } else if c.control.Calling? && Blocked(w, c.st, c.control.i).None? {
      var begun, reply := AttemptEffect(w, c);
      hide Next;
      AttemptAsProposed(w, settings, c, Next(w, c), begun, reply);
    } else {
      OtherStepsKeepCalls(w, c);
    }
  }

  lemma {:induction false} RunAsProposed<C(!new), E>(w: World<LlmState<C>, E>, settings: LlmSettings<C>,
                                                     c: Config<LlmState<C>, E>)
    requires AsProposed(settings, c) && LlmRuns.UsesLlmPlanner(w, settings) && !c.control.Start?
    ensures AsProposed(settings, RunToEnd(w, c))
    decreases !c.control.Done?, Measure(w, c)
  {
    if !c.control.Done? {
      NextDecreases(w, c);
      NextAsProposed(w, settings, c);
      hide Next, Measure, AsProposed;
      RunAsProposed(w, settings, Next(w, c));
    }
  }

  /** Every tool call of every run was proposed by the model in its step, with this tool and rationale, and its
      arguments are what the tool's schema reports for the proposed ones under the trusted case id. */
  lemma RunsCallWhatWasProposed<C(!new), E>(w: World<LlmState<C>, E>, settings: LlmSettings<C>, planner: LlmState<C>,
                                            executor: E, incidentId: string, ticks: nat, nextCall: nat)
    requires LlmRuns.UsesLlmPlanner(w, settings)
    ensures var run := RunToEnd(w, Initial(w, planner, executor, incidentId, ticks, nextCall)).st;
            forall j :: 0 <= j < |run.calls| ==>
              var call := run.calls[j]; Proposes(settings, call.stepId, call.toolName, call.arguments, call.rationale)
  {
    var start := Initial(w, planner, executor, incidentId, ticks, nextCall);
    assert w.createPlan(planner, w.alert) == LlmPlan(settings, planner, w.alert);
    assert AsProposed(settings, Next(w, start));
    hide Next, Initial, RunToEnd, Proposes;
    OneStep(w, start);
    RunAsProposed(w, settings, Next(w, start));
  }
}
