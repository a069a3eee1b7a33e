/** Runs of the model-driven planner with an arbitrary model client
    (app/agents/llm_planner.py, app/agents/llm_budget.py, app/runtime/runtime.py). */
module LlmRuns {
  import opened Contracts
  import opened Machine
  import opened Effects
  import opened LlmPlanner
  import opened Multiples
  import Budget
  import Deterministic
  import Safety

  // ----- one decision -----------------------------------------------------------------------

  /** The request numbers of the trace entries that a model request left, in order. */
  function RequestNumbers(entries: seq<TraceEntry>): seq<nat> {
    if entries == [] then []
    else RequestNumbers(entries[..|entries| - 1])
         + (var n := entries[|entries| - 1].requestSequence; if n > 0 then [n] else [])
  }

  /** An accepted call: the entries that correlation with the run looks at. */
  predicate IsCallEntry(entry: TraceEntry) {
    entry.action.CallTool? && entry.stepId.Some? && entry.selectedTool.Some? && entry.selectedTool.value != ""
  }

  /** Step and tool of the accepted calls, in order. */
  function CallKeys(entries: seq<TraceEntry>): seq<(string, string)> {
    if entries == [] then []
    else CallKeys(entries[..|entries| - 1])
         + (var entry := entries[|entries| - 1];
            if IsCallEntry(entry) then [(entry.stepId.value, entry.selectedTool.value)] else [])
  }

  /** Fresh trace entries carry no tool-call id. */
  ghost predicate NoCallIds(entries: seq<TraceEntry>) {
    forall n :: 0 <= n < |entries| ==> entries[n].callId.None?
  }

  function Consecutive(from: nat, to: nat): seq<nat>
    requires from <= to
  {
    seq(to - from, k requires 0 <= k < to - from => from + 1 + k)
  }

  ghost predicate OnlyClientErrors<C(!new)>(settings: LlmSettings<C>) {
    forall c: C, x: PlanningContext, r: nat :: !settings.complete(c, x, r).1.OtherError?
  }

  /** A call the planner may ask for in a step of this order. */
  predicate LegalCall(caseId: string, order: nat, toolName: string, arguments: Arguments) {
    && toolName in AllowedTools(order)
    && (CASE_ID in InputFields(toolName) ==> CASE_ID in arguments)
    && (CASE_ID in arguments ==> arguments[CASE_ID] == Text(caseId))
  }

  function KeysOf(reply: PlannerReply, stepId: string): seq<(string, string)> {
    if reply.Decided? && reply.decision.Call? then [(stepId, reply.decision.toolName)] else []
  }

  lemma AppendFacts(entries: seq<TraceEntry>, requestSequence: nat, stepId: string, action: PlannerAction,
                    selectedTool: Option<string>, status: TraceStatus, repairAttempt: nat,
                    failure: Option<RejectionKind>)
    ensures var after := Append(entries, requestSequence, stepId, action, selectedTool, status, repairAttempt, failure);
            && RequestNumbers(after) == RequestNumbers(entries)
              + (if requestSequence > 0 then [requestSequence] else [])
            && CallKeys(after) == CallKeys(entries)
               + (if action.CallTool? && selectedTool.Some? && selectedTool.value != ""
                  then [(stepId, selectedTool.value)] else [])
  {
    var after := Append(entries, requestSequence, stepId, action, selectedTool, status, repairAttempt, failure);
    assert after[..|after| - 1] == entries;
  }

  lemma ValidCallIsLegal<C>(settings: LlmSettings<C>, response: ModelResponse, context: PlanningContext)
    requires SchemasKeepCaseId(settings)
    ensures var outcome := Validate(settings, response, context);
            outcome.Valid? && outcome.decision.Call? ==>
              && LegalCall(settings.CaseId(), context.current.order, outcome.decision.toolName,
                           outcome.decision.arguments)
              && context.remainingToolBudget > 0 && context.remainingStepBudget > 0
  {
  }

  lemma NonBlankNotEmpty(s: NonEmptyStr)
    ensures s != ""
  {
  }

  /** What a decision did to the planner's state. */
  ghost predicate DecisionFacts<C(!new)>(settings: LlmSettings<C>, context: PlanningContext, before: LlmState<C>,
                                         after: LlmState<C>, reply: PlannerReply)
  {
    && after.skeleton == before.skeleton
    && before.used <= after.used
    && (NoCallIds(before.entries) ==> NoCallIds(after.entries))
    && (before.used <= settings.maxRequests ==> after.used <= settings.maxRequests)
    && CallKeys(after.entries) == CallKeys(before.entries) + KeysOf(reply, context.current.stepId)
    && (OnlyClientErrors(settings) ==>
          RequestNumbers(after.entries) == RequestNumbers(before.entries) + Consecutive(before.used, after.used))
    && (reply.Decided? && reply.decision.Call? ==>
          && before.used < after.used
          && LegalCall(settings.CaseId(), context.current.order, reply.decision.toolName, reply.decision.arguments)
          && context.remainingToolBudget > 0 && context.remainingStepBudget > 0)
  }

  /** One entry was written for one consumed request. */
  lemma OneRequest<C(!new)>(settings: LlmSettings<C>, context: PlanningContext, before: LlmState<C>, client: C,
                            action: PlannerAction, selectedTool: Option<string>, status: TraceStatus, repair: nat,
                            failure: Option<RejectionKind>, lastFailure: Option<FailureReason>, reply: PlannerReply)
    requires before.used < settings.maxRequests
    requires reply.PlannerRaised? ==> selectedTool.None?
    requires reply.Decided? ==> action == reply.decision.Action() && selectedTool == SelectedTool(reply.decision)
    requires reply.Decided? && reply.decision.Call? ==>
               && LegalCall(settings.CaseId(), context.current.order, reply.decision.toolName, reply.decision.arguments)
               && context.remainingToolBudget > 0 && context.remainingStepBudget > 0
    ensures var entries := Append(before.entries, before.used + 1, context.current.stepId, action, selectedTool, status,
                                  repair, failure);
            DecisionFacts(settings, context, before,
                          before.(used := before.used + 1, client := client, entries := entries,
                                  lastFailure := lastFailure), reply)
  {
    AppendFacts(before.entries, before.used + 1, context.current.stepId, action, selectedTool, status, repair, failure);
    assert Consecutive(before.used, before.used + 1) == [before.used + 1];
    if reply.Decided? && reply.decision.Call? {
      NonBlankNotEmpty(reply.decision.toolName);
    }
  }

  lemma FactsCompose<C(!new)>(settings: LlmSettings<C>, context: PlanningContext, a: LlmState<C>, b: LlmState<C>,
                              c: LlmState<C>, reply: PlannerReply)
    requires DecisionFacts(settings, context, a, b, PlannerRaised) && DecisionFacts(settings, context, b, c, reply)
    ensures DecisionFacts(settings, context, a, c, reply)
  {
    Rejoin(RequestNumbers(a.entries), a.used, b.used, c.used);
    assert CallKeys(a.entries) + KeysOf(PlannerRaised, context.current.stepId) == CallKeys(a.entries);
  }

  lemma Rejoin(numbers: seq<nat>, a: nat, b: nat, c: nat)
    requires a <= b <= c
    ensures numbers + Consecutive(a, b) + Consecutive(b, c) == numbers + Consecutive(a, c)
  {
  }

  /** The state after a request that failed or was answered with a rejected response. */
  function Rejected<C>(state: LlmState<C>, client: C, context: PlanningContext, repair: nat, kind: RejectionKind,
                       reason: FailureReason): LlmState<C>
  {
    state.(used := state.used + 1, client := client,
           entries := Append(state.entries, state.used + 1, context.current.stepId, CallTool, None, RejectedResponse,
                             repair, Some(kind)),
           lastFailure := Some(reason))
  }

  lemma RejectedFacts<C(!new)>(settings: LlmSettings<C>, state: LlmState<C>, client: C, context: PlanningContext,
                               repair: nat, kind: RejectionKind, reason: FailureReason)
    requires state.used < settings.maxRequests
    ensures DecisionFacts(settings, context, state, Rejected(state, client, context, repair, kind, reason),
                          PlannerRaised)
  {
    OneRequest(settings, context, state, client, CallTool, None, RejectedResponse, repair, Some(kind), Some(reason),
               PlannerRaised);
  }

  lemma AcceptedFacts<C(!new)>(settings: LlmSettings<C>, state: LlmState<C>, client: C, context: PlanningContext,
                               repair: nat, response: ModelResponse)
    requires SchemasKeepCaseId(settings) && state.used < settings.maxRequests
    requires Validate(settings, response, context).Valid?
    ensures var decision := Validate(settings, response, context).decision;
            var entries := Append(state.entries, state.used + 1, context.current.stepId, decision.Action(),
                                  SelectedTool(decision), if repair == 0 then Accepted else Repaired, repair, None);
            DecisionFacts(settings, context, state,
                          state.(used := state.used + 1, client := client, entries := entries), Decided(decision))
  {
    ValidCallIsLegal(settings, response, context);
    var decision := Validate(settings, response, context).decision;
    OneRequest(settings, context, state, client, decision.Action(), SelectedTool(decision),
               if repair == 0 then Accepted else Repaired, repair, None, state.lastFailure, Decided(decision));
  }

  lemma NothingAsked<C(!new)>(settings: LlmSettings<C>, state: LlmState<C>, context: PlanningContext)
    ensures DecisionFacts(settings, context, state, state.(lastFailure := Some(RequestBudgetSpent)), PlannerRaised)
  {
    assert Consecutive(state.used, state.used) == [];
  }

  lemma {:induction false} RequestsFacts<C(!new)>(settings: LlmSettings<C>, state: LlmState<C>,
                                                  context: PlanningContext, repair: nat)
    requires SchemasKeepCaseId(settings)
    ensures var (after, reply) := Requests(settings, state, context, repair);
            DecisionFacts(settings, context, state, after, reply)
    decreases if repair <= settings.maxRepairs then settings.maxRepairs - repair + 1 else 0
  {
    hide Validate, Append, DecisionFacts;
    if state.used >= settings.maxRequests {
      NothingAsked(settings, state, context);
    } else {
      var (client, reply) := settings.complete(state.client, context, repair);
      match reply {
        case OtherError => RaisedFacts(settings, state, client, context, repair);
        case ClientError => RejectedFacts(settings, state, client, context, repair, RequestFailed, ModelRequestFailed);
        case Content(response) =>
          match Validate(settings, response, context) {
            case Valid(decision) => AcceptedFacts(settings, state, client, context, repair, response);
            case Invalid(kind) =>
              RejectedFacts(settings, state, client, context, repair, kind, ResponseRejected(kind));
              if repair < settings.maxRepairs {
                var noted := Rejected(state, client, context, repair, kind, ResponseRejected(kind));
                RequestsFacts(settings, noted, context, repair + 1);
                var (after, final) := Requests(settings, noted, context, repair + 1);
                FactsCompose(settings, context, state, noted, after, final);
              }
          }
      }
    }
  }

  /** A request that ended in a foreign exception leaves no entry. */
  lemma RaisedFacts<C(!new)>(settings: LlmSettings<C>, state: LlmState<C>, client: C, context: PlanningContext,
                             repair: nat)
    requires state.used < settings.maxRequests
    requires settings.complete(state.client, context, repair).1.OtherError?
    ensures DecisionFacts(settings, context, state, state.(used := state.used + 1, client := client), PlannerRaised)
  {
  }

  lemma DecideFacts<C(!new)>(settings: LlmSettings<C>, state: LlmState<C>, context: PlanningContext)
    requires SchemasKeepCaseId(settings)
    ensures var (after, reply) := LlmDecide(settings, state, context);
            DecisionFacts(settings, context, state, after, reply)
  {
    if FallsBack(context) {
      AppendFacts(state.entries, 0, context.current.stepId, CompleteStep, None, Fallback, 0, None);
      assert Consecutive(state.used, state.used) == [];
    } else {
      RequestsFacts(settings, state, context, 0);
    }
  }

  // ----- runs -------------------------------------------------------------------------------

  /** A runtime that asks the model-driven planner. */
  ghost predicate UsesLlmPlanner<C(!new), E>(w: World<LlmState<C>, E>, settings: LlmSettings<C>) {
    && (forall p: LlmState<C>, x: PlanningContext :: w.decide(p, x) == LlmDecide(settings, p, x))
    && (forall p: LlmState<C>, a: Alert :: w.createPlan(p, a) == LlmPlan(settings, p, a))
  }

  predicate CallIsLegal(caseId: string, steps: seq<Step>, call: ToolCall) {
    exists k :: 0 <= k < |steps| && steps[k].stepId == call.stepId
                && LegalCall(caseId, steps[k].order, call.toolName, call.arguments)
  }

  /** The request in progress passed validation for its step. */
  ghost predicate Lawful<C, E>(settings: LlmSettings<C>, c: Config<LlmState<C>, E>) {
    && WellFormed(c)
    && (forall j :: 0 <= j < |c.st.calls| ==> CallIsLegal(settings.CaseId(), c.st.steps, c.st.calls[j]))
    && (c.control.Calling? ==>
          LegalCall(settings.CaseId(), c.st.steps[c.control.i].order, c.control.request.toolName,
                    c.control.request.arguments))
  }

  /** Transitions rewrite statuses and times of steps, never their ids and orders. */
  lemma StepsKeepIdentity<P, E>(w: World<P, E>, c: Config<P, E>)
    requires WellFormed(c) && !c.control.Done? && !c.control.Start?
    ensures var n := Next(w, c);
            |n.st.steps| == |c.st.steps| &&
            forall k :: 0 <= k < |c.st.steps| ==>
              n.st.steps[k].stepId == c.st.steps[k].stepId && n.st.steps[k].order == c.st.steps[k].order
  {
    if c.control.Calling? && Blocked(w, c.st, c.control.i).None? {
      var _, _ := AttemptEffect(w, c);
    }
  }

  lemma LegalCallsCarryOver(caseId: string, before: seq<Step>, after: seq<Step>, call: ToolCall)
    requires CallIsLegal(caseId, before, call) && |after| == |before|
    requires forall k :: 0 <= k < |before| ==> after[k].stepId == before[k].stepId && after[k].order == before[k].order
    ensures CallIsLegal(caseId, after, call)
  {
    var k :| 0 <= k < |before| && before[k].stepId == call.stepId
             && LegalCall(caseId, before[k].order, call.toolName, call.arguments);
    assert after[k].stepId == call.stepId;
  }

  lemma AttemptLawful<C(!new), E>(w: World<LlmState<C>, E>, settings: LlmSettings<C>, c: Config<LlmState<C>, E>,
                                  n: Config<LlmState<C>, E>, begun: ToolCall, reply: ExecutorReply)
    requires Lawful(settings, c) && IsAttempt(w, c, n, begun, reply)
    ensures Lawful(settings, n)
  {
    forall j | 0 <= j < |n.st.calls| ensures CallIsLegal(settings.CaseId(), n.st.steps, n.st.calls[j]) {
      if j < |c.st.calls| {
        assert n.st.calls[..|c.st.calls|][j] == c.st.calls[j];
      } else {
        assert n.st.steps[c.control.i].stepId == n.st.calls[j].stepId;
      }
    }
  }

  lemma NextLawful<C(!new), E>(w: World<LlmState<C>, E>, settings: LlmSettings<C>, c: Config<LlmState<C>, E>)
    requires Lawful(settings, c) && UsesLlmPlanner(w, settings) && SchemasKeepCaseId(settings)
    requires !c.control.Done? && !c.control.Start?
    ensures Lawful(settings, Next(w, c))
  {
    if c.control.Calling? && Blocked(w, c.st, c.control.i).None? {
      var begun, reply := AttemptEffect(w, c);
      AttemptLawful(w, settings, c, Next(w, c), begun, reply);
    } else {
      var n := Next(w, c);
      OtherStepsKeepCalls(w, c);
      StepsKeepIdentity(w, c);
      forall j | 0 <= j < |c.st.calls| ensures CallIsLegal(settings.CaseId(), n.st.steps, n.st.calls[j]) {
        LegalCallsCarryOver(settings.CaseId(), c.st.steps, n.st.steps, c.st.calls[j]);
      }
      if c.control.Deciding? {
        var x := Context(w, c.st, c.control.i);
        assert w.decide(c.planner, x) == LlmDecide(settings, c.planner, x);
        DecideFacts(settings, c.planner, x);
      }
    }
  }

  // ----- why the planner failed ------------------------------------------------------------------

  /** The kept reason agrees with the request count or with the entry written last. */
  predicate Explains<C>(settings: LlmSettings<C>, state: LlmState<C>) {
    && state.lastFailure.Some?
    && match state.lastFailure.value
       case RequestBudgetSpent => state.used >= settings.maxRequests
       case ModelRequestFailed =>
         state.entries != [] && state.entries[|state.entries| - 1].failure == Some(RequestFailed)
       case ResponseRejected(kind) =>
         && state.entries != [] && state.entries[|state.entries| - 1].failure == Some(kind)
         && state.entries[|state.entries| - 1].repairAttempt == settings.maxRepairs
  }

  lemma {:induction false} RequestsExplained<C(!new)>(settings: LlmSettings<C>, state: LlmState<C>,
                                                      context: PlanningContext, repair: nat)
    requires OnlyClientErrors(settings) && repair <= settings.maxRepairs
    ensures var (after, reply) := Requests(settings, state, context, repair);
            reply.PlannerRaised? ==> Explains(settings, after)
    decreases settings.maxRepairs - repair
  {
    if state.used < settings.maxRequests && repair < settings.maxRepairs {
      var (client, reply) := settings.complete(state.client, context, repair);
      assert !settings.complete(state.client, context, repair).1.OtherError?;
      if reply.Content? && Validate(settings, reply.response, context).Invalid? {
        hide Validate;
        var kind := Validate(settings, reply.response, context).kind;
        RequestsExplained(settings, Rejected(state, client, context, repair, kind, ResponseRejected(kind)), context,
                          repair + 1);
      }
    }
  }

  ghost predicate FailureKept<C(!new), E>(settings: LlmSettings<C>, c: Config<LlmState<C>, E>) {
    && WellFormed(c)
    && (c.control.Closing? && c.control.outcome.StepStopped? && c.control.outcome.reason.PlannerFailed? ==>
          Explains(settings, c.planner))
    && (c.control.Done? && c.st.stopReason == Some(PlannerFailed) ==> Explains(settings, c.planner))
  }

  lemma DecideKeepsFailure<C(!new), E>(w: World<LlmState<C>, E>, settings: LlmSettings<C>, c: Config<LlmState<C>, E>)
    requires WellFormed(c) && c.control.Deciding? && UsesLlmPlanner(w, settings) && OnlyClientErrors(settings)
    ensures FailureKept(settings, Next(w, c))
  {
    hide Explains, LlmDecide, Context;
    var x := Context(w, c.st, c.control.i);
    assert w.decide(c.planner, x) == LlmDecide(settings, c.planner, x);
    DecideExplained(settings, c.planner, x);
  }

  lemma AttemptKeepsFailure<C(!new), E>(w: World<LlmState<C>, E>, settings: LlmSettings<C>, c: Config<LlmState<C>, E>,
                                        n: Config<LlmState<C>, E>, begun: ToolCall, reply: ExecutorReply)
    requires FailureKept(settings, c) && IsAttempt(w, c, n, begun, reply)
    ensures FailureKept(settings, n)
  {
    hide Explains;
  }

  lemma NextKeepsFailure<C(!new), E>(w: World<LlmState<C>, E>, settings: LlmSettings<C>, c: Config<LlmState<C>, E>)
    requires FailureKept(settings, c) && UsesLlmPlanner(w, settings) && OnlyClientErrors(settings)
    requires !c.control.Done? && !c.control.Start?
    ensures FailureKept(settings, Next(w, c))
  {
    hide Explains, LlmDecide, BeginAttempt, Attempted;
    if c.control.Deciding? {
      DecideKeepsFailure(w, settings, c);
    } else if c.control.Calling? && Blocked(w, c.st, c.control.i).None? {
      var begun, reply := AttemptEffect(w, c);
      hide Next;
      AttemptKeepsFailure(w, settings, c, Next(w, c), begun, reply);
    }
  }

  lemma DecideExplained<C(!new)>(settings: LlmSettings<C>, state: LlmState<C>, context: PlanningContext)
    requires OnlyClientErrors(settings)
    ensures LlmDecide(settings, state, context).1.PlannerRaised? ==>
              Explains(settings, LlmDecide(settings, state, context).0)
  {
    hide Explains, Requests;
    RequestsExplained(settings, state, context, 0);
  }

  lemma {:induction false} RunKeepsFailure<C(!new), E>(w: World<LlmState<C>, E>, settings: LlmSettings<C>,
                                                       c: Config<LlmState<C>, E>)
    requires FailureKept(settings, c) && UsesLlmPlanner(w, settings) && OnlyClientErrors(settings) && !c.control.Start?
    ensures FailureKept(settings, RunToEnd(w, c))
    decreases !c.control.Done?, Measure(w, c)
  {
    if !c.control.Done? {
      NextDecreases(w, c);
      NextKeepsFailure(w, settings, c);
      hide Next, Measure, FailureKept;
      RunKeepsFailure(w, settings, Next(w, c));
    }
  }

  /** Whenever a run ends with `planner_failed`, the planner kept the reason: the request budget is spent, or the
      trace entry written last carries the failed request or the rejection that exhausted the repairs. */
  lemma PlannerFailuresAreExplained<C(!new), E>(w: World<LlmState<C>, E>, settings: LlmSettings<C>,
                                                planner: LlmState<C>,
                                                executor: E, incidentId: string, ticks: nat, nextCall: nat)
    requires UsesLlmPlanner(w, settings) && OnlyClientErrors(settings)
    ensures var end := RunToEnd(w, Initial(w, planner, executor, incidentId, ticks, nextCall));
            end.st.stopReason == Some(PlannerFailed) ==> Explains(settings, end.planner)
  {
    var start := Initial(w, planner, executor, incidentId, ticks, nextCall);
    assert w.createPlan(planner, w.alert) == LlmPlan(settings, planner, w.alert);
    OneStep(w, start);
    RunKeepsFailure(w, settings, Next(w, start));
  }

  // ----- requests pay for calls -----------------------------------------------------------------

  /** Every planned call cost at least one request and at most `maxAttempts` attempts. */
  ghost predicate Paid<C(!new), E>(w: World<LlmState<C>, E>, settings: LlmSettings<C>, c: Config<LlmState<C>, E>,
                                   start: LlmState<C>)
  {
    && WellFormed(c)
    && start.used <= c.planner.used
    && (start.used <= settings.maxRequests ==> c.planner.used <= settings.maxRequests)
    && (if c.control.Calling? then
          && start.used < c.planner.used
          && c.control.attempts < w.retry.maxAttempts
          && |c.st.calls| <= Times(c.planner.used - start.used - 1, w.retry.maxAttempts) + c.control.attempts
        else |c.st.calls| <= Times(c.planner.used - start.used, w.retry.maxAttempts))
    && (OnlyClientErrors(settings) ==>
          RequestNumbers(c.planner.entries) == RequestNumbers(start.entries) + Consecutive(start.used, c.planner.used))
  }

  /** `n` follows `c` by one attempt. */
  ghost predicate OneAttemptPaid<C(!new), E>(w: World<LlmState<C>, E>, c: Config<LlmState<C>, E>,
                                             n: Config<LlmState<C>, E>)
  {
    && WellFormed(c) && WellFormed(n) && c.control.Calling?
    && n.planner == c.planner && |n.st.calls| == |c.st.calls| + 1
    && (n.control.Calling? ==>
          n.control.attempts == c.control.attempts + 1 && n.control.attempts < w.retry.maxAttempts)
  }

  lemma AttemptIsOne<C(!new), E>(w: World<LlmState<C>, E>, c: Config<LlmState<C>, E>, n: Config<LlmState<C>, E>,
                                 begun: ToolCall, reply: ExecutorReply)
    requires IsAttempt(w, c, n, begun, reply)
    ensures OneAttemptPaid(w, c, n)
  {
    assert n.control.Calling? ==>
        w.retry.ShouldRetry(Budget.ClassifyToolFailure(reply.result.error), c.control.attempts + 1);
  }

  lemma AttemptPaid<C(!new), E>(w: World<LlmState<C>, E>, settings: LlmSettings<C>, c: Config<LlmState<C>, E>,
                                n: Config<LlmState<C>, E>, start: LlmState<C>)
    requires Paid(w, settings, c, start) && OneAttemptPaid(w, c, n)
    ensures Paid(w, settings, n, start)
  {
    TimesStrict(c.planner.used - start.used - 1, c.planner.used - start.used, w.retry.maxAttempts);
  }

  lemma CallingPaid<C(!new), E>(w: World<LlmState<C>, E>, settings: LlmSettings<C>, c: Config<LlmState<C>, E>,
                                start: LlmState<C>)
    requires Paid(w, settings, c, start) && c.control.Calling?
    ensures Paid(w, settings, Next(w, c), start)
  {
    if Blocked(w, c.st, c.control.i).None? {
      var begun, reply := AttemptEffect(w, c);
      AttemptIsOne(w, c, Next(w, c), begun, reply);
      AttemptPaid(w, settings, c, Next(w, c), start);
    } else {
      OtherStepsKeepCalls(w, c);
      TimesStrict(c.planner.used - start.used - 1, c.planner.used - start.used, w.retry.maxAttempts);
    }
  }

  lemma DecidePaid<C(!new), E>(w: World<LlmState<C>, E>, settings: LlmSettings<C>, c: Config<LlmState<C>, E>,
                               start: LlmState<C>)
    requires Paid(w, settings, c, start) && c.control.Deciding?
    requires UsesLlmPlanner(w, settings) && SchemasKeepCaseId(settings)
    ensures Paid(w, settings, Next(w, c), start)
  {
    hide LlmDecide;
    var x := Context(w, c.st, c.control.i);
    assert w.decide(c.planner, x) == LlmDecide(settings, c.planner, x);
    DecideFacts(settings, c.planner, x);
    var n := Next(w, c);
    OtherStepsKeepCalls(w, c);
    Rejoin(RequestNumbers(start.entries), start.used, c.planner.used, n.planner.used);
    TimesMonotone(c.planner.used - start.used, n.planner.used - start.used, w.retry.maxAttempts);
    if n.control.Calling? {
      TimesMonotone(c.planner.used - start.used, n.planner.used - start.used - 1, w.retry.maxAttempts);
    }
  }

  lemma NextPaid<C(!new), E>(w: World<LlmState<C>, E>, settings: LlmSettings<C>, c: Config<LlmState<C>, E>,
                             start: LlmState<C>)
    requires Paid(w, settings, c, start) && UsesLlmPlanner(w, settings) && SchemasKeepCaseId(settings)
    requires !c.control.Done? && !c.control.Start?
    ensures Paid(w, settings, Next(w, c), start)
  {
    match c.control {
      case Deciding(_) => DecidePaid(w, settings, c, start);
      case Calling(_, _, _) => CallingPaid(w, settings, c, start);
      case _ => OtherStepsKeepCalls(w, c);
    }
  }

  // ----- call limits stop only retries --------------------------------------------------------------

  predicate LastCallFailed(st: RunState) {
    st.calls != [] && st.calls[|st.calls| - 1].status.Failed?
  }

  /** The event `back` places before the end is a scheduled retry. */
  predicate RetryAt(st: RunState, back: nat) {
    back < |st.events| && st.events[|st.events| - 1 - back].kind.RetryScheduled?
  }

  ghost predicate NoRetries<P, E>(w: World<P, E>) {
    forall kind: FailureKind, n: nat :: n >= 1 ==> !w.retry.ShouldRetry(kind, n)
  }

  ghost predicate LimitsOnlyRetries<P, E>(w: World<P, E>, c: Config<P, E>) {
    && WellFormed(c)
    && (match c.control
        case Calling(i, _, attempts) =>
          if attempts == 0 then
            c.st.totalCalls < w.budget.maxToolCalls
            && CountInStep(c.st.calls, c.st.steps[i].stepId) < w.budget.maxToolCallsPerStep
          else LastCallFailed(c.st) && RetryAt(c.st, 0) && !NoRetries(w)
        case Closing(_, outcome) =>
          outcome.StepStopped? && outcome.reason.IsCallLimit() ==>
            LastCallFailed(c.st) && RetryAt(c.st, 0) && !NoRetries(w)
        case Done =>
          c.st.stopReason.Some? && c.st.stopReason.value.IsCallLimit() ==>
            LastCallFailed(c.st) && RetryAt(c.st, 2) && !NoRetries(w)
        case _ => true)
  }

  lemma AttemptLimits<P, E>(w: World<P, E>, c: Config<P, E>, n: Config<P, E>, begun: ToolCall, reply: ExecutorReply)
    requires IsAttempt(w, c, n, begun, reply)
    requires n.control.Calling? ==> RetryAt(n.st, 0)
    ensures LimitsOnlyRetries(w, n)
  {
    assert n.control.Calling? ==>
        w.retry.ShouldRetry(Budget.ClassifyToolFailure(reply.result.error), c.control.attempts + 1);
  }

  lemma RetryIsRecorded<P, E>(w: World<P, E>, c: Config<P, E>)
    requires WellFormed(c) && c.control.Calling? && Blocked(w, c.st, c.control.i).None?
    requires Next(w, c).control.Calling?
    ensures RetryAt(Next(w, c).st, 0)
  {
    var begun, executor, reply := AttemptUnfolds(w, c);
    var st := AbsorbResult(w.clock, begun, begun.steps[c.control.i].stepId, c.control.attempts, reply.result);
    assert Next(w, c).st == ScheduleRetry(w.clock, st, begun.steps[c.control.i].stepId, c.control.attempts);
  }

  lemma CloseLimits<P, E>(w: World<P, E>, c: Config<P, E>)
    requires LimitsOnlyRetries(w, c) && c.control.Closing?
    ensures LimitsOnlyRetries(w, Next(w, c))
  {
    var n := Next(w, c);
    OtherStepsKeepCalls(w, c);
    if n.control.Done? {
      assert |n.st.events| == |c.st.events| + 2 && n.st.events[..|c.st.events|] == c.st.events;
      assert RetryAt(c.st, 0) ==> n.st.events[|c.st.events| - 1] == c.st.events[|c.st.events| - 1];
    }
  }

  lemma DecideLimits<C(!new), E>(w: World<LlmState<C>, E>, settings: LlmSettings<C>, c: Config<LlmState<C>, E>)
    requires LimitsOnlyRetries(w, c) && c.control.Deciding?
    requires UsesLlmPlanner(w, settings) && SchemasKeepCaseId(settings)
    ensures LimitsOnlyRetries(w, Next(w, c))
  {
    hide LlmDecide, LegalCall, CallKeys, RequestNumbers;
    var x := Context(w, c.st, c.control.i);
    assert w.decide(c.planner, x) == LlmDecide(settings, c.planner, x);
    DecideFacts(settings, c.planner, x);
  }

  lemma CallingLimits<P, E>(w: World<P, E>, c: Config<P, E>)
    requires LimitsOnlyRetries(w, c) && c.control.Calling?
    ensures LimitsOnlyRetries(w, Next(w, c))
  {
    hide BeginAttempt, Attempted;
    if Blocked(w, c.st, c.control.i).None? {
      var begun, reply := AttemptEffect(w, c);
      hide Next;
      if Next(w, c).control.Calling? { RetryIsRecorded(w, c); }
      AttemptLimits(w, c, Next(w, c), begun, reply);
    }
  }

  lemma NextLimits<C(!new), E>(w: World<LlmState<C>, E>, settings: LlmSettings<C>, c: Config<LlmState<C>, E>)
    requires LimitsOnlyRetries(w, c) && UsesLlmPlanner(w, settings) && SchemasKeepCaseId(settings)
    requires !c.control.Done? && !c.control.Start?
    ensures LimitsOnlyRetries(w, Next(w, c))
  {
    match c.control {
      case Boundary(_) =>
      case Deciding(_) => DecideLimits(w, settings, c);
      case Calling(_, _, _) => CallingLimits(w, c);
      case Closing(_, _) => CloseLimits(w, c);
    }
  }

  // ----- the theorems ------------------------------------------------------------------------------

  ghost predicate LlmInvariant<C(!new), E>(w: World<LlmState<C>, E>, settings: LlmSettings<C>,
                                           c: Config<LlmState<C>, E>, start: LlmState<C>)
  {
    Lawful(settings, c) && Paid(w, settings, c, start) && LimitsOnlyRetries(w, c)
  }

  lemma {:induction false} RunInvariant<C(!new), E>(w: World<LlmState<C>, E>, settings: LlmSettings<C>,
                                                    c: Config<LlmState<C>, E>, start: LlmState<C>)
    requires LlmInvariant(w, settings, c, start) && !c.control.Start?
    requires UsesLlmPlanner(w, settings) && SchemasKeepCaseId(settings)
    ensures LlmInvariant(w, settings, RunToEnd(w, c), start)
    decreases !c.control.Done?, Measure(w, c)
  {
    if !c.control.Done? {
      NextDecreases(w, c);
      NextLawful(w, settings, c);
      NextPaid(w, settings, c, start);
      NextLimits(w, settings, c);
      RunInvariant(w, settings, Next(w, c), start);
    }
  }

  lemma RunFromStart<C(!new), E>(w: World<LlmState<C>, E>, settings: LlmSettings<C>, planner: LlmState<C>, executor: E,
                                 incidentId: string, ticks: nat, nextCall: nat)
    requires UsesLlmPlanner(w, settings) && SchemasKeepCaseId(settings)
    ensures LlmInvariant(w, settings, RunToEnd(w, Initial(w, planner, executor, incidentId, ticks, nextCall)), planner)
  {
    var c := Initial(w, planner, executor, incidentId, ticks, nextCall);
    assert w.createPlan(planner, w.alert) == LlmPlan(settings, planner, w.alert);
    assert Consecutive(planner.used, planner.used) == [];
    assert LlmInvariant(w, settings, Next(w, c), planner);
    hide Initial, RunToEnd, Next, LlmInvariant;
    OneStep(w, c);
    RunInvariant(w, settings, Next(w, c), planner);
  }

  /** Whatever the model answers: every tool call of the run names a tool its step allows, and
      a case id, wherever the tool takes one, is the trusted one. */
  lemma CallsStayInTheirLane<C(!new), E>(w: World<LlmState<C>, E>, settings: LlmSettings<C>, planner: LlmState<C>,
                                         executor: E, incidentId: string, ticks: nat, nextCall: nat)
    requires UsesLlmPlanner(w, settings) && SchemasKeepCaseId(settings)
    ensures var run := RunToEnd(w, Initial(w, planner, executor, incidentId, ticks, nextCall)).st;
            forall j :: 0 <= j < |run.calls| ==> CallIsLegal(settings.CaseId(), run.steps, run.calls[j])
  {
    hide Initial, RunToEnd;
    RunFromStart(w, settings, planner, executor, incidentId, ticks, nextCall);
  }

  /** The request budget bounds the tool calls: at most `maxAttempts` calls per model request,
      and never more requests than the planner object is allowed. */
  lemma RequestsPayForCalls<C(!new), E>(w: World<LlmState<C>, E>, settings: LlmSettings<C>, planner: LlmState<C>,
                                        executor: E, incidentId: string, ticks: nat, nextCall: nat)
    requires UsesLlmPlanner(w, settings) && SchemasKeepCaseId(settings) && planner.used <= settings.maxRequests
    ensures var end := RunToEnd(w, Initial(w, planner, executor, incidentId, ticks, nextCall));
            && planner.used <= end.planner.used <= settings.maxRequests
            && |end.st.calls| <= (end.planner.used - planner.used) * w.retry.maxAttempts
  {
    hide Initial, RunToEnd, Lawful, LimitsOnlyRetries, Times;
    RunFromStart(w, settings, planner, executor, incidentId, ticks, nextCall);
    var end := RunToEnd(w, Initial(w, planner, executor, incidentId, ticks, nextCall));
    TimesIsProduct(end.planner.used - planner.used, w.retry.maxAttempts);
  }

  /** Every request consumed in a run left exactly one trace entry, numbered consecutively,
      provided the client does nothing but answer or raise its own error. */
  lemma EveryRequestIsTraced<C(!new), E>(w: World<LlmState<C>, E>, settings: LlmSettings<C>, planner: LlmState<C>,
                                         executor: E, incidentId: string, ticks: nat, nextCall: nat)
    requires UsesLlmPlanner(w, settings) && SchemasKeepCaseId(settings) && OnlyClientErrors(settings)
    ensures var end := RunToEnd(w, Initial(w, planner, executor, incidentId, ticks, nextCall));
            && planner.used <= end.planner.used
            && RequestNumbers(end.planner.entries)
               == RequestNumbers(planner.entries) + Consecutive(planner.used, end.planner.used)
  {
    hide Initial, RunToEnd;
    RunFromStart(w, settings, planner, executor, incidentId, ticks, nextCall);
  }

  /** A call limit ends a run only right after a failed attempt that was scheduled for retry:
      the last three events are the retry, the failed step and the exhausted budget. */
  lemma CallLimitsStopOnlyRetries<C(!new), E>(w: World<LlmState<C>, E>, settings: LlmSettings<C>, planner: LlmState<C>,
                                              executor: E, incidentId: string, ticks: nat, nextCall: nat)
    requires UsesLlmPlanner(w, settings) && SchemasKeepCaseId(settings)
    ensures var run := RunToEnd(w, Initial(w, planner, executor, incidentId, ticks, nextCall)).st;
            run.stopReason.Some? && run.stopReason.value.IsCallLimit() ==>
              LastCallFailed(run) && RetryAt(run, 2) && !NoRetries(w)
  {
    hide Initial, RunToEnd;
    RunFromStart(w, settings, planner, executor, incidentId, ticks, nextCall);
  }
}
