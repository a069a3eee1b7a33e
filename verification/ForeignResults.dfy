/** The deterministic planner with an executor that does not stamp its results with their call's id
    (app/agents/deterministic.py, app/runtime/runtime.py). */
module ForeignResults {
  import opened Contracts
  import opened Machine
  import opened Effects
  import opened Deterministic
  import opened PlanRefinement
  import Budget
  import Ids
  import Safety

  ghost predicate ForeignId(id: string) {
    forall n: nat :: id != Ids.FormatId(Ids.TOOL_CALL_PREFIX, n)
  }

  /** Every call succeeds, under an id that is not a call id. */
  ghost predicate AnswersForeign<P, E(!new)>(w: World<P, E>) {
    forall e: E, call: ToolCall ::
      var reply := w.execute(e, call).1;
      reply.Returned? && reply.result.success && ForeignId(reply.result.callId)
  }

  /** The smaller of the two call limits. */
  function CallLimit(budget: Budget.InvestigationBudget): nat {
    if budget.maxToolCalls <= budget.maxToolCallsPerStep then budget.maxToolCalls else budget.maxToolCallsPerStep
  }

  /** A successful attempt at the first planned call of step `s`. */
  predicate Repeats(call: ToolCall, s: string, first: PlannedCall) {
    && call.stepId == s && call.toolName == first.toolName && call.arguments == first.arguments
    && call.status.Succeeded?
  }

  ghost predicate OnlyRepeats(st: RunState, s: string, first: PlannedCall) {
    && st.totalCalls == |st.calls| && st.totalFailures == 0
    && (forall k :: 0 <= k < |st.calls| ==>
          Repeats(st.calls[k], s, first)
            && exists n: nat :: st.calls[k].callId == Ids.FormatId(Ids.TOOL_CALL_PREFIX, n))
    && CountInStep(st.calls, s) == |st.calls|
    && (forall k :: 0 <= k < |st.results| ==> ForeignId(st.results[k].callId))
  }

  /** The run goes round the first planned call of its first step. */
  ghost predicate Stuck<E>(w: World<PlannerState, E>, c: Config<PlannerState, E>, s: string, first: PlannedCall) {
    && WellFormed(c) && c.st.steps != [] && c.st.steps[0].stepId == s
    && PlannedFor(c.planner.planned, s) != [] && PlannedFor(c.planner.planned, s)[0] == first
    && OnlyRepeats(c.st, s, first) && |c.st.calls| <= CallLimit(w.budget)
    && (match c.control
        case Boundary(i) => i == 0
        case Deciding(i) => i == 0
        case Calling(i, request, attempts) =>
          i == 0 && attempts == 0 && request.toolName == first.toolName && request.arguments == first.arguments
        case Closing(i, outcome) =>
          && i == 0 && outcome.StepStopped? && outcome.reason.IsCallLimit() && |c.st.calls| == CallLimit(w.budget)
        case Done =>
          && c.st.stopReason.Some? && c.st.stopReason.value.IsCallLimit() && |c.st.calls| == CallLimit(w.budget)
        case Start => false)
  }

  lemma {:induction false} NothingCounts(results: seq<ToolResult>, ids: set<string>)
    requires forall k :: 0 <= k < |results| ==> results[k].callId !in ids
    ensures CountHits(results, ids) == 0
  {
    if results != [] { NothingCounts(results[..|results| - 1], ids); }
  }

  /** No foreign result counts as progress, so the first planned call is due again. */
  lemma StillDue(st: RunState, s: string, first: PlannedCall)
    requires OnlyRepeats(st, s, first)
    ensures CountHits(st.results, CallIdsOf(st.calls, s)) == 0
  {
    var ids := CallIdsOf(st.calls, s);
    forall call, k | call in st.calls && 0 <= k < |st.results| ensures call.callId != st.results[k].callId {
      var j :| 0 <= j < |st.calls| && st.calls[j] == call;
      assert ForeignId(st.results[k].callId);
    }
    NothingCounts(st.results, ids);
  }

  lemma DecideStuck<E(!new)>(w: World<PlannerState, E>, c: Config<PlannerState, E>, s: string, first: PlannedCall)
    requires Stuck(w, c, s, first) && c.control.Deciding? && DecidesByTable(w)
    ensures Stuck(w, Next(w, c), s, first)
  {
    hide OnlyRepeats, Ids.FormatId;
    StillDue(c.st, s, first);
    var x := Context(w, c.st, 0);
    assert w.decide(c.planner, x) == (c.planner, Decided(Decide(c.planner, x)));
    OtherStepsKeepCalls(w, c);
    KeepingRepeats(c.st, Next(w, c).st, s, first);
  }

  lemma KeepingRepeats(before: RunState, after: RunState, s: string, first: PlannedCall)
    requires OnlyRepeats(before, s, first) && KeepsCalls(before, after)
    ensures OnlyRepeats(after, s, first)
  {
  }

  lemma AttemptRepeats<E(!new)>(w: World<PlannerState, E>, c: Config<PlannerState, E>, n: Config<PlannerState, E>,
                                begun: ToolCall, reply: ExecutorReply, s: string, first: PlannedCall)
    requires Stuck(w, c, s, first) && AnswersForeign(w) && IsAttempt(w, c, n, begun, reply)
    ensures OnlyRepeats(n.st, s, first) && n.control == Deciding(0)
  {
    hide Ids.FormatId, ForeignId;
    var last := |c.st.calls|;
    assert reply == w.execute(c.executor, begun).1;
    assert reply.Returned? && reply.result.success && ForeignId(reply.result.callId);
    forall k | 0 <= k < last ensures n.st.calls[k] == c.st.calls[k] {
      assert n.st.calls[k] == n.st.calls[..last][k];
    }
    assert n.st.calls[last].callId == Ids.FormatId(Ids.TOOL_CALL_PREFIX, c.st.nextCall);
    Safety.CountsAppend(c.st.calls, n.st.calls, s);
  }

  lemma NextStuck<E(!new)>(w: World<PlannerState, E>, c: Config<PlannerState, E>, s: string, first: PlannedCall)
    requires Stuck(w, c, s, first) && DecidesByTable(w) && AnswersForeign(w) && !c.control.Done?
    ensures Stuck(w, Next(w, c), s, first)
  {
    hide OnlyRepeats, Ids.FormatId, AnswersForeign;
    if c.control.Deciding? {
      DecideStuck(w, c, s, first);
    } else if c.control.Calling? && Blocked(w, c.st, 0).None? {
      var begun, reply := AttemptEffect(w, c);
      NotAtLimit(w, c.st, s, first);
      AttemptRepeats(w, c, Next(w, c), begun, reply, s, first);
    } else {
      OtherStepsKeepCalls(w, c);
      KeepingRepeats(c.st, Next(w, c).st, s, first);
      if c.control.Calling? { NotAtLimit(w, c.st, s, first); }
    }
  }

  /** Without failures an attempt is blocked exactly when the smaller call limit is reached. */
  lemma NotAtLimit<P, E>(w: World<P, E>, st: RunState, s: string, first: PlannedCall)
    requires OnlyRepeats(st, s, first) && st.steps != [] && st.steps[0].stepId == s
    ensures Blocked(w, st, 0).None? <==> |st.calls| < CallLimit(w.budget)
    ensures Blocked(w, st, 0).Some? ==> Blocked(w, st, 0).value.IsCallLimit()
  {
  }

  lemma {:induction false} RunStuck<E(!new)>(w: World<PlannerState, E>, c: Config<PlannerState, E>, s: string,
                                             first: PlannedCall)
    requires Stuck(w, c, s, first) && DecidesByTable(w) && AnswersForeign(w)
    ensures Stuck(w, RunToEnd(w, c), s, first)
    decreases !c.control.Done?, Measure(w, c)
  {
    if !c.control.Done? {
      NextDecreases(w, c);
      NextStuck(w, c, s, first);
      hide Next, Measure, Stuck;
      RunStuck(w, Next(w, c), s, first);
    }
  }

  /** The planner counts progress by call id. If every call succeeds under a foreign id, a plan whose first step
      has a planned call makes the run repeat that one call until the smaller call limit stops it. */
  lemma ForeignIdsRepeatTheFirstCall<E(!new)>(w: World<PlannerState, E>, planner: PlannerState, executor: E,
                                              incidentId: string, ticks: nat, nextCall: nat)
    requires DecidesByTable(w) && AnswersForeign(w)
    requires var (after, reply) := w.createPlan(planner, w.alert);
             reply.Planned? && reply.steps != [] && PlannedFor(after.planned, reply.steps[0].stepId) != []
    ensures var (after, reply) := w.createPlan(planner, w.alert);
            var s := reply.steps[0].stepId;
            var run := RunToEnd(w, Initial(w, planner, executor, incidentId, ticks, nextCall)).st;
            && run.stopReason.Some? && run.stopReason.value.IsCallLimit()
            && |run.calls| == CallLimit(w.budget)
            && forall k :: 0 <= k < |run.calls| ==> Repeats(run.calls[k], s, PlannedFor(after.planned, s)[0])
  {
    var start := Initial(w, planner, executor, incidentId, ticks, nextCall);
    var (after, reply) := w.createPlan(planner, w.alert);
    var s := reply.steps[0].stepId;
    OneStep(w, start);
    RunStuck(w, Next(w, start), s, PlannedFor(after.planned, s)[0]);
  }
}
