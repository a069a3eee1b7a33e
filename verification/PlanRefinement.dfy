/** Runs driven by the deterministic planner refine its plan
    (app/agents/deterministic.py, app/runtime/runtime.py). */
module PlanRefinement {
  import opened Contracts
  import opened Machine
  import opened Effects
  import opened Deterministic
  import Safety

  /** Successful calls of one step. */
  function CountSucceeded(calls: seq<ToolCall>, stepId: string): nat {
    if calls == [] then 0
    else CountSucceeded(calls[..|calls| - 1], stepId)
         + (if calls[|calls| - 1].stepId == stepId && calls[|calls| - 1].status.Succeeded? then 1 else 0)
  }

  lemma CountSucceededAppend(before: seq<ToolCall>, after: seq<ToolCall>, stepId: string)
    requires |after| == |before| + 1 && after[..|before|] == before
    ensures CountSucceeded(after, stepId)
            == CountSucceeded(before, stepId)
               + if after[|before|].stepId == stepId && after[|before|].status.Succeeded? then 1 else 0
  {
  }

  /** What a successful call did, in order, for one step. */
  function SucceededCalls(calls: seq<ToolCall>, stepId: string): seq<(string, Arguments)> {
    if calls == [] then []
    else SucceededCalls(calls[..|calls| - 1], stepId)
         + (var call := calls[|calls| - 1];
            if call.stepId == stepId && call.status.Succeeded? then [(call.toolName, call.arguments)] else [])
  }

  function Shapes(planned: seq<PlannedCall>): seq<(string, Arguments)> {
    seq(|planned|, k requires 0 <= k < |planned| =>
      var toolName: string := planned[k].toolName; (toolName, planned[k].arguments))
  }

  /** The call is an attempt at the first planned call of its step that has not succeeded yet. */
  predicate AttemptsNext(calls: seq<ToolCall>, j: nat, table: map<string, seq<PlannedCall>>)
    requires j < |calls|
  {
    var planned := PlannedFor(table, calls[j].stepId);
    var done := CountSucceeded(calls[..j], calls[j].stepId);
    done < |planned| && calls[j].toolName == planned[done].toolName && calls[j].arguments == planned[done].arguments
  }

  ghost predicate Follows(calls: seq<ToolCall>, table: map<string, seq<PlannedCall>>) {
    forall j :: 0 <= j < |calls| ==> AttemptsNext(calls, j, table)
  }

  /** Following the table means succeeding along it: the successes are a prefix of the plan. */
  lemma {:induction false} FollowsGivesPrefix(calls: seq<ToolCall>, table: map<string, seq<PlannedCall>>,
                                              stepId: string)
    requires Follows(calls, table)
    ensures CountSucceeded(calls, stepId) <= |PlannedFor(table, stepId)|
    ensures SucceededCalls(calls, stepId) == Shapes(PlannedFor(table, stepId))[..CountSucceeded(calls, stepId)]
  {
    if calls != [] {
      var last := |calls| - 1;
      var before := calls[..last];
      forall j | 0 <= j < last ensures AttemptsNext(before, j, table) {
        assert AttemptsNext(calls, j, table) && before[..j] == calls[..j];
      }
      FollowsGivesPrefix(before, table, stepId);
      assert AttemptsNext(calls, last, table);
      if calls[last].stepId == stepId && calls[last].status.Succeeded? {
        var planned := Shapes(PlannedFor(table, stepId));
        var done := CountSucceeded(before, stepId);
        assert planned[..done] + [planned[done]] == planned[..done + 1];
      }
    }
  }

  // ----- the planner's own progress count is the number of successes -------------------

  lemma {:induction false} CountAgrees(calls: seq<ToolCall>, results: seq<ToolResult>, ids: set<string>, stepId: string)
    requires |calls| == |results|
    requires forall k :: 0 <= k < |calls| ==>
               && results[k].callId == calls[k].callId
               && (results[k].success <==> calls[k].status.Succeeded?)
               && (calls[k].callId in ids <==> calls[k].stepId == stepId)
    ensures CountHits(results, ids) == CountSucceeded(calls, stepId)
  {
    if calls != [] {
      CountAgrees(calls[..|calls| - 1], results[..|calls| - 1], ids, stepId);
    }
  }

  lemma ProgressIsSuccesses<P, E(!new)>(w: World<P, E>, c: Config<P, E>, base: nat, stepId: string)
    requires Safety.Conserved(w, c, base) && Safety.Echoes(w) && |c.st.results| == |c.st.calls|
    ensures CountHits(c.st.results, CallIdsOf(c.st.calls, stepId)) == CountSucceeded(c.st.calls, stepId)
  {
    var ids := CallIdsOf(c.st.calls, stepId);
    forall k | 0 <= k < |c.st.calls| ensures c.st.calls[k].callId in ids <==> c.st.calls[k].stepId == stepId {
      var call := c.st.calls[k];
      if call.stepId == stepId {
        assert call in c.st.calls;
      }
      if call.callId in ids {
        var other :| other in c.st.calls && other.stepId == stepId && other.callId == call.callId;
        var j :| 0 <= j < |c.st.calls| && c.st.calls[j] == other;
        Safety.CallIdsDistinct(w, c, base, j, k);
      }
    }
    CountAgrees(c.st.calls, c.st.results, ids, stepId);
  }

  // ----- the invariant -------------------------------------------------------------------

  /** The world asks the table-driven planner for every decision. */
  ghost predicate DecidesByTable<E>(w: World<PlannerState, E>) {
    forall p: PlannerState, x: PlanningContext :: w.decide(p, x) == (p, Decided(Decide(p, x)))
  }

  ghost predicate DistinctSteps(steps: seq<Step>) {
    forall j, k :: 0 <= j < k < |steps| ==> steps[j].stepId != steps[k].stepId
  }

  predicate RequestIs(request: PlannerDecision, planned: seq<PlannedCall>, done: nat) {
    request.Call? && done < |planned| && request.toolName == planned[done].toolName
    && request.arguments == planned[done].arguments
  }

  /** The step's part of the plan, as seen from the control point. */
  ghost predicate OnPlan<E>(c: Config<PlannerState, E>)
    requires WellFormed(c)
  {
    match c.control
    case Calling(i, request, _) =>
      var s := c.st.steps[i].stepId;
      RequestIs(request, PlannedFor(c.planner.planned, s), CountSucceeded(c.st.calls, s))
    case Closing(i, outcome) =>
      var s := c.st.steps[i].stepId;
      outcome.StepDone? ==> CountSucceeded(c.st.calls, s) == |PlannedFor(c.planner.planned, s)|
    case _ => true
  }

  /** A completed step has nothing left to do. */
  ghost predicate CompletedDone(st: RunState, table: map<string, seq<PlannedCall>>) {
    forall k :: 0 <= k < |st.steps| && st.steps[k].status.Completed? ==>
      CountSucceeded(st.calls, st.steps[k].stepId) == |PlannedFor(table, st.steps[k].stepId)|
  }

  predicate CurrentNotCompleted<P, E>(c: Config<P, E>)
    requires WellFormed(c)
  {
    c.control.Deciding? || c.control.Calling? || c.control.Closing? ==> c.st.steps[c.control.i].status.Running?
  }

  ghost predicate OnTable<E>(c: Config<PlannerState, E>) {
    && WellFormed(c)
    && CurrentNotCompleted(c)
    && DistinctSteps(c.st.steps)
    && Follows(c.st.calls, c.planner.planned)
    && CompletedDone(c.st, c.planner.planned)
    && OnPlan(c)
  }

  lemma AttemptFollows<E>(w: World<PlannerState, E>, c: Config<PlannerState, E>, n: Config<PlannerState, E>,
                          begun: ToolCall, reply: ExecutorReply)
    requires OnTable(c) && IsAttempt(w, c, n, begun, reply)
    ensures Follows(n.st.calls, c.planner.planned)
  {
    var last := |c.st.calls|;
    forall j | 0 <= j <= last ensures AttemptsNext(n.st.calls, j, c.planner.planned) {
      if j < last {
        assert AttemptsNext(c.st.calls, j, c.planner.planned);
        assert n.st.calls[..last][..j] == n.st.calls[..j] && n.st.calls[..last][j] == n.st.calls[j];
      }
    }
  }

  lemma AttemptOnTable<E>(w: World<PlannerState, E>, c: Config<PlannerState, E>, n: Config<PlannerState, E>,
                          begun: ToolCall, reply: ExecutorReply)
    requires OnTable(c) && IsAttempt(w, c, n, begun, reply)
    ensures OnTable(n)
  {
    var s := c.st.steps[c.control.i].stepId;
    AttemptFollows(w, c, n, begun, reply);
    CountSucceededAppend(c.st.calls, n.st.calls, s);
    forall k | 0 <= k < |n.st.steps| && n.st.steps[k].status.Completed?
      ensures CountSucceeded(n.st.calls, n.st.steps[k].stepId) == |PlannedFor(c.planner.planned, n.st.steps[k].stepId)|
    {
      CountSucceededAppend(c.st.calls, n.st.calls, n.st.steps[k].stepId);
    }
  }

  lemma DecideOnTable<E(!new)>(w: World<PlannerState, E>, c: Config<PlannerState, E>, base: nat)
    requires OnTable(c) && c.control.Deciding?
    requires Safety.Conserved(w, c, base) && Safety.Echoes(w) && DecidesByTable(w)
    ensures OnTable(Next(w, c)) && Next(w, c).planner == c.planner
  {
    var s := c.st.steps[c.control.i].stepId;
    var x := Context(w, c.st, c.control.i);
    assert w.decide(c.planner, x) == (c.planner, Decided(Decide(c.planner, x)));
    OtherStepsKeepCalls(w, c);
    ProgressIsSuccesses(w, c, base, s);
    FollowsGivesPrefix(c.st.calls, c.planner.planned, s);
  }

  /** Every transition after planning keeps the run on its table. */
  lemma NextOnTable<E(!new)>(w: World<PlannerState, E>, c: Config<PlannerState, E>, base: nat)
    requires OnTable(c) && Safety.Conserved(w, c, base) && Safety.Echoes(w) && DecidesByTable(w)
    requires !c.control.Done? && !c.control.Start?
    ensures OnTable(Next(w, c)) && Next(w, c).planner == c.planner
  {
    match c.control {
      case Deciding(_) => DecideOnTable(w, c, base);
      case Calling(_, _, _) =>
        if Blocked(w, c.st, c.control.i).None? {
          var begun, reply := AttemptEffect(w, c);
          AttemptOnTable(w, c, Next(w, c), begun, reply);
        }
      case Boundary(_) => OtherStepsKeepCalls(w, c);
      case Closing(_, _) =>
        CloseEffect(w, c);
        CloseOnTable(c, Next(w, c));
    }
  }

  lemma CloseOnTable<E>(c: Config<PlannerState, E>, n: Config<PlannerState, E>)
    requires OnTable(c) && IsClosed(c, n)
    ensures OnTable(n)
  {
  }

  lemma {:induction false} RunOnTable<E(!new)>(w: World<PlannerState, E>, c: Config<PlannerState, E>, base: nat)
    requires OnTable(c) && Safety.Conserved(w, c, base) && Safety.Echoes(w) && DecidesByTable(w) && !c.control.Start?
    ensures OnTable(RunToEnd(w, c)) && RunToEnd(w, c).planner == c.planner
    decreases !c.control.Done?, Measure(w, c)
  {
    if !c.control.Done? {
      NextDecreases(w, c);
      NextOnTable(w, c, base);
      Safety.NextConserves(w, c, base);
      RunOnTable(w, Next(w, c), base);
    }
  }

  // ----- the theorem ------------------------------------------------------------------------

  /** The planner's plan is new to it and its own table answers for it. */
  ghost predicate PlansFreshSteps<E>(w: World<PlannerState, E>, planner: PlannerState) {
    var reply := w.createPlan(planner, w.alert).1;
    reply.Planned? && DistinctSteps(reply.steps)
    && forall k :: 0 <= k < |reply.steps| ==> reply.steps[k].status.Pending?
  }

  /** For any executor that stamps its results, any budget and any retry policy: each step's
      successful calls are a prefix of its planned calls, in order and with the same tool and
      arguments; the prefix is the whole plan of every completed step; and every failed call
      is an attempt at the first planned call that has not succeeded yet. */
  lemma RunsRefineThePlan<E(!new)>(w: World<PlannerState, E>, planner: PlannerState, executor: E, incidentId: string,
                                   ticks: nat, nextCall: nat)
    requires DecidesByTable(w) && Safety.Echoes(w) && PlansFreshSteps(w, planner)
    ensures var table := w.createPlan(planner, w.alert).0.planned;
            var run := RunToEnd(w, Initial(w, planner, executor, incidentId, ticks, nextCall)).st;
            && (forall id :: SucceededCalls(run.calls, id) <= Shapes(PlannedFor(table, id)))
            && (forall k :: 0 <= k < |run.steps| && run.steps[k].status.Completed? ==>
                  SucceededCalls(run.calls, run.steps[k].stepId) == Shapes(PlannedFor(table, run.steps[k].stepId)))
            && (forall j :: 0 <= j < |run.calls| && run.calls[j].status.Failed? ==> AttemptsNext(run.calls, j, table))
  {
    var c := Initial(w, planner, executor, incidentId, ticks, nextCall);
    var c1 := Next(w, c);
    RunOnTable(w, c1, nextCall);
    var table := c1.planner.planned;
    var run := RunToEnd(w, c).st;
    assert RunToEnd(w, c) == RunToEnd(w, c1);
    forall id ensures SucceededCalls(run.calls, id) <= Shapes(PlannedFor(table, id)) {
      FollowsGivesPrefix(run.calls, table, id);
    }
    forall k | 0 <= k < |run.steps| && run.steps[k].status.Completed?
      ensures SucceededCalls(run.calls, run.steps[k].stepId) == Shapes(PlannedFor(table, run.steps[k].stepId))
    {
      FollowsGivesPrefix(run.calls, table, run.steps[k].stepId);
    }
  }
}
