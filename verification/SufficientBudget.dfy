/** When the deterministic planner cannot run out of budget
    (app/agents/deterministic.py, app/runtime/budget.py, app/runtime/retry.py). */
module SufficientBudget {
  import opened Contracts
  import opened Machine
  import opened Effects
  import opened Deterministic
  import opened PlanRefinement
  import opened Multiples
  import Budget
  import Safety

  function PlannedCount(table: map<string, seq<PlannedCall>>, step: Step): nat {
    |PlannedFor(table, step.stepId)|
  }

  /** Calls planned for the first `n` steps. */
  function PlannedUpTo(table: map<string, seq<PlannedCall>>, steps: seq<Step>, n: nat): nat
    requires n <= |steps|
  {
    if n == 0 then 0 else PlannedUpTo(table, steps, n - 1) + PlannedCount(table, steps[n - 1])
  }

  /** The condition on budget, retry policy and plan, checkable before the run. */
  ghost predicate Sufficient(budget: Budget.InvestigationBudget, retry: Budget.RetryPolicy,
                             table: map<string, seq<PlannedCall>>, steps: seq<Step>)
  {
    && |steps| <= budget.maxSteps
    && PlannedUpTo(table, steps, |steps|) + budget.maxFailures <= budget.maxToolCalls
    && forall k :: 0 <= k < |steps| ==> PlannedCount(table, steps[k]) * retry.maxAttempts <= budget.maxToolCallsPerStep
  }

  predicate IsLimit(reason: StopReason) {
    reason.MaxStepsExceeded? || reason.IsCallLimit()
  }

  /** Attempts spent on the current planned call. */
  function Spent<P, E>(c: Config<P, E>): nat {
    if c.control.Calling? then c.control.attempts else 0
  }

  predicate InStep<P, E>(c: Config<P, E>) {
    c.control.Deciding? || c.control.Calling? || c.control.Closing?
  }

  /** How far the spent budget can have come at a control point. */
  ghost predicate Paced<E>(w: World<PlannerState, E>, c: Config<PlannerState, E>, steps: seq<Step>) {
    && WellFormed(c) && |c.st.steps| == |steps|
    && (forall k :: 0 <= k < |steps| ==> c.st.steps[k].stepId == steps[k].stepId)
    && (c.control.Boundary? ==>
          && NetCalls(c.st) <= PlannedUpTo(c.planner.planned, steps, c.control.i)
          && (forall k :: c.control.i <= k < |steps| ==> CountInStep(c.st.calls, steps[k].stepId) == 0))
    && (InStep(c) ==>
          var s := steps[c.control.i].stepId;
          && NetCalls(c.st) <= PlannedUpTo(c.planner.planned, steps, c.control.i) + CountSucceeded(c.st.calls, s)
          && (forall k :: c.control.i < k < |steps| ==> CountInStep(c.st.calls, steps[k].stepId) == 0)
          && (!c.control.Closing? ==>
                CountInStep(c.st.calls, s) <= Times(CountSucceeded(c.st.calls, s), w.retry.maxAttempts) + Spent(c)))
    && (c.control.Closing? && c.control.outcome.StepStopped? ==> !IsLimit(c.control.outcome.reason))
    && (c.control.Done? ==> c.st.stopReason.Some? && !IsLimit(c.st.stopReason.value))
  }

  function NetCalls(st: RunState): int {
    st.totalCalls - st.totalFailures
  }

  lemma SucceededWithinStep(calls: seq<ToolCall>, stepId: string)
    ensures CountSucceeded(calls, stepId) <= CountInStep(calls, stepId)
  {
    if calls != [] { SucceededWithinStep(calls[..|calls| - 1], stepId); }
  }

  lemma {:induction false} PlannedUpToMonotone(table: map<string, seq<PlannedCall>>, steps: seq<Step>, m: nat, n: nat)
    requires m <= n <= |steps|
    ensures PlannedUpTo(table, steps, m) <= PlannedUpTo(table, steps, n)
  {
    if m < n { PlannedUpToMonotone(table, steps, m, n - 1); }
  }

  /** With a sufficient budget the only check that can block an attempt is the failure limit. */
  lemma NeverBlockedByCalls<E>(w: World<PlannerState, E>, c: Config<PlannerState, E>, steps: seq<Step>)
    requires Paced(w, c, steps) && OnTable(c) && Safety.WithinBudget(w, c) && c.control.Calling?
    requires Sufficient(w.budget, w.retry, c.planner.planned, steps)
    ensures Blocked(w, c.st, c.control.i) in {None, Some(ToolFailureLimit)}
  {
    var i := c.control.i;
    var s := steps[i].stepId;
    var planned := PlannedCount(c.planner.planned, steps[i]);
    var done := CountSucceeded(c.st.calls, s);
    PlannedUpToMonotone(c.planner.planned, steps, i + 1, |steps|);
    assert done < planned;
    assert c.st.totalCalls < w.budget.maxToolCalls;
    TimesIsProduct(planned, w.retry.maxAttempts);
    TimesStrict(done, planned, w.retry.maxAttempts);
    assert CountInStep(c.st.calls, s) < w.budget.maxToolCallsPerStep;
  }

  /** `n` follows `c` by one attempt at the current planned call. */
  ghost predicate AttemptCounted<E>(c: Config<PlannerState, E>, n: Config<PlannerState, E>) {
    && WellFormed(c) && c.control.Calling? && WellFormed(n)
    && var s := c.st.steps[c.control.i].stepId;
    && var won := n.control.Deciding?;
    && (forall id :: id != s ==> CountInStep(n.st.calls, id) == CountInStep(c.st.calls, id))
    && CountInStep(n.st.calls, s) == CountInStep(c.st.calls, s) + 1
    && CountSucceeded(n.st.calls, s) == CountSucceeded(c.st.calls, s) + (if won then 1 else 0)
    && NetCalls(n.st) == NetCalls(c.st) + (if won then 1 else 0)
    && ((won && n.control.i == c.control.i)
        || n.control == Calling(c.control.i, c.control.request, c.control.attempts + 1)
        || (n.control.Closing? && n.control.i == c.control.i && !n.control.outcome.StepDone?
            && (n.control.outcome.StepStopped? ==> n.control.outcome.reason.UnrecoverableToolError?)))
    && n.st.steps == c.st.steps && n.planner == c.planner
  }

  lemma AttemptCounts<E>(w: World<PlannerState, E>, c: Config<PlannerState, E>, n: Config<PlannerState, E>,
                         begun: ToolCall, reply: ExecutorReply)
    requires IsAttempt(w, c, n, begun, reply)
    ensures AttemptCounted(c, n)
  {
    var s := c.st.steps[c.control.i].stepId;
    forall id ensures id != s ==> CountInStep(n.st.calls, id) == CountInStep(c.st.calls, id) {
      Safety.CountsAppend(c.st.calls, n.st.calls, id);
    }
    Safety.CountsAppend(c.st.calls, n.st.calls, s);
    CountSucceededAppend(c.st.calls, n.st.calls, s);
  }

  lemma AttemptPaced<E>(w: World<PlannerState, E>, c: Config<PlannerState, E>, n: Config<PlannerState, E>,
                        steps: seq<Step>)
    requires Paced(w, c, steps) && DistinctSteps(steps) && AttemptCounted(c, n)
    requires c.control.attempts < w.retry.maxAttempts
    ensures Paced(w, n, steps)
  {
    var s := steps[c.control.i].stepId;
    assert Times(CountSucceeded(c.st.calls, s) + 1, w.retry.maxAttempts)
        == Times(CountSucceeded(c.st.calls, s), w.retry.maxAttempts) + w.retry.maxAttempts;
  }

  lemma BoundaryPaced<E>(w: World<PlannerState, E>, c: Config<PlannerState, E>, steps: seq<Step>)
    requires Paced(w, c, steps) && c.control.Boundary?
    requires |steps| <= w.budget.maxSteps
    ensures Paced(w, Next(w, c), steps)
  {
    OtherStepsKeepCalls(w, c);
    var i := c.control.i;
    if i < |steps| {
      SucceededWithinStep(c.st.calls, steps[i].stepId);
    }
  }

  lemma DecidePaced<E(!new)>(w: World<PlannerState, E>, c: Config<PlannerState, E>, steps: seq<Step>)
    requires Paced(w, c, steps) && c.control.Deciding? && DecidesByTable(w)
    ensures Paced(w, Next(w, c), steps)
  {
    var x := Context(w, c.st, c.control.i);
    assert w.decide(c.planner, x) == (c.planner, Decided(Decide(c.planner, x)));
    OtherStepsKeepCalls(w, c);
  }

  /** A closed step leaves the calls alone and the ids of all steps as they are. */
  lemma ClosedKeeps<P, E>(c: Config<P, E>, n: Config<P, E>, id: string)
    requires IsClosed(c, n)
    ensures CountInStep(n.st.calls, id) == CountInStep(c.st.calls, id) && NetCalls(n.st) == NetCalls(c.st)
    ensures |n.st.steps| == |c.st.steps|
    ensures forall k :: 0 <= k < |c.st.steps| ==> n.st.steps[k].stepId == c.st.steps[k].stepId
    ensures n.planner == c.planner && WellFormed(n)
    ensures n.control == if c.control.outcome.StepStopped? then Done else Boundary(c.control.i + 1)
    ensures c.control.outcome.StepStopped? ==> n.st.stopReason == Some(c.control.outcome.reason)
  {
  }

  ghost predicate SameIds(a: seq<Step>, b: seq<Step>) {
    |a| == |b| && forall k :: 0 <= k < |a| ==> a[k].stepId == b[k].stepId
  }

  ghost predicate UnusedFrom(calls: seq<ToolCall>, steps: seq<Step>, i: nat) {
    forall k :: i <= k < |steps| ==> CountInStep(calls, steps[k].stepId) == 0
  }

  lemma PacedWhileClosing<E>(w: World<PlannerState, E>, c: Config<PlannerState, E>, steps: seq<Step>)
    requires Paced(w, c, steps) && c.control.Closing?
    ensures SameIds(c.st.steps, steps) && c.control.i < |steps| && UnusedFrom(c.st.calls, steps, c.control.i + 1)
    ensures NetCalls(c.st) <= PlannedUpTo(c.planner.planned, steps, c.control.i)
                              + CountSucceeded(c.st.calls, steps[c.control.i].stepId)
    ensures c.control.outcome.StepStopped? ==> !IsLimit(c.control.outcome.reason)
  {
  }

  lemma PacedAfterClosing<E>(w: World<PlannerState, E>, n: Config<PlannerState, E>, steps: seq<Step>)
    requires WellFormed(n) && SameIds(n.st.steps, steps)
    requires n.control.Boundary? || (n.control.Done? && n.st.stopReason.Some? && !IsLimit(n.st.stopReason.value))
    requires n.control.Boundary? ==> n.control.i <= |steps| && UnusedFrom(n.st.calls, steps, n.control.i)
                                     && NetCalls(n.st) <= PlannedUpTo(n.planner.planned, steps, n.control.i)
    ensures Paced(w, n, steps)
  {
  }

  lemma ClosePaced<E>(w: World<PlannerState, E>, c: Config<PlannerState, E>, n: Config<PlannerState, E>,
                      steps: seq<Step>)
    requires Paced(w, c, steps) && OnTable(c) && IsClosed(c, n)
    ensures Paced(w, n, steps)
  {
    var i, table := c.control.i, c.planner.planned;
    PacedWhileClosing(w, c, steps);
    FollowsGivesPrefix(c.st.calls, table, steps[i].stepId);
    assert PlannedUpTo(table, steps, i + 1) == PlannedUpTo(table, steps, i) + PlannedCount(table, steps[i]);
    hide Paced, IsClosed, CountSucceeded, CountInStep, Times, PlannedUpTo, OnTable, NetCalls;
    forall id ensures CountInStep(n.st.calls, id) == CountInStep(c.st.calls, id) && NetCalls(n.st) == NetCalls(c.st) {
      ClosedKeeps(c, n, id);
    }
    ClosedKeeps(c, n, "");
    PacedAfterClosing(w, n, steps);
  }

  lemma CallingPaced<E>(w: World<PlannerState, E>, c: Config<PlannerState, E>, steps: seq<Step>)
    requires Paced(w, c, steps) && OnTable(c) && DistinctSteps(steps) && Safety.WithinBudget(w, c) && c.control.Calling?
    requires Sufficient(w.budget, w.retry, c.planner.planned, steps)
    ensures Paced(w, Next(w, c), steps)
  {
    hide BeginAttempt, Attempted, Sufficient, OnTable;
    if Blocked(w, c.st, c.control.i).None? {
      var begun, reply := AttemptEffect(w, c);
      hide Next;
      AttemptCounts(w, c, Next(w, c), begun, reply);
      AttemptPaced(w, c, Next(w, c), steps);
    } else {
      NeverBlockedByCalls(w, c, steps);
    }
  }

  lemma NextPaced<E(!new)>(w: World<PlannerState, E>, c: Config<PlannerState, E>, steps: seq<Step>)
    requires Paced(w, c, steps) && OnTable(c) && DistinctSteps(steps) && Safety.WithinBudget(w, c)
    requires Sufficient(w.budget, w.retry, c.planner.planned, steps)
    requires DecidesByTable(w) && !c.control.Done? && !c.control.Start?
    ensures Paced(w, Next(w, c), steps)
  {
    match c.control {
      case Boundary(i) => BoundaryPaced(w, c, steps);
      case Deciding(i) => DecidePaced(w, c, steps);
      case Calling(_, _, _) => CallingPaced(w, c, steps);
      case Closing(i, _) =>
        CloseEffect(w, c);
        ClosePaced(w, c, Next(w, c), steps);
    }
  }

  lemma {:induction false} RunPaced<E(!new)>(w: World<PlannerState, E>, c: Config<PlannerState, E>, base: nat,
                                             steps: seq<Step>)
    requires Paced(w, c, steps) && OnTable(c) && Safety.WithinBudget(w, c) && Safety.Conserved(w, c, base)
    requires Safety.Echoes(w) && DecidesByTable(w) && DistinctSteps(steps) && !c.control.Start?
    requires Sufficient(w.budget, w.retry, c.planner.planned, steps)
    ensures Paced(w, RunToEnd(w, c), steps)
    decreases !c.control.Done?, Measure(w, c)
  {
    if !c.control.Done? {
      NextDecreases(w, c);
      NextPaced(w, c, steps);
      NextOnTable(w, c, base);
      Safety.NextWithinBudget(w, c);
      Safety.NextConserves(w, c, base);
      RunPaced(w, Next(w, c), base, steps);
    }
  }

  /** A run of the deterministic planner with a sufficient budget never ends with a MAX_* reason. */
  lemma SufficientBudgetSuffices<E(!new)>(w: World<PlannerState, E>, planner: PlannerState, executor: E,
                                          incidentId: string, ticks: nat, nextCall: nat)
    requires DecidesByTable(w) && Safety.Echoes(w) && PlansFreshSteps(w, planner)
    requires Sufficient(w.budget, w.retry, w.createPlan(planner, w.alert).0.planned,
                        w.createPlan(planner, w.alert).1.steps)
    ensures var run := RunToEnd(w, Initial(w, planner, executor, incidentId, ticks, nextCall)).st;
            run.stopReason.Some? && !IsLimit(run.stopReason.value)
  {
    var c := Initial(w, planner, executor, incidentId, ticks, nextCall);
    var c1 := Next(w, c);
    Safety.InitialWithinBudget(w, planner, executor, incidentId, ticks, nextCall);
    Safety.NextWithinBudget(w, c);
    RunPaced(w, c1, nextCall, w.createPlan(planner, w.alert).1.steps);
    assert RunToEnd(w, c) == RunToEnd(w, c1);
  }

  // ----- the shipped configuration -------------------------------------------------------------

  /** A runtime that uses the deterministic planner. */
  ghost predicate UsesDeterministicPlanner<E>(w: World<PlannerState, E>, settings: Settings) {
    && DecidesByTable(w)
    && forall p: PlannerState, a: Alert ::
         w.createPlan(p, a) == (PlanFor(settings, p, a).0, Planned(PlanFor(settings, p, a).1))
  }

  lemma DeterministicPlanIsFresh<E>(w: World<PlannerState, E>, settings: Settings, planner: PlannerState)
    requires UsesDeterministicPlanner(w, settings)
    ensures PlansFreshSteps(w, planner)
  {
    var steps := PlanFor(settings, planner, w.alert).1;
    forall j, k | 0 <= j < k < |steps| ensures steps[j].stepId != steps[k].stepId {
      CreatePlanRegisters(settings, planner, w.alert, j);
    }
  }

  /** The fixed template plans at most two calls per step and nine in all. */
  lemma TemplateFitsDefaults(settings: Settings, planner: PlannerState, alert: Alert)
    ensures var (after, steps) := PlanFor(settings, planner, alert);
            && PlannedUpTo(after.planned, steps, 5) <= 9
            && Sufficient(Budget.DEFAULT_BUDGET, Budget.DEFAULT_RETRY, after.planned, steps)
  {
    var (after, steps) := PlanFor(settings, planner, alert);
    forall k | 0 <= k < 5 ensures PlannedCount(after.planned, steps[k]) <= (if k == 1 then 1 else 2) {
      CreatePlanRegisters(settings, planner, alert, k);
      TemplateSizes(settings, alert, k);
    }
    CreatePlanRegisters(settings, planner, alert, 0);
    hide PlanFor;
    FivePlanned(after.planned, steps);
  }

  lemma TemplateSizes(settings: Settings, alert: Alert, k: nat)
    requires k < 5
    ensures |StepTemplates(settings, alert)[k].calls| <= (if k == 1 then 1 else 2)
  {
  }

  lemma FivePlanned(table: map<string, seq<PlannedCall>>, steps: seq<Step>)
    requires |steps| == 5
    requires forall k :: 0 <= k < 5 ==> PlannedCount(table, steps[k]) <= if k == 1 then 1 else 2
    ensures PlannedUpTo(table, steps, 5) <= 9
  {
    hide PlannedCount;
    assert PlannedUpTo(table, steps, 0) == 0;
    assert PlannedUpTo(table, steps, 1) == PlannedCount(table, steps[0]);
    assert PlannedUpTo(table, steps, 2) <= 3;
    assert PlannedUpTo(table, steps, 3) <= 5;
    assert PlannedUpTo(table, steps, 4) <= 7;
  }

  /** With the default budget and retry policy, any alert, any executor that stamps its
      results and any earlier use of the planner, the run never hits a step or call limit. */
  lemma DefaultBudgetIsSufficient<E(!new)>(w: World<PlannerState, E>, settings: Settings, planner: PlannerState,
                                           executor: E, incidentId: string, ticks: nat, nextCall: nat)
    requires UsesDeterministicPlanner(w, settings) && Safety.Echoes(w)
    requires w.budget == Budget.DEFAULT_BUDGET && w.retry == Budget.DEFAULT_RETRY
    ensures var run := RunToEnd(w, Initial(w, planner, executor, incidentId, ticks, nextCall)).st;
            run.stopReason.Some? && !IsLimit(run.stopReason.value)
  {
    DeterministicPlanIsFresh(w, settings, planner);
    TemplateFitsDefaults(settings, planner, w.alert);
    SufficientBudgetSuffices(w, planner, executor, incidentId, ticks, nextCall);
  }
}
