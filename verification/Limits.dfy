/** Which limit a stop names (app/runtime/budget.py, app/runtime/runtime.py). */
module Limits {
  import opened Contracts
  import opened Machine
  import opened Effects
  import opened Lifecycle
  import Safety

  predicate IsLimitStop(reason: StopReason) {
    reason.IsCallLimit() || reason.ToolFailureLimit?
  }

  /** How many calls the step worked on last has made. */
  function InCurrentStep(st: RunState): nat {
    if st.currentStep.Some? then CountInStep(st.calls, st.currentStep.value) else 0
  }

  /** The run's call limit comes first, then the step's, then the failure limit; each is met exactly. */
  predicate NamesItsLimit<P, E>(w: World<P, E>, st: RunState, reason: StopReason) {
    && (reason.MaxToolCallsExceeded? <==> |st.calls| == w.budget.maxToolCalls)
    && (reason.MaxToolCallsPerStepExceeded?
        <==> |st.calls| < w.budget.maxToolCalls && InCurrentStep(st) == w.budget.maxToolCallsPerStep)
    && (reason.ToolFailureLimit?
        <==> && |st.calls| < w.budget.maxToolCalls && InCurrentStep(st) < w.budget.maxToolCallsPerStep
             && st.totalFailures == w.budget.maxFailures)
  }

  predicate InStep<P, E>(c: Config<P, E>) {
    c.control.Deciding? || c.control.Calling? || c.control.Closing?
  }

  ghost predicate Limited<P, E>(w: World<P, E>, c: Config<P, E>) {
    && Safety.WithinBudget(w, c)
    && (InStep(c) ==> c.st.currentStep == Some(c.st.steps[c.control.i].stepId))
    && (c.control.Closing? && c.control.outcome.StepStopped? && IsLimitStop(c.control.outcome.reason) ==>
          NamesItsLimit(w, c.st, c.control.outcome.reason))
    && (c.control.Done? && c.st.stopReason.Some? && IsLimitStop(c.st.stopReason.value) ==>
          NamesItsLimit(w, c.st, c.st.stopReason.value))
  }

  /** A blocked attempt is blocked by the limit it names. */
  lemma BlockNames<P, E>(w: World<P, E>, c: Config<P, E>)
    requires Limited(w, c) && c.control.Calling? && Blocked(w, c.st, c.control.i).Some?
    ensures NamesItsLimit(w, c.st, Blocked(w, c.st, c.control.i).value)
  {
    hide CountInStep;
    assert CountInStep(c.st.calls, c.st.steps[c.control.i].stepId) <= w.budget.maxToolCallsPerStep;
  }

  lemma CloseLimited<P, E>(w: World<P, E>, c: Config<P, E>)
    requires Limited(w, c) && c.control.Closing?
    ensures Limited(w, Next(w, c))
  {
    hide CountInStep;
    Safety.NextWithinBudget(w, c);
    hide Safety.WithinBudget;
    CloseKeeps(w, c);
  }

  lemma CloseKeeps<P, E>(w: World<P, E>, c: Config<P, E>)
    requires WellFormed(c) && c.control.Closing?
    ensures var n := Next(w, c);
            && n.st.calls == c.st.calls && n.st.totalFailures == c.st.totalFailures
            && n.st.currentStep == c.st.currentStep
            && (n.control.Boundary? || (n.control.Done? && c.control.outcome.StepStopped?
                                        && n.st.stopReason == Some(c.control.outcome.reason)))
  {
  }

  lemma OutsideLimited<P, E>(w: World<P, E>, c: Config<P, E>)
    requires Limited(w, c) && (c.control.Start? || c.control.Boundary?)
    ensures Limited(w, Next(w, c))
  {
    Safety.NextWithinBudget(w, c);
    hide Safety.WithinBudget, NamesItsLimit;
  }

  lemma DecideLimited<P, E>(w: World<P, E>, c: Config<P, E>)
    requires Limited(w, c) && c.control.Deciding?
    ensures Limited(w, Next(w, c))
  {
    Safety.NextWithinBudget(w, c);
    hide Safety.WithinBudget, NamesItsLimit;
  }

  lemma AttemptLimited<P, E>(w: World<P, E>, c: Config<P, E>, n: Config<P, E>, begun: ToolCall, reply: ExecutorReply)
    requires Limited(w, c) && Safety.WithinBudget(w, n) && IsAttempt(w, c, n, begun, reply)
    ensures Limited(w, n)
  {
    hide Safety.WithinBudget, NamesItsLimit;
  }

  lemma CallingLimited<P, E>(w: World<P, E>, c: Config<P, E>)
    requires Limited(w, c) && c.control.Calling?
    ensures Limited(w, Next(w, c))
  {
    hide BeginAttempt, Attempted, NamesItsLimit;
    Safety.NextWithinBudget(w, c);
    if Blocked(w, c.st, c.control.i).None? {
      var begun, reply := AttemptEffect(w, c);
      hide Next;
      AttemptLimited(w, c, Next(w, c), begun, reply);
    } else {
      BlockNames(w, c);
    }
  }

  lemma NextLimited<P, E>(w: World<P, E>, c: Config<P, E>)
    requires Limited(w, c) && !c.control.Done?
    ensures Limited(w, Next(w, c))
  {
    hide Limited, Next;
    assert WellFormed(c) by { LimitedIsWellFormed(w, c); }
    match c.control {
      case Calling(_, _, _) => CallingLimited(w, c);
      case Closing(_, _) => CloseLimited(w, c);
      case Deciding(_) => DecideLimited(w, c);
      case _ => OutsideLimited(w, c);
    }
  }

  lemma LimitedIsWellFormed<P, E>(w: World<P, E>, c: Config<P, E>)
    requires Limited(w, c)
    ensures WellFormed(c)
  {
  }

  lemma {:induction false} RunLimited<P, E>(w: World<P, E>, c: Config<P, E>)
    requires Limited(w, c) && WellFormed(c)
    ensures Limited(w, RunToEnd(w, c))
    decreases c.control.Start?, !c.control.Done?, Measure(w, c)
  {
    if !c.control.Done? {
      NextDecreases(w, c);
      NextLimited(w, c);
      hide Next, Measure, Limited;
      RunLimited(w, Next(w, c));
    }
  }

  /** A run stopped by a call or failure limit names the limit it met: the run's call limit if it is reached, else
      the step's if the step reached it, else the failure limit, with exactly as many failures. */
  lemma StopsNameTheirLimit<P, E>(w: World<P, E>, planner: P, executor: E, incidentId: string, ticks: nat,
                                  nextCall: nat)
    ensures var run := RunToEnd(w, Initial(w, planner, executor, incidentId, ticks, nextCall)).st;
            run.stopReason.Some? && IsLimitStop(run.stopReason.value) ==> NamesItsLimit(w, run, run.stopReason.value)
  {
    var start := Initial(w, planner, executor, incidentId, ticks, nextCall);
    Safety.InitialWithinBudget(w, planner, executor, incidentId, ticks, nextCall);
    hide Initial, RunToEnd, NamesItsLimit, Safety.WithinBudget;
    assert start.control.Start? by { StartsAtStart(w, planner, executor, incidentId, ticks, nextCall); }
    RunLimited(w, start);
  }

  lemma StartsAtStart<P, E>(w: World<P, E>, planner: P, executor: E, incidentId: string, ticks: nat, nextCall: nat)
    ensures Initial(w, planner, executor, incidentId, ticks, nextCall).control.Start?
  {
  }

  // ----- the step limit -----------------------------------------------------------------------------

  /** Steps are started one after the other, and no more than the budget allows. */
  ghost predicate Counted<P, E>(w: World<P, E>, c: Config<P, E>, planned: seq<Step>) {
    && InOrder(w, c, planned)
    && (c.control.Boundary? ==> c.control.i <= w.budget.maxSteps)
    && (InStep(c) ==> c.control.i < w.budget.maxSteps)
    && (c.control.Done? && c.st.stopReason == Some(MaxStepsExceeded) ==>
          w.budget.maxSteps < |planned| && SplitAt(Monotone(w.clock), c.st.steps, planned, w.budget.maxSteps))
  }

  lemma BoundaryCounted<P, E>(w: World<P, E>, c: Config<P, E>, planned: seq<Step>)
    requires Counted(w, c, planned) && c.control.Boundary?
    ensures Counted(w, Next(w, c), planned)
  {
    NextInOrder(w, c, planned);
    hide InOrder;
    BoundaryMoves(w, c, planned);
    hide SplitAt;
  }

  lemma BoundaryMoves<P, E>(w: World<P, E>, c: Config<P, E>, planned: seq<Step>)
    requires InOrder(w, c, planned) && c.control.Boundary?
    ensures var n := Next(w, c);
            && |c.st.steps| == |planned| && SplitAt(Monotone(w.clock), c.st.steps, planned, c.control.i)
            && (n.control.Deciding? ==> n.control.i == c.control.i < w.budget.maxSteps)
            && (n.control.Deciding? || n.control.Done?)
            && (n.control.Done? ==>
                  && n.st.steps == c.st.steps
                  && (n.st.stopReason == Some(MaxStepsExceeded) ==>
                        c.control.i < |c.st.steps| && c.control.i >= w.budget.maxSteps))
  {
  }

  lemma InsideCounted<P, E>(w: World<P, E>, c: Config<P, E>, planned: seq<Step>)
    requires Counted(w, c, planned) && InStep(c)
    ensures Counted(w, Next(w, c), planned)
  {
    NextInOrder(w, c, planned);
    InsideMoves(w, c, planned);
    hide InOrder, Next, SplitAt;
  }

  lemma InsideMoves<P, E>(w: World<P, E>, c: Config<P, E>, planned: seq<Step>)
    requires InOrder(w, c, planned) && InStep(c)
    ensures var n := Next(w, c);
            && (InStep(n) ==> n.control.i == c.control.i)
            && (n.control.Boundary? ==> n.control.i == c.control.i + 1)
            && (n.control.Done? ==> n.st.stopReason != Some(MaxStepsExceeded))
            && !n.control.Start?
  {
    hide SplitAt, InProgress, CountFailedSteps, BeginAttempt, Attempted;
    if c.control.Calling? && Blocked(w, c.st, c.control.i).None? {
      var begun, reply := AttemptEffect(w, c);
      hide Next;
    }
  }

  lemma {:induction false} RunCounted<P, E>(w: World<P, E>, c: Config<P, E>, planned: seq<Step>)
    requires Counted(w, c, planned)
    ensures Counted(w, RunToEnd(w, c), planned)
    decreases c.control.Start?, !c.control.Done?, Measure(w, c)
  {
    if !c.control.Done? {
      NextDecreases(w, c);
      if c.control.Boundary? { BoundaryCounted(w, c, planned); } else { InsideCounted(w, c, planned); }
      hide Next, Measure, Counted;
      RunCounted(w, Next(w, c), planned);
    }
  }

  /** The step limit stops a run exactly behind the last step it allows: those steps are finished, and the others, of
      which there is at least one, are as planned. */
  lemma StepLimitIsExact<P, E>(w: World<P, E>, planner: P, executor: E, incidentId: string, ticks: nat, nextCall: nat)
    requires RunToEnd(w, Initial(w, planner, executor, incidentId, ticks, nextCall)).st.stopReason
             == Some(MaxStepsExceeded)
    ensures var run := RunToEnd(w, Initial(w, planner, executor, incidentId, ticks, nextCall)).st;
            && w.createPlan(planner, w.alert).1.Planned?
            && var planned := w.createPlan(planner, w.alert).1.steps;
            && w.budget.maxSteps < |planned| && SplitAt(Monotone(w.clock), run.steps, planned, w.budget.maxSteps)
  {
    var start := Initial(w, planner, executor, incidentId, ticks, nextCall);
    StepsFinishInOrder(w, planner, executor, incidentId, ticks, nextCall);
    OneStep(w, start);
    if w.createPlan(planner, w.alert).1.Planned? {
      var planned := w.createPlan(planner, w.alert).1.steps;
      assert Counted(w, Next(w, start), planned);
      hide Next, RunToEnd, Initial, Counted;
      RunCounted(w, Next(w, start), planned);
      CountedAtEnd(w, RunToEnd(w, Next(w, start)), planned);
    }
  }

  lemma CountedAtEnd<P, E>(w: World<P, E>, c: Config<P, E>, planned: seq<Step>)
    requires Counted(w, c, planned) && c.control.Done? && c.st.stopReason == Some(MaxStepsExceeded)
    ensures w.budget.maxSteps < |planned| && SplitAt(Monotone(w.clock), c.st.steps, planned, w.budget.maxSteps)
  {
  }
}
