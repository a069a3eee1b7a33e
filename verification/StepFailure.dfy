/** Exactly when a run whose steps all ended, one of them failed, stops with STEP_FAILED
    (app/runtime/runtime.py). */
module StepFailure {
  import opened Contracts
  import opened Machine
  import opened Lifecycle
  import opened Trajectory

  // ----- the guard of the failing branch ------------------------------------------------

  /** A step that is being closed has a proper outcome: a stopped one never carries STEP_FAILED itself. */
  predicate ClosesProperly<P, E>(c: Config<P, E>) {
    WellFormed(c) && (c.control.Closing? ==> GoodOutcome(c.control.outcome))
  }

  lemma NextClosesProperly<P, E>(w: World<P, E>, c: Config<P, E>)
    requires ClosesProperly(c) && !c.control.Done?
    ensures ClosesProperly(Next(w, c))
  {
    if c.control.Deciding? {
      DecideKeepsSteps(w, c);
    } else if c.control.Calling? {
      AttemptKeepsSteps(w, c);
    }
  }

  lemma {:induction false} ReachableClosesProperly<P, E>(w: World<P, E>, c: Config<P, E>, n: nat)
    requires ClosesProperly(c)
    ensures ClosesProperly(After(w, c, n))
    decreases n
  {
    if n > 0 && !c.control.Done? {
      NextClosesProperly(w, c);
      hide Next;
      ReachableClosesProperly(w, Next(w, c), n - 1);
    }
  }

  /** The run after its last step was closed without being stopped. */
  lemma LastBoundaryDecides<P, E>(w: World<P, E>, c: Config<P, E>)
    requires WellFormed(c) && c.control == Boundary(|c.st.steps|)
    ensures RunToEnd(w, c).st.stopReason
            == Some(if c.failedSteps > 0 then StopReason.StepFailed else StopReason.Completed)
  {
    OneStep(w, c);
    AtEnd(w, Next(w, c));
  }

  lemma CloseLastStep<P, E>(w: World<P, E>, c: Config<P, E>)
    requires WellFormed(c) && c.control.Closing? && c.control.i == |c.st.steps| - 1
    ensures var n := Next(w, c);
            match c.control.outcome
            case StepDone => n.control == Boundary(|n.st.steps|) && n.failedSteps == c.failedSteps
            case StepGaveUp(_) => n.control == Boundary(|n.st.steps|) && n.failedSteps == c.failedSteps + 1
            case StepStopped(reason, _) => n.control.Done? && n.st.stopReason == Some(reason)
  {
  }

  /** At every reachable configuration in which the last step is being closed, the run will stop with
      STEP_FAILED if and only if the step does not stop the run and it, or an earlier step, failed. */
  lemma LastStepDecides<P, E>(w: World<P, E>, planner: P, executor: E, incidentId: string, ticks: nat, nextCall: nat,
                              n: nat)
    requires var c := After(w, Initial(w, planner, executor, incidentId, ticks, nextCall), n);
             c.control.Closing? && c.control.i == |c.st.steps| - 1
    ensures var start := Initial(w, planner, executor, incidentId, ticks, nextCall);
            var c := After(w, start, n);
            RunToEnd(w, start).st.stopReason == Some(StopReason.StepFailed)
            <==> !c.control.outcome.StepStopped? && (c.control.outcome.StepGaveUp? || c.failedSteps > 0)
  {
    var start := Initial(w, planner, executor, incidentId, ticks, nextCall);
    var c := After(w, start, n);
    ReachableClosesProperly(w, start, n);
    AfterReachesEnd(w, start, n);
    OneStep(w, c);
    CloseLastStep(w, c);
    hide Next, RunToEnd, After, Initial;
    if c.control.outcome.StepStopped? {
      AtEnd(w, Next(w, c));
    } else {
      LastBoundaryDecides(w, Next(w, c));
    }
  }

  // ----- the same, read off the trajectory --------------------------------------------------

  /** The events that end a step but not the run: its decision to complete or to fail, or a plain execution
      error that was not retried. */
  predicate EndsOnlyTheStep(kind: EventKind) {
    || kind == DecisionMade(CompleteStep) || kind == DecisionMade(FailStep)
    || (kind.CallFailed? && kind.failure.ExecutionError?)
  }

  /** What a phase says about the event that led to it. */
  predicate Tells(phase: Phase, kind: EventKind) {
    match phase
    case InStep(_) => kind.StepStarted? || kind.CallSucceeded?
    case Requesting(_, _) => kind == DecisionMade(CallTool) || kind.RetryScheduled?
    case Failing(_, _, _, failure) => kind.CallFailed? && kind.failure == failure
    case Ending(_, completed) => kind == DecisionMade(if completed then CompleteStep else FailStep)
    case _ => true
  }

  lemma StepTells(r: Replayed, e: Event)
    ensures Tells(ReplayStep(r, e).phase, e.kind)
  {
    hide Replayed.SetLastCall, Replayed.SetLastStep, Replayed.AddResult;
    match r.phase {
      case Fresh =>
      case Opening =>
      case Idle =>
      case InStep(_) =>
      case Requesting(_, _) =>
      case Creating(_, _, _) =>
      case Executing(_, _, _) =>
      case Failing(_, _, _, _) =>
      case Ending(_, _) =>
      case Stopping =>
      case Ended =>
      case Rejected =>
    }
  }

  lemma PhaseTellsEvent(events: seq<Event>)
    requires events != []
    ensures Tells(Replay(events).phase, events[|events| - 1].kind)
  {
    hide Tells, ReplayStep;
    StepTells(Replay(events[..|events| - 1]), events[|events| - 1]);
  }

  /** A step stops the run exactly when its last event does not end just the step. */
  lemma ClosingTellsEvent<P, E>(c: Config<P, E>)
    requires Faithful(c) && c.control.Closing?
    ensures c.st.events != []
    ensures c.control.outcome.StepStopped? <==> !EndsOnlyTheStep(c.st.events[|c.st.events| - 1].kind)
  {
    if c.st.events != [] {
      PhaseTellsEvent(c.st.events);
    }
  }

  predicate EventFromEnd(events: seq<Event>, back: nat, endsOnlyTheStep: bool) {
    back < |events| && EndsOnlyTheStep(events[|events| - 1 - back].kind) == endsOnlyTheStep
  }

  /** The event in front of the newest step end tells whether that step stopped the run. */
  predicate Told<P, E>(c: Config<P, E>) {
    match c.control
    case Boundary(i) => i > 0 ==> EventFromEnd(c.st.events, 1, true)
    case Done =>
      && c.st.stopReason.Some?
      && (c.st.stopReason.value.StepFailed? && c.st.steps != [] ==> EventFromEnd(c.st.events, 2, true))
      && (StopsTheRun(c.st.stopReason.value) ==> EventFromEnd(c.st.events, 2, false))
    case _ => true
  }

  lemma CloseTold<P, E>(w: World<P, E>, c: Config<P, E>)
    requires Faithful(c) && ClosesProperly(c) && c.control.Closing?
    ensures Told(Next(w, c))
  {
    hide Replay, LogMatches, PhaseMatches;
    ClosingTellsEvent(c);
    var before, after := c.st.events, Next(w, c).st.events;
    assert |after| == |before| + (if c.control.outcome.StepStopped? then 2 else 1)
           && after[|before| - 1] == before[|before| - 1];
  }

  lemma BoundaryTold<P, E>(w: World<P, E>, c: Config<P, E>)
    requires WellFormed(c) && Told(c) && c.control.Boundary?
    ensures Told(Next(w, c))
  {
    var before, n := c.st.events, Next(w, c);
    if n.control.Done? {
      assert |n.st.events| == |before| + 1 && n.st.events[..|before|] == before;
      assert |before| >= 2 ==> n.st.events[|before| - 2] == before[|before| - 2];
    }
  }

  lemma NextTold<P, E>(w: World<P, E>, c: Config<P, E>)
    requires Faithful(c) && ClosesProperly(c) && Told(c) && !c.control.Done? && !c.control.Start?
    ensures Told(Next(w, c))
  {
    hide Replay, LogMatches, PhaseMatches, Told;
    match c.control {
      case Boundary(_) => BoundaryTold(w, c);
      case Closing(_, _) => CloseTold(w, c);
      case Deciding(_) => MiddleTold(w, c);
      case Calling(_, _, _) => MiddleTold(w, c);
    }
  }

  lemma MiddleTold<P, E>(w: World<P, E>, c: Config<P, E>)
    requires WellFormed(c) && (c.control.Deciding? || c.control.Calling?)
    ensures Told(Next(w, c))
  {
    if c.control.Deciding? {
      DecideKeepsSteps(w, c);
    } else {
      AttemptKeepsSteps(w, c);
    }
  }

  lemma {:induction false} RunTold<P, E>(w: World<P, E>, c: Config<P, E>)
    requires Faithful(c) && ClosesProperly(c) && Told(c) && !c.control.Start?
    ensures Told(RunToEnd(w, c))
    decreases !c.control.Done?, Measure(w, c)
  {
    if !c.control.Done? {
      NextDecreases(w, c);
      NextFaithful(w, c);
      NextClosesProperly(w, c);
      NextTold(w, c);
      hide Next, Measure, Faithful, ClosesProperly, Told;
      assert WellFormed(Next(w, c));
      RunTold(w, Next(w, c));
    }
  }

  lemma EndTold<P, E>(w: World<P, E>, planner: P, executor: E, incidentId: string, ticks: nat, nextCall: nat)
    requires w.createPlan(planner, w.alert).1.Planned?
    ensures Told(RunToEnd(w, Initial(w, planner, executor, incidentId, ticks, nextCall)))
    ensures RunToEnd(w, Initial(w, planner, executor, incidentId, ticks, nextCall)).control.Done?
  {
    var start := Initial(w, planner, executor, incidentId, ticks, nextCall);
    assert Next(w, start).control == Boundary(0);
    InitialFaithful(w, planner, executor, incidentId, ticks, nextCall);
    NextFaithful(w, start);
    OneStep(w, start);
    hide Next, RunToEnd, Faithful, Initial;
    RunTold(w, Next(w, start));
  }

  /** A run stops with STEP_FAILED if and only if all its steps ended, one of them failed, and the event in
      front of the last step's end is one that ends only the step: a decision to complete or to fail, or an
      execution error that was not retried. */
  lemma StepFailedMeans<P, E>(w: World<P, E>, planner: P, executor: E, incidentId: string, ticks: nat, nextCall: nat)
    requires PlansUntouched(w, planner)
    ensures var run := RunToEnd(w, Initial(w, planner, executor, incidentId, ticks, nextCall)).st;
            run.stopReason == Some(StopReason.StepFailed)
            <==> && AllTerminal(run.steps) && SomeFailed(run.steps)
                 && |run.events| >= 3 && EndsOnlyTheStep(run.events[|run.events| - 3].kind)
  {
    hide RunToEnd, Initial, EndsOnlyTheStep, SplitAt, CountFailedSteps;
    var start := Initial(w, planner, executor, incidentId, ticks, nextCall);
    StepsFinishInOrder(w, planner, executor, incidentId, ticks, nextCall);
    EndTold(w, planner, executor, incidentId, ticks, nextCall);
    StepsByReason(Monotone(w.clock), RunToEnd(w, start).st, w.createPlan(planner, w.alert).1.steps);
  }
}
