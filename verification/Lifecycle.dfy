/** Step lifecycle and terminal outcome of every run (app/runtime/runtime.py,
    app/schemas/investigation.py). */
module Lifecycle {
  import opened Contracts
  import opened Machine
  import opened Effects
  import Ids

  ghost predicate Monotone(clock: nat -> int) {
    forall s: nat, t: nat :: s <= t ==> clock(s) <= clock(t)
  }

  predicate Terminal(step: Step) {
    step.status.Completed? || step.status.Failed?
  }

  /** The fields the runtime never writes. */
  predicate SameIdentity(a: Step, b: Step) {
    a.stepId == b.stepId && a.order == b.order && a.action == b.action && a.suggestedTool == b.suggestedTool
  }

  /** Steps as a planner hands them out: nothing has happened to them yet. */
  predicate Untouched(step: Step) {
    step.status.Pending? && step.startedAt.None? && step.completedAt.None? && step.error.None?
  }

  function StatusFor(reason: StopReason): RuntimeStatus {
    if reason.Completed? then RuntimeStatus.Completed
    else if reason.IsBudgetReason() then RuntimeStatus.BudgetExhausted
    else RuntimeStatus.Failed
  }

  function KindFor(reason: StopReason): EventKind {
    if reason.Completed? then RunCompleted
    else if reason.IsBudgetReason() then RunExhausted
    else RunFailed
  }

  /** Status, stop reason and last event tell the same story. */
  predicate TerminalAgrees(st: RunState) {
    && st.stopReason.Some?
    && st.status == StatusFor(st.stopReason.value)
    && st.completedAt.Some?
    && st.events != [] && st.events[|st.events| - 1].kind == KindFor(st.stopReason.value)
  }

  /** The steps of a run split at `n`: finished before, validly if time never went back, and exactly as
      planned from there on. */
  ghost predicate SplitAt(timed: bool, steps: seq<Step>, planned: seq<Step>, n: nat) {
    && |steps| == |planned| && n <= |planned|
    && (forall k :: 0 <= k < |planned| ==> SameIdentity(steps[k], planned[k]))
    && (forall k :: 0 <= k < n ==> Terminal(steps[k]) && (timed ==> steps[k].ValidLifecycle()))
    && (forall k :: n <= k < |planned| ==> steps[k] == planned[k])
  }

  function CountFailedSteps(steps: seq<Step>, n: nat): nat
    requires n <= |steps|
  {
    if n == 0 then 0 else CountFailedSteps(steps, n - 1) + if steps[n - 1].status.Failed? then 1 else 0
  }

  /** The running step: started at the current time at the latest. */
  ghost predicate InProgress(clock: nat -> int, st: RunState, step: Step) {
    && step.status.Running? && step.startedAt.Some?
    && (Monotone(clock) ==> step.startedAt.value <= clock(st.ticks))
    && st.currentStep == Some(step.stepId)
  }

  predicate GoodOutcome(outcome: StepOutcome) {
    match outcome
    case StepDone => true
    case StepGaveUp(error) => NonBlank(error)
    case StepStopped(reason, error) =>
      NonBlank(error) && !reason.Completed? && !reason.StepFailed? && !reason.MaxStepsExceeded?
  }

  /** Why a finished run ended, in terms of its steps. */
  ghost predicate EndsWell(timed: bool, st: RunState, planned: seq<Step>) {
    && TerminalAgrees(st)
    && (match st.stopReason.value
        case Completed => SplitAt(timed, st.steps, planned, |planned|) && CountFailedSteps(st.steps, |st.steps|) == 0
        case StepFailed => SplitAt(timed, st.steps, planned, |planned|) && CountFailedSteps(st.steps, |st.steps|) > 0
        case MaxStepsExceeded => exists n :: 0 <= n < |planned| && SplitAt(timed, st.steps, planned, n)
        case _ => exists n :: 0 < n <= |planned| && SplitAt(timed, st.steps, planned, n)
                              && st.steps[n - 1].status.Failed?)
  }

  ghost predicate InOrder<P, E>(w: World<P, E>, c: Config<P, E>, planned: seq<Step>) {
    && WellFormed(c) && c.st.hasPlan
    && (match c.control
        case Start => false
        case Boundary(i) =>
          SplitAt(Monotone(w.clock), c.st.steps, planned, i) && c.failedSteps == CountFailedSteps(c.st.steps, i)
        case Deciding(i) => Halfway(w, c, planned, i)
        case Calling(i, _, _) => Halfway(w, c, planned, i)
        case Closing(i, outcome) => Halfway(w, c, planned, i) && GoodOutcome(outcome)
        case Done => EndsWell(Monotone(w.clock), c.st, planned))
  }

  /** Step `i` is the only one running. */
  ghost predicate Halfway<P, E>(w: World<P, E>, c: Config<P, E>, planned: seq<Step>, i: nat) {
    && i < |c.st.steps| == |planned|
    && SplitAt(Monotone(w.clock), c.st.steps[i := planned[i]], planned, i)
    && SameIdentity(c.st.steps[i], planned[i])
    && InProgress(w.clock, c.st, c.st.steps[i])
    && c.failedSteps == CountFailedSteps(c.st.steps, i)
  }

  lemma {:induction false} CountFailedLocal(a: seq<Step>, b: seq<Step>, n: nat)
    requires n <= |a| && n <= |b|
    requires forall k :: 0 <= k < n ==> a[k] == b[k]
    ensures CountFailedSteps(a, n) == CountFailedSteps(b, n)
  {
    if n > 0 { CountFailedLocal(a, b, n - 1); }
  }

  lemma {:induction false} CountFailedZero(steps: seq<Step>, n: nat)
    requires n <= |steps|
    ensures CountFailedSteps(steps, n) == 0 <==> forall k :: 0 <= k < n ==> !steps[k].status.Failed?
  {
    if n > 0 { CountFailedZero(steps, n - 1); }
  }

  lemma StartStepInOrder<P, E>(w: World<P, E>, c: Config<P, E>, planned: seq<Step>)
    requires InOrder(w, c, planned) && c.control.Boundary?
    requires c.control.i < |c.st.steps|
    requires w.budget.StopReasonForStepStart(c.control.i).None?
    ensures InOrder(w, Next(w, c), planned)
  {
    var n := Next(w, c);
    var i := c.control.i;
    assert n.st.steps[i := planned[i]] == c.st.steps;
    CountFailedLocal(n.st.steps, c.st.steps, i);
  }

  lemma BoundaryInOrder<P, E>(w: World<P, E>, c: Config<P, E>, planned: seq<Step>)
    requires InOrder(w, c, planned) && c.control.Boundary?
    ensures InOrder(w, Next(w, c), planned)
  {
    var i := c.control.i;
    if i < |c.st.steps| && w.budget.StopReasonForStepStart(i).None? {
      StartStepInOrder(w, c, planned);
    }
  }

  lemma FinishStepInOrder<P, E>(w: World<P, E>, c: Config<P, E>, planned: seq<Step>, status: StepStatus,
                                error: Option<string>)
    requires InOrder(w, c, planned) && c.control.Closing?
    requires status.Completed? || (status.Failed? && error.Some? && NonBlank(error.value))
    ensures var st := FinishStep(w.clock, c.st, c.control.i, status, error);
            && SplitAt(Monotone(w.clock), st.steps, planned, c.control.i + 1)
            && st.steps[c.control.i].status == status
            && CountFailedSteps(st.steps, c.control.i + 1) == c.failedSteps + if status.Failed? then 1 else 0
  {
    var i := c.control.i;
    var st := FinishStep(w.clock, c.st, i, status, error);
    CountFailedLocal(st.steps, c.st.steps, i);
    forall k | 0 <= k < |planned| && k != i ensures st.steps[k] == c.st.steps[i := planned[i]][k] {
    }
  }

  lemma StopInOrder<P, E>(w: World<P, E>, c: Config<P, E>, planned: seq<Step>)
    requires InOrder(w, c, planned) && c.control.Closing? && c.control.outcome.StepStopped?
    ensures InOrder(w, Next(w, c), planned)
  {
    var StepStopped(reason, error) := c.control.outcome;
    FinishStepInOrder(w, c, planned, StepStatus.Failed, Some(error));
    var st := FinishStep(w.clock, c.st, c.control.i, StepStatus.Failed, Some(error));
    var n := Next(w, c);
    assert n.st.steps == st.steps && TerminalAgrees(n.st) && n.st.stopReason == Some(reason);
    assert 0 < c.control.i + 1 <= |planned| && SplitAt(Monotone(w.clock), n.st.steps, planned, c.control.i + 1);
  }

  lemma CloseInOrder<P, E>(w: World<P, E>, c: Config<P, E>, planned: seq<Step>)
    requires InOrder(w, c, planned) && c.control.Closing?
    ensures InOrder(w, Next(w, c), planned)
  {
    match c.control.outcome {
      case StepDone => FinishStepInOrder(w, c, planned, StepStatus.Completed, None);
      case StepGaveUp(error) => FinishStepInOrder(w, c, planned, StepStatus.Failed, Some(error));
      case StepStopped(_, _) => StopInOrder(w, c, planned);
    }
  }

  lemma ErrorsNonBlank(toolName: string, attempts: nat, reason: StopReason)
    ensures NonBlank(FailureText(toolName, attempts)) && NonBlank(reason.Name())
    ensures NonBlank(PLANNER_RAISED_ERROR) && NonBlank(EXECUTOR_RAISED_ERROR) && NonBlank(UNRECOVERABLE_ERROR)
  {
    var text := FailureText(toolName, attempts);
    assert text[|toolName| + 1] == 'f' && !IsSpace('f');
    assert reason.Name()[0] != ' ' && !IsSpace(reason.Name()[0]);
    assert !IsSpace(PLANNER_RAISED_ERROR[0]) && !IsSpace(EXECUTOR_RAISED_ERROR[0]) && !IsSpace(UNRECOVERABLE_ERROR[0]);
  }

  lemma FailureOutcomeGood(retry: Budget.RetryPolicy, i: nat, request: PlannerDecision, attempts: nat,
                           result: ToolResult)
    ensures var control := AfterFailure(retry, i, request, attempts, result);
            (control.Calling? || control.Closing?) && control.i == i
            && (control.Closing? ==> GoodOutcome(control.outcome))
  {
    ErrorsNonBlank(result.toolName, attempts + 1, PlannerFailed);
  }

  /** Between two boundaries the steps are not written; only the clock moves on. */
  ghost predicate OnlyTimePasses<P, E>(c: Config<P, E>, n: Config<P, E>) {
    && n.st.steps == c.st.steps && n.st.hasPlan == c.st.hasPlan && n.failedSteps == c.failedSteps
    && n.st.currentStep == c.st.currentStep
    && n.st.ticks >= c.st.ticks
  }

  lemma DecideKeepsSteps<P, E>(w: World<P, E>, c: Config<P, E>)
    requires WellFormed(c) && c.control.Deciding?
    ensures var n := Next(w, c);
            && OnlyTimePasses(c, n)
            && (n.control.Calling? || n.control.Closing?) && n.control.i == c.control.i
            && (n.control.Closing? ==> GoodOutcome(n.control.outcome))
  {
    ErrorsNonBlank("", 0, PlannerFailed);
    var reply := w.decide(c.planner, Context(w, c.st, c.control.i)).1;
    if reply.Decided? {
      var rationale: NonEmptyStr := reply.decision.rationale;
      assert NonBlank(rationale);
    }
  }

  lemma AttemptKeepsSteps<P, E>(w: World<P, E>, c: Config<P, E>)
    requires WellFormed(c) && c.control.Calling?
    ensures var n := Next(w, c);
            && OnlyTimePasses(c, n)
            && (n.control.Deciding? || n.control.Calling? || n.control.Closing?) && n.control.i == c.control.i
            && (n.control.Closing? ==> GoodOutcome(n.control.outcome))
  {
    var stop := Blocked(w, c.st, c.control.i);
    if stop.Some? {
      ErrorsNonBlank("", 0, stop.value);
    } else {
      ErrorsNonBlank("", 0, PlannerFailed);
      var _, reply := AttemptEffect(w, c);
      if reply.Returned? {
        FailureOutcomeGood(w.retry, c.control.i, c.control.request, c.control.attempts, reply.result);
      }
    }
  }

  lemma HalfwayInOrder<P, E>(w: World<P, E>, c: Config<P, E>, planned: seq<Step>)
    requires InOrder(w, c, planned)
    requires c.control.Deciding? || c.control.Calling?
    ensures InOrder(w, Next(w, c), planned)
  {
    hide Next;
    if c.control.Deciding? { DecideKeepsSteps(w, c); } else { AttemptKeepsSteps(w, c); }
    StillHalfway(w, c, Next(w, c), planned);
  }

  lemma StillHalfway<P, E>(w: World<P, E>, c: Config<P, E>, n: Config<P, E>, planned: seq<Step>)
    requires InOrder(w, c, planned) && (c.control.Deciding? || c.control.Calling?)
    requires WellFormed(n) && OnlyTimePasses(c, n)
    requires (n.control.Deciding? || n.control.Calling? || n.control.Closing?) && n.control.i == c.control.i
    requires n.control.Closing? ==> GoodOutcome(n.control.outcome)
    ensures InOrder(w, n, planned)
  {
    hide SplitAt, CountFailedSteps, GoodOutcome;
    assert Monotone(w.clock) ==> w.clock(c.st.ticks) <= w.clock(n.st.ticks);
  }

  /** Every transition keeps the block structure of the plan. */
  lemma NextInOrder<P, E>(w: World<P, E>, c: Config<P, E>, planned: seq<Step>)
    requires InOrder(w, c, planned) && !c.control.Done?
    ensures InOrder(w, Next(w, c), planned)
  {
    match c.control {
      case Boundary(_) => BoundaryInOrder(w, c, planned);
      case Closing(_, _) => CloseInOrder(w, c, planned);
      case _ => HalfwayInOrder(w, c, planned);
    }
  }

  lemma {:induction false} RunInOrder<P, E>(w: World<P, E>, c: Config<P, E>, planned: seq<Step>)
    requires InOrder(w, c, planned)
    ensures InOrder(w, RunToEnd(w, c), planned)
    decreases c.control.Start?, !c.control.Done?, Measure(w, c)
  {
    if !c.control.Done? {
      NextDecreases(w, c);
      NextInOrder(w, c, planned);
      RunInOrder(w, Next(w, c), planned);
    }
  }

  /** Every finished run is a block of finished steps followed by steps that are exactly as the planner made
      them, and the stop reason says which block. The finished steps satisfy the lifecycle contract if the
      clock never goes back. */
  lemma StepsFinishInOrder<P, E>(w: World<P, E>, planner: P, executor: E, incidentId: string, ticks: nat, nextCall: nat)
    ensures var run := RunToEnd(w, Initial(w, planner, executor, incidentId, ticks, nextCall)).st;
            match w.createPlan(planner, w.alert).1
            case PlanRaised => !run.hasPlan && run.stopReason == Some(PlannerFailed) && TerminalAgrees(run)
              && run.calls == []
            case Planned(planned) => run.hasPlan && EndsWell(Monotone(w.clock), run, planned)
  {
    var c := Initial(w, planner, executor, incidentId, ticks, nextCall);
    if w.createPlan(planner, w.alert).1.Planned? {
      RunInOrder(w, Next(w, c), w.createPlan(planner, w.alert).1.steps);
    }
  }

  /** The planner returns a plan whose steps nothing has happened to yet. */
  ghost predicate PlansUntouched<P, E>(w: World<P, E>, planner: P) {
    && w.createPlan(planner, w.alert).1.Planned?
    && forall step :: step in w.createPlan(planner, w.alert).1.steps ==> Untouched(step)
  }

  predicate AllTerminal(steps: seq<Step>) {
    forall k :: 0 <= k < |steps| ==> Terminal(steps[k])
  }

  predicate SomeFailed(steps: seq<Step>) {
    exists k :: 0 <= k < |steps| && steps[k].status.Failed?
  }

  predicate StopsTheRun(reason: StopReason) {
    reason in {PlannerFailed, UnrecoverableToolError, ToolFailureLimit, MaxToolCallsExceeded,
               MaxToolCallsPerStepExceeded}
  }

  lemma TailNotTerminal(timed: bool, steps: seq<Step>, planned: seq<Step>, n: nat)
    requires SplitAt(timed, steps, planned, n) && n < |planned|
    requires forall step :: step in planned ==> Untouched(step)
    ensures !Terminal(steps[n])
  {
    assert steps[n] == planned[n] && planned[n] in planned;
  }

  /** Which steps each group of stop reasons leaves behind. */
  lemma StepsByReason(timed: bool, run: RunState, planned: seq<Step>)
    requires EndsWell(timed, run, planned) && forall step :: step in planned ==> Untouched(step)
    ensures run.stopReason.value.Completed? ==> forall k :: 0 <= k < |run.steps| ==> run.steps[k].status.Completed?
    ensures run.stopReason.value.StepFailed? ==> AllTerminal(run.steps) && SomeFailed(run.steps)
    ensures run.stopReason.value.MaxStepsExceeded? ==> !AllTerminal(run.steps)
    ensures StopsTheRun(run.stopReason.value) ==> SomeFailed(run.steps)
  {
    CountFailedZero(run.steps, |run.steps|);
    var reason := run.stopReason.value;
    if reason.MaxStepsExceeded? {
      var n :| 0 <= n < |planned| && SplitAt(timed, run.steps, planned, n);
      TailNotTerminal(timed, run.steps, planned, n);
    } else if StopsTheRun(reason) {
      var n :| 0 < n <= |planned| && SplitAt(timed, run.steps, planned, n) && run.steps[n - 1].status.Failed?;
    }
  }

  lemma AllStepsCompleted<P, E>(w: World<P, E>, planner: P, executor: E, incidentId: string, ticks: nat, nextCall: nat)
    requires RunToEnd(w, Initial(w, planner, executor, incidentId, ticks, nextCall)).st.stopReason
             == Some(StopReason.Completed)
    ensures var run := RunToEnd(w, Initial(w, planner, executor, incidentId, ticks, nextCall)).st;
            && run.hasPlan && run.status == RuntimeStatus.Completed
            && forall k :: 0 <= k < |run.steps| ==> run.steps[k].status.Completed?
  {
    hide RunToEnd, Initial;
    StepsFinishInOrder(w, planner, executor, incidentId, ticks, nextCall);
    var st := RunToEnd(w, Initial(w, planner, executor, incidentId, ticks, nextCall)).st;
    CountFailedZero(st.steps, |st.steps|);
  }

  /** A run is COMPLETED exactly when every step of its plan completed. */
  lemma CompletedIffAllStepsCompleted<P, E>(w: World<P, E>, planner: P, executor: E, incidentId: string, ticks: nat,
                                            nextCall: nat)
    requires PlansUntouched(w, planner)
    ensures var run := RunToEnd(w, Initial(w, planner, executor, incidentId, ticks, nextCall)).st;
            run.stopReason == Some(StopReason.Completed)
            <==> forall k :: 0 <= k < |run.steps| ==> run.steps[k].status.Completed?
  {
    StepsFinishInOrder(w, planner, executor, incidentId, ticks, nextCall);
    var run := RunToEnd(w, Initial(w, planner, executor, incidentId, ticks, nextCall)).st;
    StepsByReason(Monotone(w.clock), run, w.createPlan(planner, w.alert).1.steps);
  }

  // ----- a run whose steps are all terminal, one failed, and that is not STEP_FAILED ----

  const SAMPLE_ALERT := Alert("ALT-1", "e", None, None, None, None, None, None)
  const SAMPLE_STEP := Step("STEP-000001", 1, "a", None, StepStatus.Pending, None, None, None)

  /** A planner that plans one step and raises when asked for a decision. */
  function RaisingWorld(): World<(), ()> {
    World(SAMPLE_ALERT, Budget.DEFAULT_BUDGET, Budget.DEFAULT_RETRY, (t: nat) => 0,
          (p: (), a: Alert) => ((), Planned([SAMPLE_STEP])),
          (p: (), x: PlanningContext) => ((), PlannerRaised),
          (e: (), call: ToolCall) => ((), ExecutorRaised))
  }

  /** The prose rule "all steps terminal and at least one failed gives STEP_FAILED" is not what the code does. */
  lemma StepFailedProseCounterexample()
    ensures var run := RunToEnd(RaisingWorld(), Initial(RaisingWorld(), (), (), "INC-000001", 0, 1)).st;
            && |run.steps| == 1 && run.steps[0].status.Failed?
            && run.stopReason == Some(PlannerFailed)
  {
    var w := RaisingWorld();
    var c0 := Initial(w, (), (), "INC-000001", 0, 1);
    var c1 := Next(w, c0);
    var c2 := Next(w, c1);
    var c3 := Next(w, c2);
    var c4 := Next(w, c3);
    assert c1.control == Boundary(0) && c2.control == Deciding(0);
    assert c3.control == Closing(0, StepStopped(PlannerFailed, PLANNER_RAISED_ERROR)) && c4.control.Done?;
    assert RunToEnd(w, c0) == RunToEnd(w, c1) == RunToEnd(w, c2) == RunToEnd(w, c3) == RunToEnd(w, c4) == c4;
  }
}
