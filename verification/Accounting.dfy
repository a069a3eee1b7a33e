/** Exact accounting of the trajectory (app/runtime/runtime.py): how many events of which
    kind a run records, for every planner and every executor. */
module Accounting {
  import opened Contracts
  import opened Machine
  import opened Effects
  import Budget
  import Safety

  datatype Tally = Tally(started: nat, decisions: nat, created: nat, retries: nat) {
    function Add(kind: EventKind): Tally {
      match kind
      case StepStarted => this.(started := started + 1)
      case DecisionMade(_) => this.(decisions := decisions + 1)
      case CallCreated(_, _) => this.(created := created + 1)
      case RetryScheduled(_) => this.(retries := retries + 1)
      case _ => this
    }
  }

  /** Numbers of steps started, decisions taken, calls created and retries scheduled. */
  function TallyOf(events: seq<Event>): Tally {
    if events == [] then Tally(0, 0, 0, 0)
    else TallyOf(events[..|events| - 1]).Add(events[|events| - 1].kind)
  }

  lemma TallyRecord(clock: nat -> int, st: RunState, kind: EventKind, stepId: Option<string>,
                    callId: Option<string>, resultId: Option<string>)
    ensures var after := Record(clock, st, kind, stepId, callId, resultId);
            && |after.events| == |st.events| + 1
            && TallyOf(after.events) == TallyOf(st.events).Add(kind)
  {
    var after := Record(clock, st, kind, stepId, callId, resultId);
    assert after.events[..|after.events| - 1] == st.events;
  }

  function Successes(st: RunState): int {
    st.totalCalls - st.totalFailures
  }

  /** 1 when this step was ended by an exception of the planner. */
  function DecideRaised<P, E>(c: Config<P, E>): nat {
    if c.control.Closing? && c.control.outcome.StepStopped? && c.control.outcome.reason.PlannerFailed? then 1
    else if c.control.Done? && c.st.hasPlan && c.st.stopReason == Some(PlannerFailed) then 1
    else 0
  }

  ghost predicate Accounted<P, E>(w: World<P, E>, c: Config<P, E>) {
    && WellFormed(c)
    && var t := TallyOf(c.st.events);
    && t.created == c.st.totalCalls
    && t.retries <= c.st.totalFailures <= c.st.totalCalls
    && (match c.control
        case Start => |c.st.events| == 1 && t == Tally(0, 0, 0, 0) && c.st.totalFailures == 0
        case Boundary(i) =>
          && t.started == i <= w.budget.maxSteps
          && |c.st.events| == 2 + 2 * i + t.decisions + 3 * t.created + t.retries
          && t.decisions == Successes(c.st) + i
        case Deciding(i) =>
          && t.started == i + 1 <= w.budget.maxSteps
          && |c.st.events| == 3 + 2 * i + t.decisions + 3 * t.created + t.retries
          && t.decisions == Successes(c.st) + i
        case Calling(i, _, _) =>
          && t.started == i + 1 <= w.budget.maxSteps
          && |c.st.events| == 3 + 2 * i + t.decisions + 3 * t.created + t.retries
          && t.decisions == Successes(c.st) + i + 1
        case Closing(i, _) =>
          && t.started == i + 1 <= w.budget.maxSteps
          && |c.st.events| == 3 + 2 * i + t.decisions + 3 * t.created + t.retries
          && t.decisions == Successes(c.st) + i + 1 - DecideRaised(c)
        case Done =>
          && t.started <= w.budget.maxSteps && t.started <= |c.st.steps|
          && |c.st.events|
             == 2 + (if c.st.hasPlan then 1 else 0) + 2 * t.started + t.decisions + 3 * t.created + t.retries
          && t.decisions == Successes(c.st) + t.started - DecideRaised(c))
  }

  lemma InitialAccounted<P, E>(w: World<P, E>, planner: P, executor: E, incidentId: string, ticks: nat, nextCall: nat)
    ensures Accounted(w, Initial(w, planner, executor, incidentId, ticks, nextCall))
  {
    var st := Opened(w.clock, incidentId, ticks, nextCall);
    assert st.events[..0] == [];
    assert TallyOf(st.events) == TallyOf([]).Add(InvestigationStarted);
  }

  /** An attempt records three events, and a fourth when it is retried. */
  lemma AttemptTally<P, E>(w: World<P, E>, c: Config<P, E>)
    requires WellFormed(c) && c.control.Calling? && Blocked(w, c.st, c.control.i).None?
    ensures var n := Next(w, c);
            var t := TallyOf(c.st.events);
            var retried := if n.control.Calling? then 1 else 0;
            && |n.st.events| == |c.st.events| + 3 + retried
            && TallyOf(n.st.events) == t.(created := t.created + 1, retries := t.retries + retried)
  {
    var begun, executor, reply := AttemptUnfolds(w, c);
    BeginAttemptTally(w.clock, c.st, c.st.steps[c.control.i].stepId, c.control.request, c.control.attempts);
    ReplyTally(w, c, begun, executor, reply);
  }

  lemma BeginAttemptTally(clock: nat -> int, st: RunState, stepId: string, request: PlannerDecision, attempts: nat)
    requires request.Call?
    ensures var begun := BeginAttempt(clock, st, stepId, request, attempts);
            && |begun.events| == |st.events| + 2
            && TallyOf(begun.events) == TallyOf(st.events).(created := TallyOf(st.events).created + 1)
  {
    var begun := BeginAttempt(clock, st, stepId, request, attempts);
    var k := |st.events|;
    assert begun.events[..k + 1][..k] == st.events;
    assert begun.events[..k + 2] == begun.events;
    assert TallyOf(begun.events[..k + 1]) == TallyOf(st.events).Add(begun.events[k].kind);
  }

  /** The settled call is one event, a scheduled retry is one more. */
  lemma ReplyLogs<P, E>(w: World<P, E>, c: Config<P, E>, begun: RunState, executor: E, reply: ExecutorReply)
    requires c.control.Calling? && c.control.request.Call?
    requires begun.calls != [] && c.control.i < |begun.steps| && begun.hasPlan
    ensures var n := Attempted(w, c, begun, executor, reply);
            var k := |begun.events|;
            && |n.st.events| == k + 1 + (if n.control.Calling? then 1 else 0) && n.st.events[..k] == begun.events
            && (n.st.events[k].kind.CallSucceeded? || n.st.events[k].kind.CallFailed?)
            && (n.control.Calling? ==> n.st.events[k + 1].kind.RetryScheduled?)
  {
    hide Budget.ClassifyToolFailure, FailureText;
  }

  lemma ReplyTally<P, E>(w: World<P, E>, c: Config<P, E>, begun: RunState, executor: E, reply: ExecutorReply)
    requires c.control.Calling? && c.control.request.Call?
    requires begun.calls != [] && c.control.i < |begun.steps| && begun.hasPlan
    ensures var n := Attempted(w, c, begun, executor, reply);
            var t := TallyOf(begun.events);
            var retried := if n.control.Calling? then 1 else 0;
            && |n.st.events| == |begun.events| + 1 + retried
            && TallyOf(n.st.events) == t.(retries := t.retries + retried)
  {
    hide Attempted;
    ReplyLogs(w, c, begun, executor, reply);
    var n := Attempted(w, c, begun, executor, reply);
    var k := |begun.events|;
    var first := n.st.events[..k + 1];
    assert first[..k] == begun.events;
    assert TallyOf(first) == TallyOf(begun.events).Add(n.st.events[k].kind);
    if n.control.Calling? {
      assert n.st.events[..|n.st.events| - 1] == first;
    } else {
      assert n.st.events == first;
    }
  }

  lemma TerminateTally(clock: nat -> int, st: RunState, status: RuntimeStatus, reason: StopReason, kind: EventKind)
    requires kind.RunFailed? || kind.RunCompleted? || kind.RunExhausted?
    ensures var after := Terminate(clock, st, status, reason, kind);
            && |after.events| == |st.events| + 1 && TallyOf(after.events) == TallyOf(st.events)
            && after.steps == st.steps && after.hasPlan == st.hasPlan && after.stopReason == Some(reason)
            && after.totalCalls == st.totalCalls && after.totalFailures == st.totalFailures
  {
    var after := Terminate(clock, st, status, reason, kind);
    assert after.events[..|after.events| - 1] == st.events;
  }

  lemma FinishStepTally(clock: nat -> int, st: RunState, i: nat, status: StepStatus, error: Option<string>)
    requires i < |st.steps|
    ensures var after := FinishStep(clock, st, i, status, error);
            && |after.events| == |st.events| + 1 && TallyOf(after.events) == TallyOf(st.events)
            && |after.steps| == |st.steps| && after.hasPlan == st.hasPlan
            && after.totalCalls == st.totalCalls && after.totalFailures == st.totalFailures
  {
    var after := FinishStep(clock, st, i, status, error);
    assert after.events[..|after.events| - 1] == st.events;
  }

  lemma StartAccounted<P, E>(w: World<P, E>, c: Config<P, E>)
    requires Accounted(w, c) && c.control.Boundary? && c.control.i < |c.st.steps|
    requires w.budget.StopReasonForStepStart(c.control.i).None?
    ensures Accounted(w, Next(w, c))
  {
    var n := Next(w, c);
    assert n.st.events[..|n.st.events| - 1] == c.st.events;
    assert TallyOf(n.st.events) == TallyOf(c.st.events).Add(StepStarted);
  }

  lemma BoundaryAccounted<P, E>(w: World<P, E>, c: Config<P, E>)
    requires Accounted(w, c) && c.control.Boundary?
    ensures Accounted(w, Next(w, c))
  {
    hide Terminate, TallyOf, StartStep;
    var i := c.control.i;
    if i == |c.st.steps| {
      TerminateTally(w.clock, c.st, RuntimeStatus.Failed, StopReason.StepFailed, RunFailed);
      TerminateTally(w.clock, c.st, RuntimeStatus.Completed, StopReason.Completed, RunCompleted);
    } else if w.budget.StopReasonForStepStart(i).Some? {
      TerminateTally(w.clock, c.st, RuntimeStatus.BudgetExhausted, MaxStepsExceeded, RunExhausted);
    } else {
      StartAccounted(w, c);
    }
  }

  lemma StopAccounted<P, E>(w: World<P, E>, c: Config<P, E>)
    requires Accounted(w, c) && c.control.Closing? && c.control.outcome.StepStopped?
    ensures Accounted(w, Next(w, c))
  {
    hide Terminate, TallyOf, FinishStep;
    var Closing(i, StepStopped(reason, error)) := c.control;
    FinishStepTally(w.clock, c.st, i, StepStatus.Failed, Some(error));
    var st := FinishStep(w.clock, c.st, i, StepStatus.Failed, Some(error));
    var n := Next(w, c);
    if reason.IsBudgetReason() {
      TerminateTally(w.clock, st, RuntimeStatus.BudgetExhausted, reason, RunExhausted);
    } else {
      TerminateTally(w.clock, st, RuntimeStatus.Failed, reason, RunFailed);
    }
    assert |n.st.events| == |c.st.events| + 2 && TallyOf(n.st.events) == TallyOf(c.st.events);
    assert DecideRaised(n) == DecideRaised(c);
  }

  lemma CloseAccounted<P, E>(w: World<P, E>, c: Config<P, E>)
    requires Accounted(w, c) && c.control.Closing?
    ensures Accounted(w, Next(w, c))
  {
    var Closing(i, outcome) := c.control;
    match outcome {
      case StepDone => FinishStepTally(w.clock, c.st, i, StepStatus.Completed, None);
      case StepGaveUp(error) => FinishStepTally(w.clock, c.st, i, StepStatus.Failed, Some(error));
      case StepStopped(_, _) => StopAccounted(w, c);
    }
  }

  lemma DecideAccounted<P, E>(w: World<P, E>, c: Config<P, E>)
    requires Accounted(w, c) && c.control.Deciding?
    ensures Accounted(w, Next(w, c))
  {
    var n := Next(w, c);
    var reply := w.decide(c.planner, Context(w, c.st, c.control.i)).1;
    if reply.Decided? {
      TallyRecord(w.clock, c.st, DecisionMade(reply.decision.Action()), Some(c.st.steps[c.control.i].stepId), None,
                  None);
    }
  }

  lemma PlanAccounted<P, E>(w: World<P, E>, c: Config<P, E>)
    requires Accounted(w, c) && c.control.Start?
    ensures Accounted(w, Next(w, c))
  {
    var st := EnterPlanning(w.clock, c.st);
    match w.createPlan(c.planner, w.alert).1 {
      case PlanRaised => TerminateTally(w.clock, st, RuntimeStatus.Failed, PlannerFailed, RunFailed);
      case Planned(steps) =>
        TallyRecord(w.clock, Touch(w.clock, st.(hasPlan := true, steps := steps, status := RuntimeStatus.Running)),
                    PlanCreated(|steps|), None, None, None);
    }
  }

  lemma AttemptAccounted<P, E>(w: World<P, E>, c: Config<P, E>, n: Config<P, E>, begun: ToolCall, reply: ExecutorReply)
    requires Accounted(w, c) && IsAttempt(w, c, n, begun, reply)
    requires var t := TallyOf(c.st.events);
             var retried := if n.control.Calling? then 1 else 0;
             && |n.st.events| == |c.st.events| + 3 + retried
             && TallyOf(n.st.events) == t.(created := t.created + 1, retries := t.retries + retried)
    ensures Accounted(w, n)
  {
  }

  lemma CallingAccounted<P, E>(w: World<P, E>, c: Config<P, E>)
    requires Accounted(w, c) && c.control.Calling?
    ensures Accounted(w, Next(w, c))
  {
    hide BeginAttempt, Attempted, TallyOf;
    if Blocked(w, c.st, c.control.i).None? {
      var begun, reply := AttemptEffect(w, c);
      AttemptTally(w, c);
      hide Next, Accounted;
      AttemptAccounted(w, c, Next(w, c), begun, reply);
    }
  }

  lemma NextAccounted<P, E>(w: World<P, E>, c: Config<P, E>)
    requires Accounted(w, c) && !c.control.Done?
    ensures Accounted(w, Next(w, c))
  {
    match c.control {
      case Start => PlanAccounted(w, c);
      case Boundary(_) => BoundaryAccounted(w, c);
      case Deciding(_) => DecideAccounted(w, c);
      case Calling(_, _, _) => CallingAccounted(w, c);
      case Closing(_, _) => CloseAccounted(w, c);
    }
  }

  lemma {:induction false} RunAccounted<P, E>(w: World<P, E>, c: Config<P, E>)
    requires Accounted(w, c)
    ensures Accounted(w, RunToEnd(w, c))
    decreases c.control.Start?, !c.control.Done?, Measure(w, c)
  {
    if !c.control.Done? {
      NextDecreases(w, c);
      NextAccounted(w, c);
      RunAccounted(w, Next(w, c));
    }
  }

  function Min(a: nat, b: nat): nat {
    if a <= b then a else b
  }

  /** The exact number of events of a finished run, the exact number of planner decisions,
      and the length bound that follows from the plan and the budget alone. */
  lemma TrajectoryLength<P, E>(w: World<P, E>, planner: P, executor: E, incidentId: string, ticks: nat, nextCall: nat)
    ensures var end := RunToEnd(w, Initial(w, planner, executor, incidentId, ticks, nextCall));
            var run := end.st;
            var t := TallyOf(run.events);
            && |run.events| == 2 + (if run.hasPlan then 1 else 0) + 2 * t.started + t.decisions
                               + 3 * |run.calls| + t.retries
            && t.decisions == (run.totalCalls - run.totalFailures) + t.started - DecideRaised(end)
            && t.retries <= run.totalFailures
            && |run.events| <= 3 + 3 * Min(|run.steps|, w.budget.maxSteps) + 4 * w.budget.maxToolCalls
  {
    var c := Initial(w, planner, executor, incidentId, ticks, nextCall);
    InitialAccounted(w, planner, executor, incidentId, ticks, nextCall);
    RunAccounted(w, c);
    Safety.RunsStayWithinBudget(w, planner, executor, incidentId, ticks, nextCall);
  }
}
