/** The sequence number is the authoritative order of a trajectory, and a monotone clock
    makes every timestamp agree with it (app/runtime/trajectory.py, app/schemas/tools.py). */
module Chronology {
  import opened Contracts
  import opened Machine
  import opened Effects
  import Lifecycle

  ghost predicate OrderedLog(clock: nat -> int, st: RunState) {
    && (forall k :: 0 <= k < |st.events| ==>
          && st.events[k].sequence == k + 1
          && st.events[k].incidentId == st.incidentId
          && st.events[k].timestamp <= clock(st.ticks))
    && (forall j, k :: 0 <= j < k < |st.events| ==> st.events[j].timestamp <= st.events[k].timestamp)
  }

  /** The chronology contract of a tool call; a call that has started did so by now. */
  predicate TimelyCall(clock: nat -> int, call: ToolCall, ticks: nat) {
    && (call.startedAt.Some? ==> call.requestedAt <= call.startedAt.value <= clock(ticks))
    && (call.startedAt.Some? && call.completedAt.Some? ==> call.startedAt.value <= call.completedAt.value)
  }

  ghost predicate TimelyCalls(clock: nat -> int, st: RunState) {
    forall k :: 0 <= k < |st.calls| ==> TimelyCall(clock, st.calls[k], st.ticks)
  }

  ghost predicate Chronological(clock: nat -> int, st: RunState) {
    OrderedLog(clock, st) && TimelyCalls(clock, st)
  }

  lemma RecordOrdered(clock: nat -> int, before: RunState, st: RunState, kind: EventKind, stepId: Option<string>,
                      callId: Option<string>, resultId: Option<string>)
    requires Lifecycle.Monotone(clock) && OrderedLog(clock, before)
    requires st.events == before.events && st.incidentId == before.incidentId && st.ticks >= before.ticks
    ensures OrderedLog(clock, Record(clock, st, kind, stepId, callId, resultId))
  {
    assert clock(before.ticks) <= clock(st.ticks) <= clock(st.ticks + 1);
  }

  lemma TerminateOrdered(clock: nat -> int, st: RunState, status: RuntimeStatus, reason: StopReason, kind: EventKind)
    requires Lifecycle.Monotone(clock) && Chronological(clock, st)
    ensures Chronological(clock, Terminate(clock, st, status, reason, kind))
  {
    var now := clock(st.ticks);
    RecordOrdered(clock, st, st.(status := status, stopReason := Some(reason), completedAt := Some(now),
                                 updatedAt := now, ticks := st.ticks + 1), kind, None, None, None);
    assert clock(st.ticks) <= clock(Terminate(clock, st, status, reason, kind).ticks);
  }

  lemma BeginAttemptOrdered(clock: nat -> int, st: RunState, stepId: string, request: PlannerDecision, attempts: nat)
    requires request.Call? && Lifecycle.Monotone(clock) && Chronological(clock, st)
    ensures Chronological(clock, BeginAttempt(clock, st, stepId, request, attempts))
  {
    var begun := BeginAttempt(clock, st, stepId, request, attempts);
    var call := begun.calls[|st.calls|].(status := CallStatus.Requested, startedAt := None);
    var pending := st.(calls := st.calls + [call], ticks := st.ticks + 1, nextCall := st.nextCall + 1);
    var created := Record(clock, pending, CallCreated(request.toolName, attempts + 1), Some(stepId), Some(call.callId),
                          None);
    RecordOrdered(clock, st, pending, CallCreated(request.toolName, attempts + 1), Some(stepId), Some(call.callId),
                  None);
    var running := call.(status := CallStatus.Running, startedAt := Some(clock(created.ticks)));
    var touched := Touch(clock, SetLastCall(created.(ticks := created.ticks + 1), running));
    RecordOrdered(clock, created, touched, CallStarted, Some(stepId), Some(call.callId), None);
    assert clock(st.ticks) <= clock(created.ticks) <= clock(begun.ticks);
  }

  lemma RaiseOrdered(clock: nat -> int, st: RunState, stepId: string, attempts: nat)
    requires st.calls != [] && Lifecycle.Monotone(clock) && Chronological(clock, st)
    ensures Chronological(clock, AbsorbRaise(clock, st, stepId, attempts))
  {
    var call := st.calls[|st.calls| - 1];
    var counted := RecordAttempt(st.(totalCalls := st.totalCalls + 1, totalFailures := st.totalFailures + 1),
                                 stepId, attempts + 1);
    var failed := call.(status := CallStatus.Failed, completedAt := Some(clock(counted.ticks)));
    var touched := Touch(clock, SetLastCall(counted.(ticks := counted.ticks + 1), failed));
    RecordOrdered(clock, st, touched, CallFailed(ExecutorException, attempts + 1), Some(stepId), Some(call.callId),
                  None);
    assert clock(st.ticks) <= clock(AbsorbRaise(clock, st, stepId, attempts).ticks);
  }

  lemma ResultOrdered(clock: nat -> int, st: RunState, stepId: string, attempts: nat, result: ToolResult)
    requires st.calls != [] && Lifecycle.Monotone(clock) && Chronological(clock, st)
    ensures Chronological(clock, AbsorbResult(clock, st, stepId, attempts, result))
  {
    var settled := Settle(clock, st, stepId, attempts, result);
    RecordOrdered(clock, st, settled, OutcomeKind(result, attempts + 1), Some(stepId),
                  Some(st.calls[|st.calls| - 1].callId), Some(result.resultId));
    assert clock(st.ticks) <= clock(AbsorbResult(clock, st, stepId, attempts, result).ticks);
  }

  lemma AttemptedOrdered<P, E>(w: World<P, E>, c: Config<P, E>, begun: RunState, executor: E, reply: ExecutorReply)
    requires c.control.Calling? && c.control.request.Call?
    requires begun.calls != [] && c.control.i < |begun.steps| && begun.hasPlan
    requires Lifecycle.Monotone(w.clock) && Chronological(w.clock, begun)
    ensures Chronological(w.clock, Attempted(w, c, begun, executor, reply).st)
  {
    var attempts := c.control.attempts;
    var stepId := begun.steps[c.control.i].stepId;
    match reply {
      case ExecutorRaised => RaiseOrdered(w.clock, begun, stepId, attempts);
      case Returned(result) =>
        ResultOrdered(w.clock, begun, stepId, attempts, result);
        RetryOrdered(w.clock, AbsorbResult(w.clock, begun, stepId, attempts, result), stepId, attempts);
    }
  }

  lemma RetryOrdered(clock: nat -> int, st: RunState, stepId: string, attempts: nat)
    requires st.calls != [] && Lifecycle.Monotone(clock) && Chronological(clock, st)
    ensures Chronological(clock, ScheduleRetry(clock, st, stepId, attempts))
  {
    RecordOrdered(clock, st, st, RetryScheduled(attempts + 2), Some(stepId), Some(st.calls[|st.calls| - 1].callId),
                  None);
    assert clock(st.ticks) <= clock(st.ticks + 1);
  }

  lemma StepEventsOrdered(clock: nat -> int, st: RunState, i: nat, status: StepStatus, error: Option<string>)
    requires i < |st.steps| && Lifecycle.Monotone(clock) && Chronological(clock, st)
    ensures Chronological(clock, StartStep(clock, st, i))
    ensures Chronological(clock, FinishStep(clock, st, i, status, error))
  {
    var a, b := StartStep(clock, st, i), FinishStep(clock, st, i, status, error);
    assert clock(st.ticks) <= clock(st.ticks + 2) <= clock(st.ticks + 3);
    assert a.ticks == b.ticks == st.ticks + 3;
  }

  lemma PlanOrdered<P, E>(w: World<P, E>, c: Config<P, E>)
    requires WellFormed(c) && c.control.Start? && Lifecycle.Monotone(w.clock) && Chronological(w.clock, c.st)
    ensures Chronological(w.clock, Next(w, c).st)
  {
    var st := EnterPlanning(w.clock, c.st);
    assert w.clock(c.st.ticks) <= w.clock(st.ticks) <= w.clock(Next(w, c).st.ticks);
    match w.createPlan(c.planner, w.alert).1 {
      case PlanRaised => TerminateOrdered(w.clock, st, RuntimeStatus.Failed, PlannerFailed, RunFailed);
      case Planned(steps) =>
        RecordOrdered(w.clock, st,
                      Touch(w.clock, st.(hasPlan := true, steps := steps, status := RuntimeStatus.Running)),
                      PlanCreated(|steps|), None, None, None);
    }
  }

  lemma NextChronological<P, E>(w: World<P, E>, c: Config<P, E>)
    requires WellFormed(c) && !c.control.Done? && Lifecycle.Monotone(w.clock) && Chronological(w.clock, c.st)
    ensures Chronological(w.clock, Next(w, c).st)
  {
    match c.control {
      case Start => PlanOrdered(w, c);
      case Boundary(i) =>
        var n := Next(w, c);
        if n.control.Done? {
          TerminateOrdered(w.clock, c.st, n.st.status, n.st.stopReason.value, n.st.events[|c.st.events|].kind);
        } else {
          StepEventsOrdered(w.clock, c.st, i, StepStatus.Completed, None);
        }
      case Deciding(i) =>
        var reply := w.decide(c.planner, Context(w, c.st, i)).1;
        if reply.Decided? {
          RecordOrdered(w.clock, c.st, c.st, DecisionMade(reply.decision.Action()), Some(c.st.steps[i].stepId), None,
                        None);
          assert w.clock(c.st.ticks) <= w.clock(c.st.ticks + 1);
        }
      case Calling(_, _, _) =>
        if Blocked(w, c.st, c.control.i).None? {
          var begun, executor, reply := AttemptUnfolds(w, c);
          BeginAttemptOrdered(w.clock, c.st, c.st.steps[c.control.i].stepId, c.control.request, c.control.attempts);
          AttemptedOrdered(w, c, begun, executor, reply);
        }
      case Closing(i, outcome) => CloseOrdered(w, c);
    }
  }

  lemma CloseOrdered<P, E>(w: World<P, E>, c: Config<P, E>)
    requires WellFormed(c) && c.control.Closing? && Lifecycle.Monotone(w.clock) && Chronological(w.clock, c.st)
    ensures Chronological(w.clock, Next(w, c).st)
  {
    var Closing(i, outcome) := c.control;
    match outcome {
      case StepDone => StepEventsOrdered(w.clock, c.st, i, StepStatus.Completed, None);
      case StepGaveUp(error) => StepEventsOrdered(w.clock, c.st, i, StepStatus.Failed, Some(error));
      case StepStopped(reason, error) =>
        StepEventsOrdered(w.clock, c.st, i, StepStatus.Failed, Some(error));
        var st := FinishStep(w.clock, c.st, i, StepStatus.Failed, Some(error));
        TerminateOrdered(w.clock, st, RuntimeStatus.BudgetExhausted, reason, RunExhausted);
        TerminateOrdered(w.clock, st, RuntimeStatus.Failed, reason, RunFailed);
    }
  }

  lemma {:induction false} RunChronological<P, E>(w: World<P, E>, c: Config<P, E>)
    requires WellFormed(c) && Lifecycle.Monotone(w.clock) && Chronological(w.clock, c.st)
    ensures Chronological(w.clock, RunToEnd(w, c).st)
    decreases c.control.Start?, !c.control.Done?, Measure(w, c)
  {
    if !c.control.Done? {
      NextDecreases(w, c);
      NextChronological(w, c);
      RunChronological(w, Next(w, c));
    }
  }

  /** Sequence numbers are 1, 2, 3, ...; timestamps never go back along them; no call
      completes before it started. */
  lemma RunsAreChronological<P, E>(w: World<P, E>, planner: P, executor: E, incidentId: string, ticks: nat,
                                   nextCall: nat)
    requires Lifecycle.Monotone(w.clock)
    ensures var run := RunToEnd(w, Initial(w, planner, executor, incidentId, ticks, nextCall)).st;
            && (forall k :: 0 <= k < |run.events| ==> run.events[k].sequence == k + 1)
            && (forall j, k :: 0 <= j < k < |run.events| ==> run.events[j].timestamp <= run.events[k].timestamp)
            && (forall k :: 0 <= k < |run.calls| && run.calls[k].startedAt.Some? && run.calls[k].completedAt.Some? ==>
                  run.calls[k].startedAt.value <= run.calls[k].completedAt.value)
  {
    var c := Initial(w, planner, executor, incidentId, ticks, nextCall);
    assert w.clock(ticks + 1) <= w.clock(ticks + 2);
    RunChronological(w, c);
  }
}
