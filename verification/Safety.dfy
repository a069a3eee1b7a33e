/** Budget safety and call/result conservation over whole runs
    (app/runtime/runtime.py, app/runtime/budget.py, app/runtime/retry.py). */
module Safety {
  import opened Contracts
  import opened Machine
  import opened Effects
  import Ids

  function CountFailed(calls: seq<ToolCall>): nat {
    if calls == [] then 0
    else CountFailed(calls[..|calls| - 1]) + (if calls[|calls| - 1].status.Failed? then 1 else 0)
  }

  lemma CountsAppend(before: seq<ToolCall>, after: seq<ToolCall>, stepId: string)
    requires |after| == |before| + 1 && after[..|before|] == before
    ensures CountFailed(after) == CountFailed(before) + (if after[|before|].status.Failed? then 1 else 0)
    ensures CountInStep(after, stepId)
            == CountInStep(before, stepId) + (if after[|before|].stepId == stepId then 1 else 0)
  {
  }

  /** The failure limit is still out of reach: nothing failed since the last passed check
      except attempts that were retried and passed the check again. */
  predicate BelowFailureLimit<P, E>(w: World<P, E>, c: Config<P, E>) {
    c.failedSteps == 0 &&
    (match c.control
     case Start => true
     case Boundary(_) => true
     case Deciding(_) => true
     case Calling(_, _, attempts) => attempts == 0
     case Closing(_, outcome) => outcome.StepDone?
     case _ => false)
  }

  /** The control point right after the executor raised. */
  predicate AfterRaise<P, E>(c: Config<P, E>) {
    || (c.control.Closing? && c.control.outcome == StepStopped(UnrecoverableToolError, EXECUTOR_RAISED_ERROR))
    || (c.control.Done? && c.st.stopReason == Some(UnrecoverableToolError))
  }

  ghost predicate WithinBudget<P, E>(w: World<P, E>, c: Config<P, E>) {
    && WellFormed(c)
    && c.st.totalCalls == |c.st.calls| <= w.budget.maxToolCalls
    && c.st.totalFailures == CountFailed(c.st.calls) <= w.budget.maxFailures
    && (forall id :: CountInStep(c.st.calls, id) <= w.budget.maxToolCallsPerStep)
    && (forall id :: id in c.st.stepAttempts ==> c.st.stepAttempts[id] <= w.retry.maxAttempts)
    && (c.control.Calling? ==> c.control.attempts < w.retry.maxAttempts)
    && (c.control.Closing? && c.control.outcome.StepStopped? ==> !c.control.outcome.reason.Completed?)
    && (BelowFailureLimit(w, c) ==> c.st.totalFailures < w.budget.maxFailures)
    && (c.control.Done? && c.st.stopReason == Some(StopReason.Completed) ==> c.st.totalFailures < w.budget.maxFailures)
  }

  lemma InitialWithinBudget<P, E>(w: World<P, E>, planner: P, executor: E, incidentId: string, ticks: nat,
                                  nextCall: nat)
    ensures WithinBudget(w, Initial(w, planner, executor, incidentId, ticks, nextCall))
  {
  }

  lemma AttemptWithinBudget<P, E>(w: World<P, E>, c: Config<P, E>, n: Config<P, E>, begun: ToolCall,
                                  reply: ExecutorReply)
    requires WithinBudget(w, c) && IsAttempt(w, c, n, begun, reply) && Blocked(w, c.st, c.control.i).None?
    ensures WithinBudget(w, n)
  {
    forall id ensures CountInStep(n.st.calls, id) <= w.budget.maxToolCallsPerStep {
      CountsAppend(c.st.calls, n.st.calls, id);
    }
    CountsAppend(c.st.calls, n.st.calls, "");
    assert n.control.Calling? ==>
           w.retry.ShouldRetry(Budget.ClassifyToolFailure(reply.result.error), c.control.attempts + 1);
  }

  /** Every transition keeps every limit. */
  lemma NextWithinBudget<P, E>(w: World<P, E>, c: Config<P, E>)
    requires WithinBudget(w, c) && !c.control.Done?
    ensures WithinBudget(w, Next(w, c))
  {
    if c.control.Calling? && Blocked(w, c.st, c.control.i).None? {
      var begun, reply := AttemptEffect(w, c);
      AttemptWithinBudget(w, c, Next(w, c), begun, reply);
    } else {
      OtherStepsKeepCalls(w, c);
    }
  }

  lemma {:induction false} RunWithinBudget<P, E>(w: World<P, E>, c: Config<P, E>)
    requires WithinBudget(w, c)
    ensures WithinBudget(w, RunToEnd(w, c))
    decreases c.control.Start?, !c.control.Done?, Measure(w, c)
  {
    if !c.control.Done? {
      NextDecreases(w, c);
      NextWithinBudget(w, c);
      RunWithinBudget(w, Next(w, c));
    }
  }

  /** No run exceeds any limit, and a completed run stayed strictly below the failure limit. */
  lemma RunsStayWithinBudget<P, E>(w: World<P, E>, planner: P, executor: E, incidentId: string, ticks: nat,
                                   nextCall: nat)
    ensures var run := RunToEnd(w, Initial(w, planner, executor, incidentId, ticks, nextCall)).st;
            && |run.calls| == run.totalCalls <= w.budget.maxToolCalls
            && CountFailed(run.calls) == run.totalFailures <= w.budget.maxFailures
            && (forall id :: CountInStep(run.calls, id) <= w.budget.maxToolCallsPerStep)
            && (forall id :: id in run.stepAttempts ==> run.stepAttempts[id] <= w.retry.maxAttempts)
            && (run.stopReason == Some(StopReason.Completed) ==> run.totalFailures < w.budget.maxFailures)
  {
    InitialWithinBudget(w, planner, executor, incidentId, ticks, nextCall);
    RunWithinBudget(w, Initial(w, planner, executor, incidentId, ticks, nextCall));
  }

  /** The clamp in the planner's context never clips: the budgets shown are the exact differences. */
  lemma ContextIsExact<P, E>(w: World<P, E>, c: Config<P, E>)
    requires WithinBudget(w, c) && c.control.Deciding?
    ensures var context := Context(w, c.st, c.control.i);
            && context.remainingToolBudget == w.budget.maxToolCalls - |c.st.calls| >= 0
            && context.remainingStepBudget
               == w.budget.maxToolCallsPerStep - CountInStep(c.st.calls, c.st.steps[c.control.i].stepId) >= 0
  {
    assert CountInStep(c.st.calls, c.st.steps[c.control.i].stepId) <= w.budget.maxToolCallsPerStep;
  }

  // ----- conservation of calls and results ----------------------------------------

  /** The executor stamps every result with the id of the call it was given. */
  ghost predicate Echoes<P, E(!new)>(w: World<P, E>) {
    forall e: E, call: ToolCall ::
      w.execute(e, call).1.Returned? ==> w.execute(e, call).1.result.callId == call.callId
  }

  predicate Settled(call: ToolCall) {
    call.status.Succeeded? || call.status.Failed?
  }

  ghost predicate CallsConserved(st: RunState, base: nat) {
    && st.nextCall == base + |st.calls|
    && (forall k :: 0 <= k < |st.calls| ==>
          st.calls[k].callId == Ids.FormatId(Ids.TOOL_CALL_PREFIX, base + k) && Settled(st.calls[k]))
  }

  ghost predicate ResultsConserved<P, E(!new)>(w: World<P, E>, st: RunState) {
    && |st.results| <= |st.calls|
    && (forall k :: 0 <= k < |st.results| ==>
          && (st.results[k].success <==> st.calls[k].status.Succeeded?)
          && (Echoes(w) ==> st.results[k].callId == st.calls[k].callId))
  }

  ghost predicate Conserved<P, E(!new)>(w: World<P, E>, c: Config<P, E>, base: nat) {
    && CallsConserved(c.st, base)
    && ResultsConserved(w, c.st)
    && |c.st.calls| <= |c.st.results| + 1
    && (|c.st.results| < |c.st.calls| ==> AfterRaise(c) && c.st.calls[|c.st.calls| - 1].status.Failed?)
  }

  lemma AttemptConservesCalls<P, E>(w: World<P, E>, c: Config<P, E>, n: Config<P, E>, begun: ToolCall,
                                    reply: ExecutorReply, base: nat)
    requires CallsConserved(c.st, base) && IsAttempt(w, c, n, begun, reply)
    ensures CallsConserved(n.st, base)
  {
    var last := |c.st.calls|;
    forall k | 0 <= k < last ensures n.st.calls[k] == c.st.calls[k] {
      assert n.st.calls[k] == n.st.calls[..last][k];
    }
    hide Ids.FormatId;
    assert n.st.calls[last].callId == begun.callId && Settled(n.st.calls[last]);
  }

  lemma AttemptConservesResults<P, E(!new)>(w: World<P, E>, c: Config<P, E>, n: Config<P, E>, begun: ToolCall,
                                            reply: ExecutorReply)
    requires ResultsConserved(w, c.st) && |c.st.results| == |c.st.calls| && IsAttempt(w, c, n, begun, reply)
    ensures ResultsConserved(w, n.st)
    ensures |n.st.results| == |n.st.calls| || (|n.st.results| == |n.st.calls| - 1 && AfterRaise(n)
                                               && n.st.calls[|n.st.calls| - 1].status.Failed?)
  {
    var last := |c.st.calls|;
    forall k | 0 <= k < last ensures n.st.calls[k] == c.st.calls[k] {
      assert n.st.calls[k] == n.st.calls[..last][k];
    }
    if reply.Returned? && Echoes(w) {
      assert n.st.results[last].callId == begun.callId == n.st.calls[last].callId;
    }
  }

  lemma NextConserves<P, E(!new)>(w: World<P, E>, c: Config<P, E>, base: nat)
    requires WellFormed(c) && Conserved(w, c, base) && !c.control.Done?
    ensures Conserved(w, Next(w, c), base)
  {
    if c.control.Calling? && Blocked(w, c.st, c.control.i).None? {
      var begun, reply := AttemptEffect(w, c);
      AttemptConservesCalls(w, c, Next(w, c), begun, reply, base);
      AttemptConservesResults(w, c, Next(w, c), begun, reply);
    } else {
      OtherStepsKeepCalls(w, c);
    }
  }

  lemma {:induction false} RunConserves<P, E(!new)>(w: World<P, E>, c: Config<P, E>, base: nat)
    requires WellFormed(c) && Conserved(w, c, base)
    ensures Conserved(w, RunToEnd(w, c), base)
    decreases c.control.Start?, !c.control.Done?, Measure(w, c)
  {
    if !c.control.Done? {
      NextDecreases(w, c);
      NextConserves(w, c, base);
      RunConserves(w, Next(w, c), base);
    }
  }

  lemma CallIdsDistinct<P, E(!new)>(w: World<P, E>, c: Config<P, E>, base: nat, j: nat, k: nat)
    requires Conserved(w, c, base) && j < |c.st.calls| && k < |c.st.calls|
    requires c.st.calls[j].callId == c.st.calls[k].callId
    ensures j == k
  {
    Ids.FormatIdInjective(Ids.TOOL_CALL_PREFIX, base + j, base + k);
  }

  /** Calls and results correspond one to one and in order. The only call that may lack a
      result is the last one, and only when the executor raised and thereby ended the run. */
  lemma CallsAndResultsCorrespond<P, E(!new)>(w: World<P, E>, planner: P, executor: E, incidentId: string, ticks: nat,
                                              nextCall: nat)
    ensures var run := RunToEnd(w, Initial(w, planner, executor, incidentId, ticks, nextCall)).st;
            && (forall j, k :: 0 <= j < k < |run.calls| ==> run.calls[j].callId != run.calls[k].callId)
            && (forall k :: 0 <= k < |run.calls| ==> Settled(run.calls[k]))
            && |run.results| <= |run.calls| <= |run.results| + 1
            && (|run.results| < |run.calls| ==>
                  run.stopReason == Some(UnrecoverableToolError) && run.calls[|run.calls| - 1].status.Failed?)
            && (forall k :: 0 <= k < |run.results| ==>
                  && (run.results[k].success <==> run.calls[k].status.Succeeded?)
                  && (Echoes(w) ==> run.results[k].callId == run.calls[k].callId))
  {
    var c := Initial(w, planner, executor, incidentId, ticks, nextCall);
    assert Conserved(w, c, nextCall);
    hide RunToEnd, Initial, Ids.FormatId, Echoes;
    RunConserves(w, c, nextCall);
    var end := RunToEnd(w, c);
    forall j, k | 0 <= j < k < |end.st.calls| ensures end.st.calls[j].callId != end.st.calls[k].callId {
      if end.st.calls[j].callId == end.st.calls[k].callId {
        CallIdsDistinct(w, end, nextCall, j, k);
      }
    }
  }
}
