/** How many attempts a step can take: `max_attempts_per_step` bounds the attempts of one decision, not those of a
    step (app/runtime/retry.py, app/runtime/runtime.py). */
module AttemptBounds {
  import opened Contracts
  import opened Machine
  import opened Effects
  import opened Multiples
  import Budget
  import Lifecycle
  import Safety

  // ----- the bound that holds -----------------------------------------------------------------

  predicate DecidesCall(event: Event, stepId: string) {
    event.kind == DecisionMade(CallTool) && event.stepId == Some(stepId)
  }

  /** How often the planner asked for a tool call in one step. */
  function CallDecisions(events: seq<Event>, stepId: string): nat {
    if events == [] then 0
    else CallDecisions(events[..|events| - 1], stepId) + if DecidesCall(events[|events| - 1], stepId) then 1 else 0
  }

  lemma {:induction false} NothingDecided(before: seq<Event>, after: seq<Event>, stepId: string)
    requires before <= after && forall k :: |before| <= k < |after| ==> !after[k].kind.DecisionMade?
    ensures CallDecisions(after, stepId) == CallDecisions(before, stepId)
  {
    if before != after {
      var shorter := after[..|after| - 1];
      assert before <= shorter;
      NothingDecided(before, shorter, stepId);
    }
  }

  /** Only a question to the planner records a decision. */
  ghost predicate DecidesNothing(before: seq<Event>, after: seq<Event>) {
    before <= after && forall k :: |before| <= k < |after| ==> !after[k].kind.DecisionMade?
  }

  lemma AttemptDecidesNothing<P, E>(w: World<P, E>, c: Config<P, E>)
    requires WellFormed(c) && c.control.Calling?
    ensures DecidesNothing(c.st.events, Next(w, c).st.events)
  {
    if Blocked(w, c.st, c.control.i).None? {
      var begun, executor, reply := AttemptUnfolds(w, c);
      ReplyDecidesNothing(w, c, begun, executor, reply);
      hide Next, Attempted;
      BeginDecidesNothing(w.clock, c.st, c.st.steps[c.control.i].stepId, c.control.request, c.control.attempts);
    }
  }

  lemma BeginDecidesNothing(clock: nat -> int, st: RunState, stepId: string, request: PlannerDecision, attempts: nat)
    requires request.Call?
    ensures DecidesNothing(st.events, BeginAttempt(clock, st, stepId, request, attempts).events)
  {
  }

  lemma OthersDecideNothing<P, E>(w: World<P, E>, c: Config<P, E>)
    requires WellFormed(c) && (c.control.Start? || c.control.Boundary? || c.control.Closing?)
    ensures DecidesNothing(c.st.events, Next(w, c).st.events)
  {
    hide AttemptStep, DecideStep;
  }

  lemma ReplyDecidesNothing<P, E>(w: World<P, E>, c: Config<P, E>, begun: RunState, executor: E, reply: ExecutorReply)
    requires c.control.Calling? && c.control.request.Call?
    requires begun.calls != [] && c.control.i < |begun.steps| && begun.hasPlan
    ensures DecidesNothing(begun.events, Attempted(w, c, begun, executor, reply).st.events)
  {
  }

  /** Each decision to call pays for at most `maxAttempts` calls of its step; in an attempt loop the last
      decision has paid for the attempts made so far. */
  ghost predicate Charged<P, E>(w: World<P, E>, c: Config<P, E>) {
    && WellFormed(c)
    && (forall id :: CountInStep(c.st.calls, id) <= Times(CallDecisions(c.st.events, id), w.retry.maxAttempts))
    && (c.control.Calling? ==>
          var s := c.st.steps[c.control.i].stepId;
          var decisions := CallDecisions(c.st.events, s);
          && decisions > 0 && c.control.attempts < w.retry.maxAttempts
          && CountInStep(c.st.calls, s) <= Times(decisions - 1, w.retry.maxAttempts) + c.control.attempts)
  }

  lemma AttemptCharged<P, E>(w: World<P, E>, c: Config<P, E>, n: Config<P, E>, begun: ToolCall, reply: ExecutorReply)
    requires Charged(w, c) && IsAttempt(w, c, n, begun, reply)
    requires forall id :: CallDecisions(n.st.events, id) == CallDecisions(c.st.events, id)
    ensures Charged(w, n)
  {
    hide CallDecisions, CountInStep;
    forall id ensures CountInStep(n.st.calls, id) == CountInStep(c.st.calls, id)
                                                     + if id == c.st.steps[c.control.i].stepId then 1 else 0 {
      Safety.CountsAppend(c.st.calls, n.st.calls, id);
    }
    var decisions := CallDecisions(c.st.events, c.st.steps[c.control.i].stepId);
    assert Times(decisions, w.retry.maxAttempts) == Times(decisions - 1, w.retry.maxAttempts) + w.retry.maxAttempts;
    assert n.control.Calling? ==>
           w.retry.ShouldRetry(Budget.ClassifyToolFailure(reply.result.error), c.control.attempts + 1);
  }

  lemma DecideCharged<P, E>(w: World<P, E>, c: Config<P, E>)
    requires Charged(w, c) && c.control.Deciding?
    ensures Charged(w, Next(w, c))
  {
    hide CountInStep;
    OtherStepsKeepCalls(w, c);
    var n := Next(w, c);
    var i, reply := c.control.i, w.decide(c.planner, Context(w, c.st, c.control.i)).1;
    if reply.Decided? {
      assert n.st.events[..|c.st.events|] == c.st.events;
      forall id ensures CallDecisions(n.st.events, id) == CallDecisions(c.st.events, id)
                        + if reply.decision.Call? && id == c.st.steps[i].stepId then 1 else 0 {
      }
    }
  }

  lemma NextCharged<P, E>(w: World<P, E>, c: Config<P, E>)
    requires Charged(w, c) && !c.control.Done?
    ensures Charged(w, Next(w, c))
  {
    if c.control.Deciding? {
      DecideCharged(w, c);
    } else {
      if c.control.Calling? { AttemptDecidesNothing(w, c); } else { OthersDecideNothing(w, c); }
      forall id ensures CallDecisions(Next(w, c).st.events, id) == CallDecisions(c.st.events, id) {
        NothingDecided(c.st.events, Next(w, c).st.events, id);
      }
      hide CallDecisions, CountInStep;
      if c.control.Calling? && Blocked(w, c.st, c.control.i).None? {
        var begun, reply := AttemptEffect(w, c);
        AttemptCharged(w, c, Next(w, c), begun, reply);
      } else {
        OtherStepsKeepCalls(w, c);
      }
    }
  }

  lemma {:induction false} RunCharged<P, E>(w: World<P, E>, c: Config<P, E>)
    requires Charged(w, c)
    ensures Charged(w, RunToEnd(w, c))
    decreases c.control.Start?, !c.control.Done?, Measure(w, c)
  {
    if !c.control.Done? {
      NextDecreases(w, c);
      NextCharged(w, c);
      hide Next, Measure, Charged;
      RunCharged(w, Next(w, c));
    }
  }

  /** No step of any run makes more calls than the planner asked for in it times `max_attempts_per_step`. */
  lemma AttemptsPerStepBounded<P, E>(w: World<P, E>, planner: P, executor: E, incidentId: string, ticks: nat,
                                     nextCall: nat, stepId: string)
    ensures var run := RunToEnd(w, Initial(w, planner, executor, incidentId, ticks, nextCall)).st;
            CountInStep(run.calls, stepId) <= CallDecisions(run.events, stepId) * w.retry.maxAttempts
  {
    var start := Initial(w, planner, executor, incidentId, ticks, nextCall);
    RunCharged(w, start);
    var run := RunToEnd(w, start).st;
    TimesIsProduct(CallDecisions(run.events, stepId), w.retry.maxAttempts);
  }

  // ----- the bound that does not --------------------------------------------------------------

  const STEP_ID := Lifecycle.SAMPLE_STEP.stepId

  /** The planner asks for `n` calls of one step and then completes it; every other attempt fails. */
  function AlternatingWorld(n: nat): World<int, bool> {
    World(Lifecycle.SAMPLE_ALERT, Budget.InvestigationBudget(1, 2 * n + 1, 2 * n + 1, n + 1), Budget.DEFAULT_RETRY,
          (t: nat) => 0,
          (left: int, a: Alert) => (left, Planned([Lifecycle.SAMPLE_STEP])),
          (left: int, x: PlanningContext) =>
            if left <= 0 then (0, Decided(PlannerDecision.Complete(Rationale())))
            else (left - 1, Decided(PlannerDecision.Call(Rationale(), map[], Rationale()))),
          (fails: bool, call: ToolCall) =>
            (!fails, Returned(ToolResult("TR", call.callId, call.toolName, !fails, Null, None))))
  }

  function Rationale(): NonEmptyStr {
    assert !IsSpace("x"[0]);
    "x"
  }

  /** After `done` decisions: two calls each, the first of them failed. */
  ghost predicate Rounds(c: Config<int, bool>, n: nat, done: nat) {
    && WellFormed(c) && done <= n && c.planner == n - done && c.executor
    && |c.st.steps| == 1 && c.st.steps[0].stepId == STEP_ID && c.failedSteps == 0
    && c.st.totalCalls == CountInStep(c.st.calls, STEP_ID) == 2 * done
    && c.st.totalFailures == Safety.CountFailed(c.st.calls) == done
    && (forall id :: id in c.st.stepAttempts ==> c.st.stepAttempts[id] <= 2)
  }

  /** One attempt of a round: the first fails and is retried, the second succeeds. */
  lemma Attempt(n: nat, c: Config<int, bool>, done: nat)
    requires WellFormed(c) && c.control.Calling? && c.control.i == 0
             && c.control.attempts == (if c.executor then 0 else 1)
    requires |c.st.steps| == 1 && c.st.steps[0].stepId == STEP_ID && done < n
    requires c.st.totalCalls == CountInStep(c.st.calls, STEP_ID) == 2 * done + c.control.attempts
    requires c.st.totalFailures == Safety.CountFailed(c.st.calls) == done + c.control.attempts
    requires forall id :: id in c.st.stepAttempts ==> c.st.stepAttempts[id] <= 2
    ensures var d := Next(AlternatingWorld(n), c);
            && d.executor == !c.executor && d.planner == c.planner && d.failedSteps == c.failedSteps
            && d.control == (if c.executor then Calling(0, c.control.request, 1) else Deciding(0))
            && d.st.steps == c.st.steps
            && d.st.totalCalls == CountInStep(d.st.calls, STEP_ID) == c.st.totalCalls + 1
            && d.st.totalFailures == Safety.CountFailed(d.st.calls)
               == c.st.totalFailures + (if c.executor then 1 else 0)
            && (forall id :: id in d.st.stepAttempts ==> d.st.stepAttempts[id] <= 2)
  {
    hide CountInStep, Safety.CountFailed, BeginAttempt, Attempted;
    var w := AlternatingWorld(n);
    var st, executor, answer := AttemptUnfolds(w, c);
    KeepsOthers(w, c, st, executor, answer);
    hide Next;
    var d := Next(w, c);
    var begun, reply := AttemptEffect(w, c);
    Safety.CountsAppend(c.st.calls, d.st.calls, STEP_ID);
    RetriedOnce(c.control.request, reply.result);
  }

  lemma KeepsOthers<P, E>(w: World<P, E>, c: Config<P, E>, begun: RunState, executor: E, reply: ExecutorReply)
    requires c.control.Calling? && c.control.request.Call?
    requires begun.calls != [] && c.control.i < |begun.steps| && begun.hasPlan
    ensures Attempted(w, c, begun, executor, reply).executor == executor
    ensures Attempted(w, c, begun, executor, reply).failedSteps == c.failedSteps
  {
  }

  lemma RetriedOnce(request: PlannerDecision, result: ToolResult)
    requires result.error.None?
    ensures AfterFailure(Budget.DEFAULT_RETRY, 0, request, 0, result) == Calling(0, request, 1)
  {
  }

  /** One round: a decision, a failed attempt and its successful retry. */
  lemma OneRound(n: nat, c: Config<int, bool>, done: nat) returns (d: Config<int, bool>)
    requires c.control == Deciding(0) && Rounds(c, n, done) && done < n
    ensures d.control == Deciding(0) && Rounds(d, n, done + 1)
    ensures RunToEnd(AlternatingWorld(n), d) == RunToEnd(AlternatingWorld(n), c)
  {
    var w := AlternatingWorld(n);
    var asked := Next(w, c);
    OtherStepsKeepCalls(w, c);
    assert asked.control.Calling? && asked.control.attempts == 0 && asked.executor;
    hide Next, CountInStep, Safety.CountFailed;
    Attempt(n, asked, done);
    var failed := Next(w, asked);
    Attempt(n, failed, done);
    d := Next(w, failed);
    OneStep(w, c);
    OneStep(w, asked);
    OneStep(w, failed);
  }

  lemma {:induction false} AllRounds(n: nat, c: Config<int, bool>, done: nat) returns (d: Config<int, bool>)
    requires c.control == Deciding(0) && Rounds(c, n, done)
    ensures d.control == Deciding(0) && Rounds(d, n, n)
    ensures RunToEnd(AlternatingWorld(n), d) == RunToEnd(AlternatingWorld(n), c)
    decreases n - done
  {
    d := c;
    if done < n {
      d := OneRound(n, c, done);
      d := AllRounds(n, d, done + 1);
    }
  }

  lemma Wrap(n: nat, c: Config<int, bool>)
    requires c.control == Deciding(0) && Rounds(c, n, n)
    ensures var run := RunToEnd(AlternatingWorld(n), c).st;
            && run.stopReason == Some(StopReason.Completed) && KeepsCalls(c.st, run)
  {
    var w := AlternatingWorld(n);
    var closing := Next(w, c);
    var last := Next(w, closing);
    var end := Next(w, last);
    assert closing.control == Closing(0, StepDone) && last.control == Boundary(1) && end.control.Done?;
    OneStep(w, c);
    OneStep(w, closing);
    OneStep(w, last);
    AtEnd(w, end);
  }

  /** With `max_attempts_per_step` two there is, for every `n`, a run that completes its only step after `n`
      failed attempts in it, while the attempts recorded for the step never exceed two. */
  lemma AttemptsPerStepUnbounded(n: nat)
    ensures var w := AlternatingWorld(n);
            var run := RunToEnd(w, Initial(w, n, true, "INC-000001", 0, 1)).st;
            && w.retry.maxAttempts == 2 && run.stopReason == Some(StopReason.Completed)
            && CountInStep(run.calls, STEP_ID) == 2 * n && Safety.CountFailed(run.calls) == n
            && forall id :: id in run.stepAttempts ==> run.stepAttempts[id] <= 2
  {
    var w := AlternatingWorld(n);
    var start := Initial(w, n, true, "INC-000001", 0, 1);
    var planned := Next(w, start);
    var deciding := Next(w, planned);
    assert planned.control == Boundary(0) && deciding.control == Deciding(0);
    OneStep(w, start);
    OneStep(w, planned);
    var last := AllRounds(n, deciding, 0);
    Wrap(n, last);
  }
}
