/** Which failures are retried, read off the trajectory (app/runtime/retry.py, app/runtime/runtime.py). */
module Retries {
  import opened Budget
  import opened Contracts
  import opened Effects
  import opened Machine

  /** The failures a policy lets a call repeat: never an unknown tool, never an exception. */
  predicate Retryable(policy: RetryPolicy, failure: FailureKind, attempt: nat) {
    && attempt < policy.maxAttempts
    && ((failure.ExecutionError? && policy.retryToolErrors)
        || (failure.InvalidArguments? && policy.retryInvalidArguments))
  }

  predicate KindAt(events: seq<Event>, k: nat, kind: EventKind) {
    k < |events| && events[k].kind == kind
  }

  /** A retry follows a failure directly, and follows exactly the retryable ones. */
  predicate FollowsAt(policy: RetryPolicy, events: seq<Event>, k: nat)
    requires k < |events|
  {
    && (events[k].kind.RetryScheduled? ==> k > 0 && events[k - 1].kind.CallFailed?)
    && (events[k].kind.CallFailed? ==>
          (KindAt(events, k + 1, RetryScheduled(events[k].kind.attempt + 1))
           <==> Retryable(policy, events[k].kind.failure, events[k].kind.attempt)))
  }

  ghost predicate RetriesFollow(policy: RetryPolicy, events: seq<Event>) {
    forall k :: 0 <= k < |events| ==> FollowsAt(policy, events, k)
  }

  /** A failure that ends the run: not retried, and no plain execution error. */
  predicate Fatal(policy: RetryPolicy, kind: EventKind) {
    kind.CallFailed? && !kind.failure.ExecutionError? && !Retryable(policy, kind.failure, kind.attempt)
  }

  ghost predicate FatalEnds<P, E>(w: World<P, E>, c: Config<P, E>) {
    forall k :: 0 <= k < |c.st.events| && Fatal(w.retry, c.st.events[k].kind) ==>
      || (c.control.Closing? && c.control.outcome.StepStopped? && c.control.outcome.reason == UnrecoverableToolError
          && k == |c.st.events| - 1)
      || (c.control.Done? && c.st.stopReason == Some(UnrecoverableToolError) && k == |c.st.events| - 3)
  }

  ghost predicate Disciplined<P, E>(w: World<P, E>, c: Config<P, E>) {
    WellFormed(c) && RetriesFollow(w.retry, c.st.events) && FatalEnds(w, c)
  }

  /** The events of one attempt: created, started, settled, and the retry if one is due. */
  ghost predicate AttemptLogged<P, E>(w: World<P, E>, c: Config<P, E>, n: Config<P, E>, reply: ExecutorReply) {
    && c.control.Calling?
    && var m, attempt := |c.st.events|, c.control.attempts + 1;
    && |n.st.events| >= m + 3 && n.st.events[..m] == c.st.events
    && n.st.events[m].kind.CallCreated? && n.st.events[m + 1].kind.CallStarted?
    && match reply
       case ExecutorRaised =>
         && |n.st.events| == m + 3 && n.st.events[m + 2].kind == CallFailed(ExecutorException, attempt)
         && n.control.Closing? && n.control.outcome == StepStopped(UnrecoverableToolError, EXECUTOR_RAISED_ERROR)
       case Returned(result) =>
         if result.success then
           |n.st.events| == m + 3 && n.st.events[m + 2].kind == CallSucceeded(attempt)
         else
           && var failure := ClassifyToolFailure(result.error);
           && n.st.events[m + 2].kind == CallFailed(failure, attempt)
           && (if w.retry.ShouldRetry(failure, attempt)
               then |n.st.events| == m + 4 && n.st.events[m + 3].kind == RetryScheduled(attempt + 1)
               else |n.st.events| == m + 3
                    && (failure.ExecutionError?
                        || (n.control.Closing?
                            && n.control.outcome == StepStopped(UnrecoverableToolError, UNRECOVERABLE_ERROR))))
  }

  lemma BeginLogged(clock: nat -> int, st: RunState, stepId: string, request: PlannerDecision, attempts: nat)
    requires request.Call?
    ensures var begun, m := BeginAttempt(clock, st, stepId, request, attempts), |st.events|;
            && |begun.events| == m + 2 && begun.events[..m] == st.events
            && begun.events[m].kind.CallCreated? && begun.events[m + 1].kind.CallStarted?
  {
  }

  lemma ReplyLogged<P, E>(w: World<P, E>, c: Config<P, E>, begun: RunState, executor: E, reply: ExecutorReply)
    requires c.control.Calling? && c.control.request.Call?
    requires begun.calls != [] && c.control.i < |begun.steps| && begun.hasPlan
    requires |begun.events| == |c.st.events| + 2 && begun.events[..|c.st.events|] == c.st.events
    requires begun.events[|c.st.events|].kind.CallCreated? && begun.events[|c.st.events| + 1].kind.CallStarted?
    ensures AttemptLogged(w, c, Attempted(w, c, begun, executor, reply), reply)
  {
    hide ClassifyToolFailure, FailureText, RetryPolicy.ShouldRetry;
    if reply.ExecutorRaised? {
      RaiseLogged(w, c, begun, executor);
    } else {
      ResultLogged(w.clock, begun, begun.steps[c.control.i].stepId, c.control.attempts, reply.result);
      hide AbsorbResult;
    }
  }

  lemma ResultLogged(clock: nat -> int, begun: RunState, stepId: string, attempts: nat, result: ToolResult)
    requires begun.calls != []
    ensures var st := AbsorbResult(clock, begun, stepId, attempts, result);
            && st.calls != [] && |st.events| == |begun.events| + 1 && st.events[..|begun.events|] == begun.events
            && st.events[|begun.events|].kind == OutcomeKind(result, attempts + 1)
  {
  }

  lemma RaiseLogged<P, E>(w: World<P, E>, c: Config<P, E>, begun: RunState, executor: E)
    requires c.control.Calling? && c.control.request.Call?
    requires begun.calls != [] && c.control.i < |begun.steps| && begun.hasPlan
    requires |begun.events| == |c.st.events| + 2 && begun.events[..|c.st.events|] == c.st.events
    requires begun.events[|c.st.events|].kind.CallCreated? && begun.events[|c.st.events| + 1].kind.CallStarted?
    ensures AttemptLogged(w, c, Attempted(w, c, begun, executor, ExecutorRaised), ExecutorRaised)
  {
  }

  lemma AttemptIsLogged<P, E>(w: World<P, E>, c: Config<P, E>) returns (reply: ExecutorReply)
    requires WellFormed(c) && c.control.Calling? && Blocked(w, c.st, c.control.i).None?
    ensures AttemptLogged(w, c, Next(w, c), reply)
  {
    hide AttemptLogged, Attempted;
    var begun, executor, r := AttemptUnfolds(w, c);
    BeginLogged(w.clock, c.st, c.st.steps[c.control.i].stepId, c.control.request, c.control.attempts);
    ReplyLogged(w, c, begun, executor, r);
    reply := r;
  }

  /** Transitions other than attempts log neither failures nor retries. */
  ghost predicate QuietlyLogged<P, E>(c: Config<P, E>, n: Config<P, E>) {
    && c.st.events <= n.st.events
    && (forall k :: |c.st.events| <= k < |n.st.events| ==>
          !n.st.events[k].kind.CallFailed? && !n.st.events[k].kind.RetryScheduled?)
    && (c.control.Closing? && c.control.outcome.StepStopped? ==>
          |n.st.events| == |c.st.events| + 2 && n.control.Done? && n.st.stopReason == Some(c.control.outcome.reason))
  }

  lemma OthersLogQuietly<P, E>(w: World<P, E>, c: Config<P, E>)
    requires WellFormed(c) && !c.control.Done?
    requires c.control.Calling? ==> Blocked(w, c.st, c.control.i).Some?
    ensures QuietlyLogged(c, Next(w, c))
  {
    hide BeginAttempt, Attempted, Context;
    if c.control.Closing? { ClosesQuietly(w, c); }
  }

  lemma ClosesQuietly<P, E>(w: World<P, E>, c: Config<P, E>)
    requires WellFormed(c) && c.control.Closing?
    ensures QuietlyLogged(c, CloseStep(w, c))
  {
  }

  lemma ShouldRetryIsRetryable(policy: RetryPolicy, failure: FailureKind, attempt: nat)
    requires !failure.ExecutorException?
    ensures policy.ShouldRetry(failure, attempt) <==> Retryable(policy, failure, attempt)
  {
  }

  /** Old positions keep the rule when the first new event is no retry. */
  lemma OldFollow(policy: RetryPolicy, before: seq<Event>, after: seq<Event>, k: nat)
    requires before <= after && k < |before| && FollowsAt(policy, before, k)
    requires |before| < |after| ==> !after[|before|].kind.RetryScheduled?
    ensures FollowsAt(policy, after, k)
  {
    assert after[k] == before[k] && (k > 0 ==> after[k - 1] == before[k - 1]);
    if k + 1 < |before| {
      assert after[k + 1] == before[k + 1];
    }
  }

  lemma QuietKeeps<P, E>(w: World<P, E>, c: Config<P, E>, n: Config<P, E>)
    requires Disciplined(w, c) && !c.control.Done? && WellFormed(n) && QuietlyLogged(c, n)
    ensures Disciplined(w, n)
  {
    hide Retryable, KindAt;
    var before, after := c.st.events, n.st.events;
    forall k | 0 <= k < |after| ensures FollowsAt(w.retry, after, k) {
      if k < |before| {
        assert FollowsAt(w.retry, before, k);
        OldFollow(w.retry, before, after, k);
      }
    }
    forall k | 0 <= k < |before| ensures after[k] == before[k] {
    }
  }

  lemma AttemptKeeps<P, E>(w: World<P, E>, c: Config<P, E>, n: Config<P, E>, reply: ExecutorReply)
    requires Disciplined(w, c) && WellFormed(n) && AttemptLogged(w, c, n, reply)
    ensures Disciplined(w, n)
  {
    hide ClassifyToolFailure, Retryable;
    var before, after := c.st.events, n.st.events;
    if reply.Returned? {
      KnownKinds(reply.result.error);
      ShouldRetryIsRetryable(w.retry, ClassifyToolFailure(reply.result.error), c.control.attempts + 1);
    }
    ExceptionIsFinal(w.retry, c.control.attempts + 1);
    assert before <= after;
    forall k | 0 <= k < |after| ensures FollowsAt(w.retry, after, k) {
      if k < |before| {
        assert FollowsAt(w.retry, before, k);
        OldFollow(w.retry, before, after, k);
      }
    }
    forall k | 0 <= k < |before| ensures after[k] == before[k] {
      assert after[..|before|][k] == before[k];
    }
    KeepsFatal(w, c, n, reply);
  }

  lemma ExceptionIsFinal(policy: RetryPolicy, attempt: nat)
    ensures !Retryable(policy, ExecutorException, attempt)
  {
  }

  lemma KeepsFatal<P, E>(w: World<P, E>, c: Config<P, E>, n: Config<P, E>, reply: ExecutorReply)
    requires FatalEnds(w, c) && WellFormed(n) && AttemptLogged(w, c, n, reply)
    requires reply.Returned? && !reply.result.success ==>
               var failure := ClassifyToolFailure(reply.result.error);
               w.retry.ShouldRetry(failure, c.control.attempts + 1)
               <==> Retryable(w.retry, failure, c.control.attempts + 1)
    ensures FatalEnds(w, n)
  {
    hide ClassifyToolFailure, Retryable, RetryPolicy.ShouldRetry;
    var before, after := c.st.events, n.st.events;
    forall k | 0 <= k < |before| ensures !Fatal(w.retry, after[k].kind) {
      assert after[..|before|][k] == before[k];
    }
  }

  lemma KnownKinds(error: Option<string>)
    ensures !ClassifyToolFailure(error).ExecutorException?
  {
  }

  lemma NextDisciplined<P, E>(w: World<P, E>, c: Config<P, E>)
    requires Disciplined(w, c) && !c.control.Done?
    ensures Disciplined(w, Next(w, c))
  {
    hide RetriesFollow, FatalEnds, AttemptLogged, QuietlyLogged, Next;
    if c.control.Calling? && Blocked(w, c.st, c.control.i).None? {
      var reply := AttemptIsLogged(w, c);
      AttemptKeeps(w, c, Next(w, c), reply);
    } else {
      OthersLogQuietly(w, c);
      QuietKeeps(w, c, Next(w, c));
    }
  }

  lemma {:induction false} RunDisciplined<P, E>(w: World<P, E>, c: Config<P, E>)
    requires Disciplined(w, c)
    ensures Disciplined(w, RunToEnd(w, c))
    decreases c.control.Start?, !c.control.Done?, Measure(w, c)
  {
    if !c.control.Done? {
      NextDecreases(w, c);
      NextDisciplined(w, c);
      hide Next, Measure, RetriesFollow, FatalEnds;
      RunDisciplined(w, Next(w, c));
    }
  }

  /** In every finished run a failed call is followed by a retry if and only if its failure is retryable, and
      any other failure than a plain execution error, once not retried, is the last thing the run does: only
      the failed step and the failed run are logged after it. */
  lemma RetriesAreDisciplined<P, E>(w: World<P, E>, planner: P, executor: E, incidentId: string, ticks: nat,
                                    nextCall: nat)
    ensures var run := RunToEnd(w, Initial(w, planner, executor, incidentId, ticks, nextCall)).st;
            && RetriesFollow(w.retry, run.events)
            && forall k :: 0 <= k < |run.events| && Fatal(w.retry, run.events[k].kind) ==>
                 k == |run.events| - 3 && run.stopReason == Some(UnrecoverableToolError)
  {
    var c := Initial(w, planner, executor, incidentId, ticks, nextCall);
    assert Disciplined(w, c);
    hide Initial, RunToEnd;
    RunDisciplined(w, c);
  }

  // ----- how failures are told apart ----------------------------------------------------------

  /** The text begins, after `n` blanks, with the mark in any mixture of cases. */
  predicate MarkedAt(mark: string, text: string, n: nat) {
    && n + |mark| <= |text| && (forall j :: 0 <= j < n ==> IsSpace(text[j]))
    && Lower(text[n..n + |mark|]) == mark
  }

  predicate Marked(mark: string, text: string) {
    exists n: nat :: n <= |text| && MarkedAt(mark, text, n)
  }

  lemma {:induction false} StrippedAt(text: string) returns (n: nat)
    ensures n <= |text| && StripLeft(text) == text[n..]
    ensures (forall j :: 0 <= j < n ==> IsSpace(text[j])) && (n < |text| ==> !IsSpace(text[n]))
  {
    n := 0;
    if text != "" && IsSpace(text[0]) {
      var m := StrippedAt(text[1..]);
      n := m + 1;
      forall j | 0 <= j < n ensures IsSpace(text[j]) {
        if j > 0 { assert text[1..][j - 1] == text[j]; }
      }
    }
  }

  /** A mark that starts with a letter is a prefix of the stripped, lower-cased text iff the text is marked. */
  lemma PrefixIffMarked(mark: string, text: string)
    requires mark != "" && 'a' <= mark[0] <= 'z'
    ensures mark <= Lower(StripLeft(text)) <==> Marked(mark, text)
  {
    var n := StrippedAt(text);
    var rest := Lower(text[n..]);
    if mark <= rest {
      assert Lower(text[n..n + |mark|]) == rest[..|mark|];
      assert MarkedAt(mark, text, n);
    }
    if m: nat :| m <= |text| && MarkedAt(mark, text, m) {
      assert Lower(text[m..m + |mark|])[0] == LowerChar(text[m]) == mark[0];
      assert m == n;
      assert rest[..|mark|] == Lower(text[n..n + |mark|]);
    }
  }

  /** What the three kinds of failure are told apart by, for every error text: the two documented marks after
      any blanks and in any mixture of cases; everything else, and no text at all, is an execution error. */
  lemma FailureKinds(error: Option<string>)
    ensures ClassifyToolFailure(error).InvalidArguments? <==> error.Some? && Marked(INVALID_ARGUMENTS_MARK, error.value)
    ensures ClassifyToolFailure(error).UnknownTool? <==> error.Some? && Marked(UNKNOWN_TOOL_MARK, error.value)
    ensures !ClassifyToolFailure(error).ExecutorException?
  {
    hide Marked, Lower, StripLeft;
    var text := if error.Some? then error.value else "";
    PrefixIffMarked(INVALID_ARGUMENTS_MARK, text);
    PrefixIffMarked(UNKNOWN_TOOL_MARK, text);
    MarksDiffer(Lower(StripLeft(text)));
    NothingMarked(INVALID_ARGUMENTS_MARK);
    NothingMarked(UNKNOWN_TOOL_MARK);
  }

  lemma MarksDiffer(text: string)
    ensures !(INVALID_ARGUMENTS_MARK <= text && UNKNOWN_TOOL_MARK <= text)
  {
    assert INVALID_ARGUMENTS_MARK[0] == 'i' && UNKNOWN_TOOL_MARK[0] == 'u';
  }

  lemma NothingMarked(mark: string)
    requires mark != ""
    ensures !Marked(mark, "")
  {
  }
}
