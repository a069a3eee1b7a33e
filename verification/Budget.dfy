/** Hard limits and the retry decision (app/runtime/budget.py, app/runtime/retry.py). */
module Budget {
  import opened Contracts

  type Positive = n: int | n >= 1 witness 1

  datatype InvestigationBudget = InvestigationBudget(
    maxSteps: Positive, maxToolCalls: Positive, maxToolCallsPerStep: Positive, maxFailures: Positive)
  {
    function StopReasonForStepStart(stepsStarted: nat): Option<StopReason> {
      if stepsStarted >= maxSteps then Some(MaxStepsExceeded) else None
    }

    function StopReasonForToolCall(totalToolCalls: nat, callsInStep: nat): Option<StopReason> {
      if totalToolCalls >= maxToolCalls then Some(MaxToolCallsExceeded)
      else if callsInStep >= maxToolCallsPerStep then Some(MaxToolCallsPerStepExceeded)
      else None
    }

    function StopReasonForFailures(totalToolFailures: nat): Option<StopReason> {
      if totalToolFailures >= maxFailures then Some(ToolFailureLimit) else None
    }

    /** The combined check in front of every attempt; the call limits win over the failure limit. */
    function Block(totalToolCalls: nat, callsInStep: nat, totalToolFailures: nat): Option<StopReason> {
      var byCalls := StopReasonForToolCall(totalToolCalls, callsInStep);
      if byCalls.Some? then byCalls else StopReasonForFailures(totalToolFailures)
    }
  }

  const DEFAULT_BUDGET := InvestigationBudget(8, 20, 5, 5)

  const INVALID_ARGUMENTS_MARK := "invalid arguments for tool"
  const UNKNOWN_TOOL_MARK := "unknown tool"

  function LowerChar(c: char): char {
    if 'A' <= c <= 'Z' then c - 'A' + 'a' else c
  }

  function Lower(s: string): string {
    seq(|s|, i requires 0 <= i < |s| => LowerChar(s[i]))
  }

  function StripLeft(s: string): string {
    if s != "" && IsSpace(s[0]) then StripLeft(s[1..]) else s
  }

  /** Missing and unrecognised messages count as recoverable execution errors. */
  function ClassifyToolFailure(error: Option<string>): FailureKind {
    var text := Lower(StripLeft(if error.Some? then error.value else ""));
    if INVALID_ARGUMENTS_MARK <= text then InvalidArguments
    else if UNKNOWN_TOOL_MARK <= text then UnknownTool
    else ExecutionError
  }

  datatype RetryPolicy = RetryPolicy(
    maxAttempts: Positive, retryToolErrors: bool, retryInvalidArguments: bool)
  {
    predicate ShouldRetry(failure: FailureKind, attempts: nat) {
      if attempts >= maxAttempts then false
      else match failure
        case UnknownTool => false
        case InvalidArguments => retryInvalidArguments
        case _ => retryToolErrors
    }
  }

  const DEFAULT_RETRY := RetryPolicy(2, true, false)
}
