/** The information gaps of a run: what is missing, never what is benign (app/reporting/summary.py). */
module InformationGaps {
  import opened Contracts
  import opened Extractor

  /** What a successful result says it did not find. */
  datatype Missing =
    | MatchingEvents | MatchingFlows | MatchingDns | MatchingFiles | MatchingReports | MatchingTechniques
    | FileReputation | IndicatorRecord | Assessment

  datatype Gap =
    | NoPlan
    | FailedStep(stepId: string)
    | FailedResult(resultId: string, toolName: string)
    | NothingFound(resultId: string, missing: Missing)
    | Unanswered(callId: string)
    | UnlinkedRecords(count: nat)
    | StoppedEarly(status: RuntimeStatus)
    | NoEvidence

  // ----- empty results ------------------------------------------------------------------------

  function PayloadOf(result: ToolResult): map<string, Value> {
    if result.data.Object? then result.data.fields else map[]
  }

  /** The count equals zero; so does a false flag. */
  predicate CountsZero(payload: map<string, Value>, key: string) {
    key in payload && (payload[key] == Number(0) || payload[key] == Flag(false))
  }

  /** A missing or empty value. */
  predicate Falsy(payload: map<string, Value>, key: string) {
    key !in payload ||
    match payload[key]
    case Null => true
    case Flag(b) => !b
    case Number(n) => n == 0
    case Text(s) => s == ""
    case Items(xs) => xs == []
    case Object(fields) => fields == map[]
  }

  predicate UnknownReputation(record: Value) {
    record.Object? && "reputation" in record.fields && record.fields["reputation"] == Text("unknown")
  }

  function When(c: bool, missing: Missing): seq<Missing> {
    if c then [missing] else []
  }

  /** What a tool's answer lacks, tool by tool. */
  function Lacking(toolName: string, payload: map<string, Value>): seq<Missing> {
    if toolName == SEARCH_ENDPOINT then When(CountsZero(payload, "count"), MatchingEvents)
    else if toolName == SEARCH_NETWORK then
      When(CountsZero(payload, "network_count"), MatchingFlows) + When(CountsZero(payload, "dns_count"), MatchingDns)
    else if toolName == LOOKUP_FILE then
      if CountsZero(payload, "count") then [MatchingFiles] else When(Falsy(payload, "reputations"), FileReputation)
    else if toolName == LOOKUP_IOC then
      if "found" in payload && payload["found"] == Flag(false) then [IndicatorRecord]
      else When("records" in payload && payload["records"].Items?
                && exists record :: record in payload["records"].xs && UnknownReputation(record), Assessment)
    else if toolName == SEARCH_CTI then
      When(CountsZero(payload, "cti_count"), MatchingReports)
        + When(CountsZero(payload, "technique_count"), MatchingTechniques)
    else []
  }

  /** The answer of the tool reports that this was not found. */
  predicate ReportsMissing(toolName: string, payload: map<string, Value>, missing: Missing) {
    match missing
    case MatchingEvents => toolName == SEARCH_ENDPOINT && CountsZero(payload, "count")
    case MatchingFlows => toolName == SEARCH_NETWORK && CountsZero(payload, "network_count")
    case MatchingDns => toolName == SEARCH_NETWORK && CountsZero(payload, "dns_count")
    case MatchingFiles => toolName == LOOKUP_FILE && CountsZero(payload, "count")
    case FileReputation => toolName == LOOKUP_FILE && !CountsZero(payload, "count") && Falsy(payload, "reputations")
    case IndicatorRecord => toolName == LOOKUP_IOC && "found" in payload && payload["found"] == Flag(false)
    case Assessment =>
      && toolName == LOOKUP_IOC && !("found" in payload && payload["found"] == Flag(false))
      && "records" in payload && payload["records"].Items?
      && exists record :: record in payload["records"].xs && UnknownReputation(record)
    case MatchingReports => toolName == SEARCH_CTI && CountsZero(payload, "cti_count")
    case MatchingTechniques => toolName == SEARCH_CTI && CountsZero(payload, "technique_count")
  }

  lemma ToolNamesDiffer()
    ensures SEARCH_ENDPOINT != SEARCH_NETWORK && SEARCH_ENDPOINT != LOOKUP_FILE && SEARCH_ENDPOINT != LOOKUP_IOC
    ensures SEARCH_ENDPOINT != SEARCH_CTI && SEARCH_NETWORK != LOOKUP_FILE && SEARCH_NETWORK != LOOKUP_IOC
    ensures SEARCH_NETWORK != SEARCH_CTI && LOOKUP_FILE != LOOKUP_IOC && LOOKUP_FILE != SEARCH_CTI
    ensures LOOKUP_IOC != SEARCH_CTI
  {
    assert SEARCH_ENDPOINT[7] == 'e' && SEARCH_NETWORK[7] == 'n' && SEARCH_CTI[7] == 'c' && SEARCH_CTI[0] == 's';
    assert LOOKUP_FILE[7] == 'f' && LOOKUP_IOC[7] == 'i';
  }

  /** What a tool's answer lacks is exactly what it reports as not found, each once. */
  lemma LackingAre(toolName: string, payload: map<string, Value>, missing: Missing)
    ensures missing in Lacking(toolName, payload) <==> ReportsMissing(toolName, payload, missing)
    ensures forall j, k :: 0 <= j < k < |Lacking(toolName, payload)| ==>
              Lacking(toolName, payload)[j] != Lacking(toolName, payload)[k]
  {
    hide CountsZero, Falsy, UnknownReputation;
    ToolNamesDiffer();
  }

  // ----- the gaps of a run ----------------------------------------------------------------------

  /** The tool of a result: that of the call it answers, or its own when there is no such call. */
  function ToolOf(calls: seq<ToolCall>, result: ToolResult): string {
    var call := CallOf(calls, result.callId);
    if call.Some? then call.value.toolName else result.toolName
  }

  function StepGaps(steps: seq<Step>): seq<Gap> {
    if steps == [] then []
    else
      var last := steps[|steps| - 1];
      StepGaps(steps[..|steps| - 1]) + if last.status.Failed? then [FailedStep(last.stepId)] else []
  }

  function PlanGaps(plan: Option<seq<Step>>): seq<Gap> {
    if plan.None? then [NoPlan] else StepGaps(plan.value)
  }

  function Absences(resultId: string, missing: seq<Missing>): seq<Gap> {
    seq(|missing|, k requires 0 <= k < |missing| => NothingFound(resultId, missing[k]))
  }

  function ResultGap(toolName: string, result: ToolResult): seq<Gap> {
    if !result.success then [FailedResult(result.resultId, toolName)]
    else Absences(result.resultId, Lacking(toolName, PayloadOf(result)))
  }

  function ResultGaps(calls: seq<ToolCall>, results: seq<ToolResult>): seq<Gap> {
    if results == [] then []
    else
      var last := results[|results| - 1];
      ResultGaps(calls, results[..|results| - 1]) + ResultGap(ToolOf(calls, last), last)
  }

  function AnsweredIds(results: seq<ToolResult>): set<string> {
    set result | result in results :: result.callId
  }

  function CallGaps(calls: seq<ToolCall>, answered: set<string>): seq<Gap> {
    if calls == [] then []
    else
      var last := calls[|calls| - 1];
      CallGaps(calls[..|calls| - 1], answered) + if last.callId !in answered then [Unanswered(last.callId)] else []
  }

  function OutcomeGaps(run: RunRecord, evidenceCount: nat, unlinkedCount: nat): seq<Gap> {
    (if unlinkedCount > 0 then [UnlinkedRecords(unlinkedCount)] else [])
    + (if run.status != RuntimeStatus.Completed then [StoppedEarly(run.status)] else [])
    + (if evidenceCount == 0 then [NoEvidence] else [])
  }

  function GapsOf(run: RunRecord, evidenceCount: nat, unlinkedCount: nat): seq<Gap> {
    PlanGaps(run.plan) + ResultGaps(run.calls, run.results) + CallGaps(run.calls, AnsweredIds(run.results))
    + OutcomeGaps(run, evidenceCount, unlinkedCount)
  }

  // ----- what each gap says ------------------------------------------------------------------------

  /** The run shows the gap. */
  ghost predicate RunShows(run: RunRecord, evidenceCount: nat, unlinkedCount: nat, gap: Gap) {
    match gap
    case NoPlan => run.plan.None?
    case FailedStep(stepId) =>
      run.plan.Some? && exists step :: step in run.plan.value && step.status.Failed? && step.stepId == stepId
    case FailedResult(resultId, toolName) =>
      exists result :: result in run.results && !result.success && result.resultId == resultId
                       && ToolOf(run.calls, result) == toolName
    case NothingFound(resultId, missing) =>
      exists result :: result in run.results && result.success && result.resultId == resultId
                       && ReportsMissing(ToolOf(run.calls, result), PayloadOf(result), missing)
    case Unanswered(callId) =>
      && (exists call :: call in run.calls && call.callId == callId)
      && forall result :: result in run.results ==> result.callId != callId
    case UnlinkedRecords(count) => count == unlinkedCount && count > 0
    case StoppedEarly(status) => status == run.status != RuntimeStatus.Completed
    case NoEvidence => evidenceCount == 0
  }

  lemma {:induction false} StepGapsAre(steps: seq<Step>, gap: Gap)
    ensures gap in StepGaps(steps)
            <==> gap.FailedStep?
                 && exists step :: step in steps && step.status.Failed? && step.stepId == gap.stepId
  {
    if steps != [] {
      var before, last := steps[..|steps| - 1], steps[|steps| - 1];
      assert steps == before + [last];
      StepGapsAre(before, gap);
      assert last in steps;
    }
  }

  /** The result shows the gap. */
  predicate ResultShows(calls: seq<ToolCall>, result: ToolResult, gap: Gap) {
    match gap
    case FailedResult(resultId, toolName) =>
      !result.success && result.resultId == resultId && ToolOf(calls, result) == toolName
    case NothingFound(resultId, missing) =>
      && result.success && result.resultId == resultId
      && ReportsMissing(ToolOf(calls, result), PayloadOf(result), missing)
    case _ => false
  }

  lemma ResultGapIs(calls: seq<ToolCall>, result: ToolResult, gap: Gap)
    ensures gap in ResultGap(ToolOf(calls, result), result) <==> ResultShows(calls, result, gap)
  {
    hide Lacking, ReportsMissing, ToolOf, PayloadOf;
    var missing := Lacking(ToolOf(calls, result), PayloadOf(result));
    var gaps := Absences(result.resultId, missing);
    if gap.NothingFound? {
      LackingAre(ToolOf(calls, result), PayloadOf(result), gap.missing);
      if gap in gaps {
        var k :| 0 <= k < |gaps| && gaps[k] == gap;
        assert missing[k] == gap.missing;
      }
      if gap.missing in missing && gap.resultId == result.resultId {
        var k :| 0 <= k < |missing| && missing[k] == gap.missing;
        assert gaps[k] == gap;
      }
    }
  }

  lemma {:induction false} ResultGapsAre(calls: seq<ToolCall>, results: seq<ToolResult>, gap: Gap)
    ensures gap in ResultGaps(calls, results)
            <==> exists result :: result in results && ResultShows(calls, result, gap)
  {
    hide ResultGap, ResultShows, ToolOf;
    if results != [] {
      var before, last := results[..|results| - 1], results[|results| - 1];
      assert results == before + [last];
      ResultGapsAre(calls, before, gap);
      ResultGapIs(calls, last, gap);
      assert last in results;
    }
  }

  lemma {:induction false} CallGapsAre(calls: seq<ToolCall>, answered: set<string>, gap: Gap)
    ensures gap in CallGaps(calls, answered)
            <==> gap.Unanswered? && gap.callId !in answered
                 && exists call :: call in calls && call.callId == gap.callId
  {
    if calls != [] {
      var before, last := calls[..|calls| - 1], calls[|calls| - 1];
      assert calls == before + [last];
      CallGapsAre(before, answered, gap);
      assert last in calls;
    }
  }

  /** The gap list says exactly what the run shows: no plan, failed steps, failed results, answers that report
      something missing, calls without a result, unlinked records, an early stop, no evidence. */
  lemma GapsAre(run: RunRecord, evidenceCount: nat, unlinkedCount: nat, gap: Gap)
    ensures gap in GapsOf(run, evidenceCount, unlinkedCount) <==> RunShows(run, evidenceCount, unlinkedCount, gap)
  {
    hide StepGaps, ResultGaps, CallGaps, ReportsMissing, ToolOf, PayloadOf;
    if run.plan.Some? { StepGapsAre(run.plan.value, gap); }
    ResultGapsAre(run.calls, run.results, gap);
    CallGapsAre(run.calls, AnsweredIds(run.results), gap);
  }

  // ----- when nothing is missing ------------------------------------------------------------------

  lemma {:induction false} NoStepGapsIff(steps: seq<Step>)
    ensures StepGaps(steps) == [] <==> forall step :: step in steps ==> !step.status.Failed?
  {
    if steps != [] {
      NoStepGapsIff(steps[..|steps| - 1]);
      assert steps == steps[..|steps| - 1] + [steps[|steps| - 1]];
    }
  }

  /** A result that succeeded and lacks nothing. */
  predicate Full(calls: seq<ToolCall>, result: ToolResult) {
    result.success && Lacking(ToolOf(calls, result), PayloadOf(result)) == []
  }

  lemma {:induction false} NoResultGapsIff(calls: seq<ToolCall>, results: seq<ToolResult>)
    ensures ResultGaps(calls, results) == [] <==> forall result :: result in results ==> Full(calls, result)
  {
    hide Lacking, ToolOf;
    if results != [] {
      var before, last := results[..|results| - 1], results[|results| - 1];
      NoResultGapsIff(calls, before);
      assert results == before + [last];
      assert ResultGap(ToolOf(calls, last), last) == [] <==> Full(calls, last);
    }
  }

  lemma {:induction false} NoCallGapsIff(calls: seq<ToolCall>, answered: set<string>)
    ensures CallGaps(calls, answered) == [] <==> forall call :: call in calls ==> call.callId in answered
  {
    if calls != [] {
      NoCallGapsIff(calls[..|calls| - 1], answered);
      assert calls == calls[..|calls| - 1] + [calls[|calls| - 1]];
    }
  }

  /** Every step, call and result of the run is as it should be. */
  ghost predicate Flawless(run: RunRecord) {
    && run.plan.Some? && run.status == RuntimeStatus.Completed
    && (forall step :: step in run.plan.value ==> !step.status.Failed?)
    && (forall result :: result in run.results ==> Full(run.calls, result))
    && (forall call :: call in run.calls ==> call.callId in AnsweredIds(run.results))
  }

  /** A run leaves no gap exactly when it completed a plan without a failed step, every call has a result,
      every result succeeded and lacks nothing, some evidence exists and all of it is linked. */
  lemma GapFreeIff(run: RunRecord, evidenceCount: nat, unlinkedCount: nat)
    ensures GapsOf(run, evidenceCount, unlinkedCount) == []
            <==> Flawless(run) && evidenceCount > 0 && unlinkedCount == 0
  {
    hide Full, AnsweredIds, StepGaps, ResultGaps, CallGaps;
    if run.plan.Some? { NoStepGapsIff(run.plan.value); }
    NoResultGapsIff(run.calls, run.results);
    NoCallGapsIff(run.calls, AnsweredIds(run.results));
  }
}
