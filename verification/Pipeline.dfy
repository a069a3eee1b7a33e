/** The stages composed: a run, its evidence, its summary, its findings, its verdict and its report
    (app/evidence/extractor.py, app/reporting/summary.py, app/reports/builder.py, app/runtime/runtime.py). */
module Pipeline {
  import opened Contracts
  import opened Dedup
  import opened Effects
  import opened EvidenceContracts
  import opened ExtractionLaws
  import opened Extractor
  import opened Findings
  import opened EvidenceIndexing
  import opened FindingRules
  import opened InformationGaps
  import opened LlmPlanner
  import opened Machine
  import opened Monotonicity
  import opened Noninterference
  import opened Queries
  import opened Reports
  import opened Safety
  import opened Summaries
  import opened SummaryLaws
  import opened TextOps
  import opened Verdicts
  import DecisionTrace
  import Lifecycle
  import LlmRuns

  /** The extraction of a run, as a value. */
  ghost predicate Extracted(x: DeterministicEvidenceExtractor, run: RunRecord, extraction: Extraction) {
    Built(extraction, TakeResults(x.ContextOf(run), run.calls, run.results).occs)
  }

  lemma ExtractionIsProper(x: DeterministicEvidenceExtractor, run: RunRecord, extraction: Extraction)
    requires Extracted(x, run, extraction)
    ensures extraction.Valid() && Proper(extraction.evidence)
  {
    hide TakeResults, Shaped, EvidenceOf, IsSourceIndex, Resolves, CaseIndicators;
    ExtractionIsSound(x.ContextOf(run), run.calls, run.results, extraction);
  }

  /** From any run record to its report. Every stage's validator holds on the way, the observations and the
      unlinked list partition the evidence, and the report accounts for every raw record. */
  method Investigate(x: DeterministicEvidenceExtractor, run: RunRecord, trace: seq<TraceEntry>)
    returns (extraction: Extraction, summary: Summary, report: FinalReport)
    ensures Extracted(x, run, extraction) && extraction.Valid()
    ensures summary == SummaryOf(x.ops, run, extraction.evidence) && summary.Valid()
    ensures multiset(ObservedIds(summary.observations)) + multiset(summary.unlinked)
            == multiset(EvidenceIds(extraction.evidence))
    ensures report == ReportOf(x.ops, run, extraction, summary, trace)
    ensures report.verdict == Judged(x, run, extraction) && report.findings == FindingsOf(x.ops, extraction.evidence)
    ensures report.status == summary.status == run.status && report.stopReason == summary.stopReason == run.stopReason
    ensures report.observations == summary.observations && report.informationGaps == summary.informationGaps
    ensures summary.toolCallCount == |run.calls| && summary.evidenceIds == EvidenceIds(extraction.evidence)
    ensures |report.evidenceIndex| == |extraction.evidence| && |report.traceRefs| == |trace|
    ensures report.Valid() && report.verdict.Valid() && forall f :: f in report.findings ==> f.Valid()
    ensures TotalSourceCount(report.evidenceIndex) == extraction.candidateCount
  {
    hide TakeResults, EvidenceOf, IsSourceIndex, Proper, Decide, FindingsOf, ObservationsOf, ObservedIds,
         CaseIndicators;
    hide FinalReport.Valid, Verdict.Valid, Finding.Valid, Summary.Valid, Extraction.Valid, EntriesOf, TotalSourceCount;
    hide GapsOf, TypeCounts;
    extraction := x.Extract(run);
    ExtractionIsProper(x, run, extraction);
    var summaries := new SummaryBuilder(x.ops);
    summary := summaries.Build(run, extraction.evidence);
    SummaryIsValid(x.ops, run, extraction.evidence);
    SummaryPartitionsEvidence(x.ops, run, extraction.evidence);
    var findingEngine := new FindingEngine(x.ops);
    var verdictEngine := new VerdictEngine(x.ops);
    var reports := new FinalReportBuilder(findingEngine, verdictEngine);
    report := reports.Build(run, extraction, summary, trace);
    ReportIsValid(x.ops, run, extraction, summary, trace);
    ReportConservesSources(extraction, TakeResults(x.ContextOf(run), run.calls, run.results).occs);
  }

  /** The verdict on a run's evidence: its completion and its gaps are those of the run itself. */
  ghost function Judged(x: DeterministicEvidenceExtractor, run: RunRecord, extraction: Extraction): Verdict {
    VerdictOf(x.ops, extraction.evidence, Finished(run),
              SummaryOf(x.ops, run, extraction.evidence).informationGaps == [])
  }

  /** Call and result of the run behind a row of the evidence index. */
  ghost predicate RowNames(run: RunRecord, callId: string, resultId: string) {
    exists call, result :: call in run.calls && result in run.results && result.success
                           && result.callId == call.callId == callId && result.resultId == resultId
  }

  lemma ResolvedIsNamed(run: RunRecord, r: SourceReference)
    requires Resolves(r, run.calls, run.results)
    ensures RowNames(run, r.callId, r.resultId)
  {
    var call, result :|
      && call in run.calls && result in run.results && result.success && result.callId == call.callId
      && r.callId == call.callId && r.resultId == result.resultId && r.sourceName == call.toolName;
  }

  /** What a row says of its item and its references. */
  ghost predicate RowOf(row: IndexEntry, item: Evidence, references: seq<SourceReference>) {
    && row.evidenceId == item.evidenceId && row.evidenceType == item.evidenceType
    && row.callId == item.provenance.callId && row.resultId == item.provenance.resultId
    && row.rawRef == item.provenance.rawRef
    && references != [] && references[0] == item.provenance
    && |row.additionalSources| == |references| - 1
    && forall j :: 0 <= j < |references| - 1 ==>
         row.additionalSources[j] == references[j + 1].callId + "/" + references[j + 1].resultId
  }

  /** Every row of a report's evidence index names a successful result of the run and the call it answers, and so does
      each of its additional sources; the first source is the primary one. */
  lemma RowsResolve(x: DeterministicEvidenceExtractor, run: RunRecord, extraction: Extraction, n: nat)
    requires Extracted(x, run, extraction) && n < |extraction.evidence|
    ensures var item, row := extraction.evidence[n], EntriesOf(extraction, |extraction.evidence|)[n];
            var references := SourcesOf(extraction, item.evidenceId);
            && RowOf(row, item, references) && RowNames(run, row.callId, row.resultId)
            && forall r :: r in references ==> RowNames(run, r.callId, r.resultId)
  {
    hide TakeResults, RowNames, CaseIndicators, EvidenceOf, IsSourceIndex;
    var item := extraction.evidence[n];
    SourcesOfItem(extraction, TakeResults(x.ContextOf(run), run.calls, run.results).occs, n);
    SourcesNamed(x, run, extraction, item.evidenceId);
    assert item.provenance in SourcesOf(extraction, item.evidenceId);
  }

  lemma SourcesNamed(x: DeterministicEvidenceExtractor, run: RunRecord, extraction: Extraction, id: string)
    requires Extracted(x, run, extraction)
    ensures forall r :: r in SourcesOf(extraction, id) ==> RowNames(run, r.callId, r.resultId)
  {
    hide TakeResults, Shaped, EvidenceOf, IsSourceIndex, Resolves, CaseIndicators, RowNames, Extraction.Valid;
    ExtractionIsSound(x.ContextOf(run), run.calls, run.results, extraction);
    forall r | r in SourcesOf(extraction, id) ensures RowNames(run, r.callId, r.resultId) {
      ResolvedIsNamed(run, r);
    }
  }

  lemma SourcesOfItem(extraction: Extraction, occs: seq<Occurrence>, n: nat)
    requires Built(extraction, occs) && n < |extraction.evidence|
    ensures var item := extraction.evidence[n];
            && item.evidenceId in extraction.sources
            && extraction.sources[item.evidenceId] != [] && extraction.sources[item.evidenceId][0] == item.provenance
  {
    hide Identities, Of, EvidenceId;
    ItemIsFaithful(occs, n);
    SourcesExist(occs, n);
  }

  /** A decision trace correlated with the run refers to existing calls only: every call id in the report is
      that of a call of the run with the decision's tool, in the step the reference names. */
  lemma TraceRefsResolve(entries: seq<TraceEntry>, calls: seq<ToolCall>, trace: seq<TraceEntry>, k: nat)
    returns (call: ToolCall)
    requires k < |entries| == |trace| && trace[k] == DecisionTrace.Correlated(entries, calls, k)
    requires entries[k].callId.None? && RefsOf(trace)[k].callId.Some?
    ensures call in calls && RefsOf(trace)[k].callId == Some(call.callId)
    ensures RefsOf(trace)[k].selectedTool == Some(call.toolName)
    ensures call.stepId != "" ==> RefsOf(trace)[k].stepId == call.stepId
  {
    var key := DecisionTrace.EntryKey(entries[k]);
    var p := DecisionTrace.CallBehind(calls, key, DecisionTrace.Occurs(LlmRuns.CallKeys(entries[..k]), key));
    call := calls[p];
  }

  // ----- a run that goes on -------------------------------------------------------------------

  lemma ShapedAlike(e: Evidence, f: Evidence)
    requires Shaped(e) && Shaped(f) && f == e.(tags := f.tags, provenance := f.provenance)
    ensures Alike(e, f)
  {
  }

  /** A later state of a run only adds evidence. */
  lemma ContinuationGrows(x: DeterministicEvidenceExtractor, run: RunRecord, later: RunRecord, extraction: Extraction,
                          more: Extraction)
    requires Continues(run, later) && Extracted(x, run, extraction) && Extracted(x, later, more)
    ensures Grows(extraction.evidence, more.evidence)
  {
    hide TakeResults, Shaped, EvidenceOf, IsSourceIndex, Continues, Alike, Extraction.Valid, CaseIndicators;
    ExtractionIsProper(x, run, extraction);
    ExtractionIsProper(x, later, more);
    ValidIsUnique(extraction);
    ValidIsUnique(more);
    forall e | e in extraction.evidence ensures exists f :: f in more.evidence && Alike(e, f) {
      var n :| 0 <= n < |extraction.evidence| && extraction.evidence[n] == e;
      ExtractionIsStable(x, run, later, extraction, more, n);
      var f := more.evidence[n];
      assert f in more.evidence;
      ShapedAlike(e, f);
    }
  }

  lemma ValidIsUnique(extraction: Extraction)
    requires extraction.Valid()
    ensures UniqueIds(extraction.evidence)
  {
  }

  /** Appending tool results to a run never lowers the disposition, although it may change the tags of the
      evidence already there and the run may complete in between. */
  lemma MoreResultsNeverLower(x: DeterministicEvidenceExtractor, run: RunRecord, later: RunRecord,
                              extraction: Extraction, more: Extraction)
    requires Continues(run, later) && Extracted(x, run, extraction) && Extracted(x, later, more)
    requires Finished(run) ==> Finished(later)
    ensures Judged(x, run, extraction).disposition.Rank() <= Judged(x, later, more).disposition.Rank()
  {
    hide Extracted, Continues, VerdictOf, Grows, SummaryOf, Finished;
    ContinuationGrows(x, run, later, extraction, more);
    VerdictIsMonotone(x.ops, extraction.evidence, more.evidence, Finished(run), Finished(later),
                      SummaryOf(x.ops, run, extraction.evidence).informationGaps == [],
                      SummaryOf(x.ops, later, more.evidence).informationGaps == []);
  }

  // ----- along the runtime ---------------------------------------------------------------------

  function RecordOf<P, E>(w: World<P, E>, st: RunState): RunRecord {
    RunRecord(w.alert, if st.hasPlan then Some(st.steps) else None, st.calls, st.results, st.status, st.stopReason)
  }

  ghost predicate Extends(before: RunState, after: RunState) {
    before.calls <= after.calls && before.results <= after.results
  }

  lemma NextExtends<P, E>(w: World<P, E>, c: Config<P, E>)
    requires WellFormed(c) && !c.control.Done?
    ensures Extends(c.st, Next(w, c).st)
  {
    hide Next;
    if c.control.Calling? && Blocked(w, c.st, c.control.i).None? {
      var begun, reply := AttemptEffect(w, c);
    } else {
      OtherStepsKeepCalls(w, c);
    }
  }

  lemma {:induction false} RunExtends<P, E>(w: World<P, E>, c: Config<P, E>)
    requires WellFormed(c)
    ensures Extends(c.st, RunToEnd(w, c).st)
    decreases c.control.Start?, !c.control.Done?, Measure(w, c)
  {
    if !c.control.Done? {
      NextDecreases(w, c);
      NextExtends(w, c);
      hide Next, Measure;
      RunExtends(w, Next(w, c));
    }
  }

  lemma {:induction false} CallFound(calls: seq<ToolCall>, k: nat)
    requires k < |calls| && forall j :: 0 <= j < |calls| && j != k ==> calls[j].callId != calls[k].callId
    ensures CallOf(calls, calls[k].callId) == Some(calls[k])
  {
    if k < |calls| - 1 {
      var front := calls[..|calls| - 1];
      assert front[k] == calls[k];
      CallFound(front, k);
    }
  }

  lemma RecordedCallFound<P, E(!new)>(w: World<P, E>, c: Config<P, E>, base: nat, k: nat)
    requires Conserved(w, c, base) && k < |c.st.calls|
    ensures CallOf(c.st.calls, c.st.calls[k].callId) == Some(c.st.calls[k])
  {
    hide Conserved;
    forall j | 0 <= j < |c.st.calls| && j != k ensures c.st.calls[j].callId != c.st.calls[k].callId {
      if c.st.calls[j].callId == c.st.calls[k].callId {
        CallIdsDistinct(w, c, base, j, k);
      }
    }
    CallFound(c.st.calls, k);
  }

  /** From any point of a run to its end, the record continues, provided results carry their call's id. */
  lemma RunContinues<P, E(!new)>(w: World<P, E>, c: Config<P, E>, base: nat)
    requires WellFormed(c) && Conserved(w, c, base) && Echoes(w)
    ensures Continues(RecordOf(w, c.st), RecordOf(w, RunToEnd(w, c).st))
  {
    hide RunToEnd, Echoes;
    var end := RunToEnd(w, c);
    RunExtends(w, c);
    RunConserves(w, c, base);
    forall r | r in c.st.results ensures CallOf(c.st.calls, r.callId) == CallOf(end.st.calls, r.callId) {
      var k :| 0 <= k < |c.st.results| && c.st.results[k] == r;
      assert r.callId == c.st.calls[k].callId;
      RecordedCallFound(w, c, base, k);
      RecordedCallFound(w, end, base, k);
      assert end.st.calls[k] == c.st.calls[k];
    }
  }

  /** A run that goes on has no stop reason yet. */
  predicate OpenOrDone<P, E>(c: Config<P, E>) {
    c.control.Done? || c.st.stopReason.None?
  }

  lemma NextOpenOrDone<P, E>(w: World<P, E>, c: Config<P, E>)
    requires WellFormed(c) && !c.control.Done? && OpenOrDone(c)
    ensures OpenOrDone(Next(w, c))
  {
    if c.control.Calling? && Blocked(w, c.st, c.control.i).None? {
      var begun, executor, reply := AttemptUnfolds(w, c);
    }
  }

  lemma StartsConserved<P, E(!new)>(w: World<P, E>, planner: P, executor: E, incidentId: string, ticks: nat,
                                    nextCall: nat)
    ensures var start := Initial(w, planner, executor, incidentId, ticks, nextCall);
            Conserved(w, start, nextCall) && OpenOrDone(start)
  {
  }

  lemma {:induction false} AfterConserves<P, E(!new)>(w: World<P, E>, c: Config<P, E>, base: nat, n: nat)
    requires WellFormed(c) && Conserved(w, c, base) && OpenOrDone(c)
    ensures Conserved(w, After(w, c, n), base) && OpenOrDone(After(w, c, n))
    decreases n
  {
    hide Next, Conserved, OpenOrDone;
    if n > 0 && !c.control.Done? {
      NextConserves(w, c, base);
      NextOpenOrDone(w, c);
      AfterConserves(w, Next(w, c), base, n - 1);
    }
  }

  /** At whatever point of a run its evidence is judged, going on to the end never lowers the disposition;
      at either point the run counts as completed only if it is. */
  lemma GoingOnNeverLowers<P, E(!new)>(w: World<P, E>, planner: P, executor: E, incidentId: string, ticks: nat,
                                       nextCall: nat, n: nat, x: DeterministicEvidenceExtractor, extraction: Extraction,
                                       final: Extraction)
    requires Echoes(w)
    requires var start := Initial(w, planner, executor, incidentId, ticks, nextCall);
             && Extracted(x, RecordOf(w, After(w, start, n).st), extraction)
             && Extracted(x, RecordOf(w, RunToEnd(w, start).st), final)
    ensures var start := Initial(w, planner, executor, incidentId, ticks, nextCall);
            Judged(x, RecordOf(w, After(w, start, n).st), extraction).disposition.Rank()
            <= Judged(x, RecordOf(w, RunToEnd(w, start).st), final).disposition.Rank()
  {
    hide Extracted, Continues, Conserved, RunToEnd, After, Initial, Echoes, Judged;
    var start := Initial(w, planner, executor, incidentId, ticks, nextCall);
    StartsConserved(w, planner, executor, incidentId, ticks, nextCall);
    AfterConserves(w, start, nextCall, n);
    AfterReachesEnd(w, start, n);
    var c := After(w, start, n);
    RunContinues(w, c, nextCall);
    if c.control.Done? { AtEnd(w, c); }
    MoreResultsNeverLower(x, RecordOf(w, c.st), RecordOf(w, RunToEnd(w, start).st), extraction, final);
  }

  // ----- how sure a benign verdict is -----------------------------------------------------------

  lemma BenignMeans(ops: TextOps, evidence: seq<Evidence>, completed: bool, noGaps: bool)
    requires VerdictOf(ops, evidence, completed, noGaps).disposition.Benign?
    ensures completed && evidence != []
    ensures VerdictOf(ops, evidence, completed, noGaps).confidence.HighConfidence? <==> noGaps
  {
    hide FindingsOf, PairsOf, Picked;
  }

  lemma {:induction false} NoneFailedIff(calls: seq<ToolCall>)
    ensures CountFailed(calls) == 0 <==> forall k :: 0 <= k < |calls| ==> !calls[k].status.Failed?
  {
    if calls != [] { NoneFailedIff(calls[..|calls| - 1]); }
  }

  /** Each result succeeded and its tool found something, call by call. */
  predicate AllFound(st: RunState) {
    && |st.results| == |st.calls|
    && forall k :: 0 <= k < |st.results| ==> Lacking(st.calls[k].toolName, PayloadOf(st.results[k])) == []
  }

  /** A completed run is flawless exactly when no attempt failed and every tool found something. */
  lemma CompletedIsFlawlessIff<P, E(!new)>(w: World<P, E>, planner: P, executor: E, incidentId: string, ticks: nat,
                                           nextCall: nat)
    requires Echoes(w)
    requires RunToEnd(w, Initial(w, planner, executor, incidentId, ticks, nextCall)).st.stopReason
             == Some(StopReason.Completed)
    ensures var st := RunToEnd(w, Initial(w, planner, executor, incidentId, ticks, nextCall)).st;
            Flawless(RecordOf(w, st)) <==> st.totalFailures == 0 && AllFound(st)
  {
    hide RunToEnd, Initial, Conserved, Lacking, Echoes;
    var start := Initial(w, planner, executor, incidentId, ticks, nextCall);
    StartsConserved(w, planner, executor, incidentId, ticks, nextCall);
    var end := RunToEnd(w, start);
    var st, run := end.st, RecordOf(w, end.st);
    RunConserves(w, start, nextCall);
    RunsStayWithinBudget(w, planner, executor, incidentId, ticks, nextCall);
    CallsAndResultsCorrespond(w, planner, executor, incidentId, ticks, nextCall);
    NoneFailedIff(st.calls);
    StepsAllCompleted(w, planner, executor, incidentId, ticks, nextCall);
    forall k | 0 <= k < |st.results|
      ensures Full(run.calls, st.results[k])
              <==> st.results[k].success && Lacking(st.calls[k].toolName, PayloadOf(st.results[k])) == []
      ensures st.calls[k].callId in AnsweredIds(st.results)
    {
      RecordedCallFound(w, end, nextCall, k);
      assert st.results[k] in st.results;
    }
    FlawlessByIndex(run);
  }

  /** Membership in the lists of a run, by index. */
  lemma FlawlessByIndex(run: RunRecord)
    requires run.plan.Some? && run.status == RuntimeStatus.Completed
    requires forall step :: step in run.plan.value ==> !step.status.Failed?
    requires forall k :: 0 <= k < |run.calls| ==> run.calls[k].callId in AnsweredIds(run.results)
    ensures Flawless(run) <==> forall k :: 0 <= k < |run.results| ==> Full(run.calls, run.results[k])
  {
    hide Full, AnsweredIds;
  }

  lemma StepsAllCompleted<P, E>(w: World<P, E>, planner: P, executor: E, incidentId: string, ticks: nat, nextCall: nat)
    requires RunToEnd(w, Initial(w, planner, executor, incidentId, ticks, nextCall)).st.stopReason
             == Some(StopReason.Completed)
    ensures var run := RecordOf(w, RunToEnd(w, Initial(w, planner, executor, incidentId, ticks, nextCall)).st);
            && run.plan.Some? && run.status == RuntimeStatus.Completed
            && forall step :: step in run.plan.value ==> step.status.Completed?
  {
    hide RunToEnd, Initial;
    Lifecycle.AllStepsCompleted(w, planner, executor, incidentId, ticks, nextCall);
  }

  lemma AllLinkedIff(ops: TextOps, evidence: seq<Evidence>)
    ensures |Select(ops, evidence, UnlinkedKnowledge)| == 0 <==> forall e :: e in evidence ==> TAG_UNLINKED !in e.tags
  {
    hide Select;
    var unlinked := Select(ops, evidence, UnlinkedKnowledge);
    if unlinked != [] {
      Selected(ops, evidence, UnlinkedKnowledge, unlinked[0]);
    }
    forall e | e in evidence && TAG_UNLINKED in e.tags ensures unlinked != [] {
      Selected(ops, evidence, UnlinkedKnowledge, e);
    }
  }

  /** A benign verdict on a run is of high confidence exactly when no attempt of the run failed, retried or
      not, every tool found something, and all of the evidence is linked to the case. */
  lemma BenignIsSureIff<P, E(!new)>(w: World<P, E>, planner: P, executor: E, incidentId: string, ticks: nat,
                                    nextCall: nat, x: DeterministicEvidenceExtractor, extraction: Extraction)
    requires Echoes(w)
    requires var st := RunToEnd(w, Initial(w, planner, executor, incidentId, ticks, nextCall)).st;
             Extracted(x, RecordOf(w, st), extraction) && Judged(x, RecordOf(w, st), extraction).disposition.Benign?
    ensures var st := RunToEnd(w, Initial(w, planner, executor, incidentId, ticks, nextCall)).st;
            Judged(x, RecordOf(w, st), extraction).confidence.HighConfidence?
            <==> st.totalFailures == 0 && AllFound(st)
                 && forall e :: e in extraction.evidence ==> TAG_UNLINKED !in e.tags
  {
    hide RunToEnd, Initial, Extracted, GapsOf, Flawless, AllFound, VerdictOf, ObservationsOf, TypeCounts, Select,
         Echoes;
    var st := RunToEnd(w, Initial(w, planner, executor, incidentId, ticks, nextCall)).st;
    var run, evidence := RecordOf(w, st), extraction.evidence;
    var unlinked := Select(x.ops, evidence, UnlinkedKnowledge);
    BenignMeans(x.ops, evidence, Finished(run), SummaryOf(x.ops, run, evidence).informationGaps == []);
    CompletedIsFlawlessIff(w, planner, executor, incidentId, ticks, nextCall);
    GapFreeIff(run, |evidence|, |unlinked|);
    AllLinkedIff(x.ops, evidence);
  }
}
