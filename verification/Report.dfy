/** The final report (app/reports/builder.py, app/reports/contracts.py). */
module Reports {
  import opened Contracts
  import opened Dedup
  import opened EvidenceContracts
  import opened EvidenceIndexing
  import opened Extractor
  import opened Findings
  import opened FindingLaws
  import opened FindingRules
  import opened InformationGaps
  import opened LlmPlanner
  import opened Monotonicity
  import opened Summaries
  import opened TextOps
  import opened Verdicts
  import opened VerdictLaws

  /** One row of the audit trail. */
  datatype IndexEntry = IndexEntry(
    evidenceId: string, evidenceType: EvidenceType, callId: string, resultId: string, rawRef: string,
    sourceCount: nat, additionalSources: seq<string>)

  /** The link from one decision of the planner to the call it is said to have produced. */
  datatype TraceRef = TraceRef(
    decisionId: string, stepId: string, action: PlannerAction, selectedTool: Option<string>, status: TraceStatus,
    callId: Option<string>)

  datatype FinalReport = FinalReport(
    status: RuntimeStatus, stopReason: Option<StopReason>, findings: seq<Finding>, verdict: Verdict,
    observations: seq<Observation>, informationGaps: seq<Gap>, evidenceIndex: seq<IndexEntry>,
    traceRefs: seq<TraceRef>)
  {
    ghost predicate Indexed(id: string) {
      exists k :: 0 <= k < |evidenceIndex| && evidenceIndex[k].evidenceId == id
    }

    /** The contract checked on construction: nothing cited is unknown. */
    ghost predicate Valid() {
      && (forall f, id :: f in findings && id in f.evidenceIds ==> Indexed(id))
      && (forall id :: id in verdict.counter ==> Indexed(id))
      && (forall id :: id in verdict.supporting ==> id in FindingIds(findings))
    }
  }

  function SourcesOf(extraction: Extraction, id: string): seq<SourceReference> {
    if id in extraction.sources then extraction.sources[id] else []
  }

  function EntryOf(extraction: Extraction, item: Evidence): IndexEntry {
    var references := SourcesOf(extraction, item.evidenceId);
    var rest := if references == [] then [] else references[1..];
    IndexEntry(item.evidenceId, item.evidenceType, item.provenance.callId, item.provenance.resultId,
               item.provenance.rawRef, if references == [] then 1 else |references|,
               seq(|rest|, k requires 0 <= k < |rest| => rest[k].callId + "/" + rest[k].resultId))
  }

  function EntriesOf(extraction: Extraction, n: nat): (r: seq<IndexEntry>)
    requires n <= |extraction.evidence|
    ensures |r| == n
  {
    seq(n, k requires 0 <= k < n => EntryOf(extraction, extraction.evidence[k]))
  }

  const UNKNOWN_STEP := "STEP-UNKNOWN"

  function RefOf(entry: TraceEntry): TraceRef {
    TraceRef(entry.decisionId,
             if entry.stepId.None? || entry.stepId.value == "" then UNKNOWN_STEP else entry.stepId.value,
             entry.action, entry.selectedTool, entry.status, entry.callId)
  }

  function RefsOf(trace: seq<TraceEntry>): seq<TraceRef> {
    seq(|trace|, k requires 0 <= k < |trace| => RefOf(trace[k]))
  }

  ghost function ReportOf(ops: TextOps, run: RunRecord, extraction: Extraction, summary: Summary,
                          trace: seq<TraceEntry>): FinalReport
  {
    var findings := FindingsOf(ops, extraction.evidence);
    FinalReport(run.status, run.stopReason, findings,
                Decide(ops, extraction.evidence, findings, Finished(run), summary.informationGaps == []),
                summary.observations, summary.informationGaps, EntriesOf(extraction, |extraction.evidence|),
                RefsOf(trace))
  }

  class FinalReportBuilder {
    const findingEngine: FindingEngine
    const verdictEngine: VerdictEngine

    constructor (findingEngine: FindingEngine, verdictEngine: VerdictEngine)
      ensures this.findingEngine == findingEngine && this.verdictEngine == verdictEngine
    {
      this.findingEngine, this.verdictEngine := findingEngine, verdictEngine;
    }

    method BuildEvidenceIndex(extraction: Extraction) returns (entries: seq<IndexEntry>)
      ensures entries == EntriesOf(extraction, |extraction.evidence|)
    {
      hide EntryOf;
      entries := [];
      for n := 0 to |extraction.evidence|
        invariant |entries| == n
        invariant forall k :: 0 <= k < n ==> entries[k] == EntryOf(extraction, extraction.evidence[k])
      {
        entries := entries + [EntryOf(extraction, extraction.evidence[n])];
      }
    }

    /** The report of one finished investigation; every lookup on the way succeeds. */
    method Build(run: RunRecord, extraction: Extraction, summary: Summary, trace: seq<TraceEntry>)
      returns (report: FinalReport)
      requires extraction.Valid() && findingEngine.ops == verdictEngine.ops
      modifies findingEngine
      ensures report == ReportOf(findingEngine.ops, run, extraction, summary, trace)
    {
      hide FindingsOf, Decide, Extraction.Valid, Resolvable, PairingFails;
      var findings := findingEngine.Build(extraction);
      FindingsResolve(findingEngine.ops, extraction);
      ResolvableNeverFails(findingEngine.ops, extraction.evidence, findings);
      var verdict := verdictEngine.Build(run, extraction, summary, findings);
      var entries := BuildEvidenceIndex(extraction);
      report := FinalReport(run.status, run.stopReason, findings, verdict.value, summary.observations,
                            summary.informationGaps, entries, RefsOf(trace));
    }

    lemma FindingsResolve(ops: TextOps, extraction: Extraction)
      requires extraction.Valid()
      ensures Resolvable(extraction.evidence, FindingsOf(ops, extraction.evidence))
    {
      hide Drafts, FindingsFrom, AllKnown, DraftKeys;
      FindingsAreGrounded(ops, extraction.evidence);
    }
  }

  // ----- validity ------------------------------------------------------------------------------

  lemma KnownIsIndexed(ops: TextOps, report: FinalReport, extraction: Extraction, id: string)
    requires report.evidenceIndex == EntriesOf(extraction, |extraction.evidence|)
             && id in EvidenceIds(extraction.evidence)
    ensures report.Indexed(id)
  {
    var k :| 0 <= k < |extraction.evidence| && EvidenceIds(extraction.evidence)[k] == id;
    assert report.evidenceIndex[k].evidenceId == id;
  }

  lemma KnownId(evidence: seq<Evidence>, id: string)
    requires ItemById(evidence, id).Some?
    ensures id in EvidenceIds(evidence)
  {
    var e := ItemById(evidence, id).value;
    var k :| 0 <= k < |evidence| && evidence[k] == e;
    assert EvidenceIds(evidence)[k] == id;
  }

  lemma FindingsWellFormed(ops: TextOps, evidence: seq<Evidence>)
    requires UniqueIds(evidence)
    ensures forall f :: f in FindingsOf(ops, evidence) ==> f.Valid() && AllKnown(evidence, f.evidenceIds)
    ensures DistinctIds(FindingsOf(ops, evidence))
  {
    hide Drafts, FindingsFrom, AllKnown, DraftKeys, Finding.Valid;
    FindingsAreGrounded(ops, evidence);
  }

  /** For every valid extraction and every outcome of the run, the report and everything in it passes its
      validators: no dangling evidence or finding id, and support where the disposition requires it. */
  lemma ReportIsValid(ops: TextOps, run: RunRecord, extraction: Extraction, summary: Summary, trace: seq<TraceEntry>)
    requires extraction.Valid()
    ensures var report := ReportOf(ops, run, extraction, summary, trace);
            report.Valid() && report.verdict.Valid() && forall f :: f in report.findings ==> f.Valid()
  {
    hide FindingsOf, Decide, EntriesOf, ItemById, EvidenceIds, RefsOf;
    var evidence, findings := extraction.evidence, FindingsOf(ops, extraction.evidence);
    var report := ReportOf(ops, run, extraction, summary, trace);
    FindingsWellFormed(ops, evidence);
    VerdictIsValid(ops, evidence, findings, Finished(run), summary.informationGaps == []);
    forall f, id | f in findings && id in f.evidenceIds ensures report.Indexed(id) {
      KnownId(evidence, id);
      KnownIsIndexed(ops, report, extraction, id);
    }
    forall id | id in report.verdict.counter ensures report.Indexed(id) {
      KnownIsIndexed(ops, report, extraction, id);
    }
  }

  function TotalSourceCount(entries: seq<IndexEntry>): nat {
    if entries == [] then 0 else TotalSourceCount(entries[..|entries| - 1]) + entries[|entries| - 1].sourceCount
  }

  lemma {:induction false} EntriesCount(extraction: Extraction, n: nat)
    requires extraction.Valid() && n <= |extraction.evidence|
    ensures TotalSourceCount(EntriesOf(extraction, n)) == ReferenceCount(extraction, n)
  {
    if n > 0 {
      EntriesCount(extraction, n - 1);
      var entries := EntriesOf(extraction, n);
      assert entries[..n - 1] == EntriesOf(extraction, n - 1);
      assert extraction.evidence[n - 1].evidenceId == EvidenceIds(extraction.evidence)[n - 1];
    }
  }

  /** The evidence index accounts for every raw record: its source counts add up to the candidates, and the
      floor of one never applies. */
  lemma ReportConservesSources(extraction: Extraction, occs: seq<Occurrence>)
    requires Built(extraction, occs)
    ensures TotalSourceCount(EntriesOf(extraction, |extraction.evidence|)) == extraction.candidateCount
    ensures forall k :: 0 <= k < |extraction.evidence| ==>
              var entry := EntriesOf(extraction, |extraction.evidence|)[k];
              SourcesOf(extraction, entry.evidenceId) != [] && entry.sourceCount == 1 + |entry.additionalSources|
  {
    hide EvidenceOf, IsSourceIndex, ReferenceCount, TotalSourceCount;
    BuiltIsValid(extraction, occs);
    SourcesConserved(extraction, occs);
    EntriesCount(extraction, |extraction.evidence|);
    forall k | 0 <= k < |extraction.evidence|
      ensures SourcesOf(extraction, extraction.evidence[k].evidenceId) != []
    {
      assert extraction.evidence[k].evidenceId == EvidenceIds(extraction.evidence)[k];
    }
  }
}
