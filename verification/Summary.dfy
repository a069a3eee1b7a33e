/** The deterministic summary: observation groups, information gaps and unlinked knowledge
    (app/reporting/summary.py, app/reporting/contracts.py). */
module Summaries {
  import opened Contracts
  import opened EvidenceContracts
  import opened Extractor
  import opened InformationGaps
  import opened Ordering
  import opened Queries
  import opened TextOps

  datatype Category = ObservedActivity | ReputationIntelligence | CtiKnowledgeReference | AttackKnowledgeReference

  datatype Observation = Observation(category: Category, evidenceIds: seq<string>)

  datatype Summary = Summary(
    status: RuntimeStatus, stopReason: Option<StopReason>, toolCallCount: nat, evidenceCount: nat,
    observations: seq<Observation>, informationGaps: seq<Gap>, typeCounts: map<EvidenceType, nat>,
    evidenceIds: seq<string>, unlinked: seq<string>)
  {
    /** The contracts checked on construction of the observations and of the summary. */
    ghost predicate Valid() {
      && |evidenceIds| == evidenceCount
      && (forall o :: o in observations ==>
            o.evidenceIds != [] && forall id :: id in o.evidenceIds ==> id in evidenceIds)
      && (forall id :: id in unlinked ==> id in evidenceIds)
    }
  }

  /** The groupings in the order their observations are listed. */
  const SECTIONS: seq<Grouping> :=
    [ProcessActivity, EndpointOther, NetworkFlows, DnsQueries, FileArtifacts, FileEvents, Authentications,
     Reputations, CtiReferences, AttackReferences]

  function CategoryOf(g: Grouping): Category {
    match g
    case Reputations => ReputationIntelligence
    case CtiReferences => CtiKnowledgeReference
    case AttackReferences => AttackKnowledgeReference
    case _ => ObservedActivity
  }

  function ObservationsFrom(g: Grouping, groups: seq<Group>): seq<Observation> {
    seq(|groups|, k requires 0 <= k < |groups| => Observation(CategoryOf(g), EvidenceIds(groups[k].items)))
  }

  function ObservationsOf(ops: TextOps, evidence: seq<Evidence>, sections: seq<Grouping>): seq<Observation> {
    if sections == [] then []
    else
      var g := sections[|sections| - 1];
      ObservationsOf(ops, evidence, sections[..|sections| - 1]) + ObservationsFrom(g, Groups(ops, g, evidence))
  }

  function CountOf(evidence: seq<Evidence>, t: EvidenceType): nat {
    if evidence == [] then 0
    else CountOf(evidence[..|evidence| - 1], t) + if evidence[|evidence| - 1].evidenceType == t then 1 else 0
  }

  /** How many items there are of each type that occurs. */
  function TypeCounts(evidence: seq<Evidence>): map<EvidenceType, nat> {
    map t: EvidenceType | CountOf(evidence, t) > 0 :: CountOf(evidence, t)
  }

  function SummaryOf(ops: TextOps, run: RunRecord, evidence: seq<Evidence>): Summary {
    var unlinked := EvidenceIds(Select(ops, evidence, UnlinkedKnowledge));
    Summary(run.status, run.stopReason, |run.calls|, |evidence|, ObservationsOf(ops, evidence, SECTIONS),
            GapsOf(run, |evidence|, |unlinked|), TypeCounts(evidence), EvidenceIds(evidence), unlinked)
  }

  class SummaryBuilder {
    const ops: TextOps

    constructor (ops: TextOps)
      ensures this.ops == ops
    {
      this.ops := ops;
    }

    /** The observations of one section, group by group. */
    method Observe(g: Grouping, evidence: seq<Evidence>) returns (observations: seq<Observation>)
      ensures observations == ObservationsFrom(g, Groups(ops, g, evidence))
    {
      hide Groups;
      var groups := GroupItems(ops, g, evidence);
      observations := [];
      for n := 0 to |groups|
        invariant |observations| == n
        invariant forall k :: 0 <= k < n ==> observations[k] == Observation(CategoryOf(g), EvidenceIds(groups[k].items))
      {
        observations := observations + [Observation(CategoryOf(g), EvidenceIds(groups[n].items))];
      }
    }

    method ObserveAll(evidence: seq<Evidence>, sections: seq<Grouping>) returns (observations: seq<Observation>)
      ensures observations == ObservationsOf(ops, evidence, sections)
    {
      hide Groups, ObservationsFrom;
      observations := [];
      for n := 0 to |sections|
        invariant observations == ObservationsOf(ops, evidence, sections[..n])
      {
        assert sections[..n + 1][..n] == sections[..n];
        var more := Observe(sections[n], evidence);
        observations := observations + more;
      }
      assert sections[..|sections|] == sections;
    }

    /** The loop over the results, with the dictionary of results by the call they answer. */
    method CollectResultGaps(calls: seq<ToolCall>, results: seq<ToolResult>)
      returns (resultsByCall: map<string, ToolResult>, gaps: seq<Gap>)
      ensures gaps == ResultGaps(calls, results) && resultsByCall.Keys == AnsweredIds(results)
    {
      hide ResultGap, ToolOf;
      resultsByCall, gaps := map[], [];
      for n := 0 to |results|
        invariant gaps == ResultGaps(calls, results[..n]) && resultsByCall.Keys == AnsweredIds(results[..n])
      {
        assert results[..n + 1] == results[..n] + [results[n]];
        var result := results[n];
        resultsByCall := resultsByCall[result.callId := result];
        gaps := gaps + ResultGap(ToolOf(calls, result), result);
      }
      assert results[..|results|] == results;
    }

    /** Plan, results, calls and outcome, in this order. */
    method CollectGaps(run: RunRecord, evidenceCount: nat, unlinkedCount: nat) returns (gaps: seq<Gap>)
      ensures gaps == GapsOf(run, evidenceCount, unlinkedCount)
    {
      hide ResultGaps, AnsweredIds;
      gaps := [];
      if run.plan.None? {
        gaps := [NoPlan];
      } else {
        var steps := run.plan.value;
        for n := 0 to |steps|
          invariant gaps == StepGaps(steps[..n])
        {
          assert steps[..n + 1][..n] == steps[..n];
          if steps[n].status.Failed? {
            gaps := gaps + [FailedStep(steps[n].stepId)];
          }
        }
        assert steps[..|steps|] == steps;
      }
      var resultsByCall, found := CollectResultGaps(run.calls, run.results);
      gaps := gaps + found;
      ghost var before := gaps;
      for n := 0 to |run.calls|
        invariant gaps == before + CallGaps(run.calls[..n], resultsByCall.Keys)
      {
        assert run.calls[..n + 1][..n] == run.calls[..n];
        if run.calls[n].callId !in resultsByCall {
          gaps := gaps + [Unanswered(run.calls[n].callId)];
        }
      }
      assert run.calls[..|run.calls|] == run.calls;
      gaps := gaps + OutcomeGaps(run, evidenceCount, unlinkedCount);
    }

    method CountTypes(evidence: seq<Evidence>) returns (counts: map<EvidenceType, nat>)
      ensures counts == TypeCounts(evidence)
    {
      counts := map[];
      for n := 0 to |evidence|
        invariant counts == TypeCounts(evidence[..n])
      {
        assert evidence[..n + 1][..n] == evidence[..n];
        var t := evidence[n].evidenceType;
        counts := counts[t := (if t in counts then counts[t] else 0) + 1];
      }
      assert evidence[..|evidence|] == evidence;
    }

    method Build(run: RunRecord, evidence: seq<Evidence>) returns (summary: Summary)
      ensures summary == SummaryOf(ops, run, evidence)
    {
      hide ObservationsOf, Select, GapsOf, TypeCounts;
      var observations := ObserveAll(evidence, SECTIONS);
      var unlinked := Scan(ops, evidence, UnlinkedKnowledge);
      var gaps := CollectGaps(run, |evidence|, |unlinked|);
      var counts := CountTypes(evidence);
      summary := Summary(run.status, run.stopReason, |run.calls|, |evidence|, observations, gaps, counts,
                         EvidenceIds(evidence), EvidenceIds(unlinked));
    }
  }

  // ----- validity ------------------------------------------------------------------------------

  lemma SelectionIds(ops: TextOps, evidence: seq<Evidence>, q: Query)
    ensures forall id :: id in EvidenceIds(Select(ops, evidence, q)) ==> id in EvidenceIds(evidence)
  {
    var items := Select(ops, evidence, q);
    forall id | id in EvidenceIds(items) ensures id in EvidenceIds(evidence) {
      var k :| 0 <= k < |items| && EvidenceIds(items)[k] == id;
      Selected(ops, evidence, q, items[k]);
      var j :| 0 <= j < |evidence| && evidence[j] == items[k];
      assert EvidenceIds(evidence)[j] == id;
    }
  }

  lemma GroupObservation(ops: TextOps, g: Grouping, evidence: seq<Evidence>, o: Observation)
    requires o in ObservationsFrom(g, Groups(ops, g, evidence))
    ensures o.evidenceIds != [] && forall id :: id in o.evidenceIds ==> id in EvidenceIds(evidence)
  {
    hide Select, Matches, GroupKeys;
    var groups := Groups(ops, g, evidence);
    var k :| 0 <= k < |groups| && ObservationsFrom(g, groups)[k] == o;
    var key := GroupKeys(ops, g, evidence)[k];
    GroupKeysAre(ops, g, evidence);
    assert key in GroupKeys(ops, g, evidence);
    var e :| e in evidence && Matches(ops, InGroup(g, key), e);
    Selected(ops, evidence, InGroup(g, key), e);
    SelectionIds(ops, evidence, InGroup(g, key));
  }

  lemma {:induction false} ObservationsValid(ops: TextOps, evidence: seq<Evidence>, sections: seq<Grouping>,
                                             o: Observation)
    requires o in ObservationsOf(ops, evidence, sections)
    ensures o.evidenceIds != [] && forall id :: id in o.evidenceIds ==> id in EvidenceIds(evidence)
  {
    hide ObservationsFrom, Groups;
    if sections != [] {
      var g := sections[|sections| - 1];
      if o in ObservationsOf(ops, evidence, sections[..|sections| - 1]) {
        ObservationsValid(ops, evidence, sections[..|sections| - 1], o);
      } else {
        GroupObservation(ops, g, evidence, o);
      }
    }
  }

  /** Every summary passes its validators, for any run and any evidence. */
  lemma SummaryIsValid(ops: TextOps, run: RunRecord, evidence: seq<Evidence>)
    ensures SummaryOf(ops, run, evidence).Valid()
  {
    hide ObservationsOf, Select, GapsOf, TypeCounts;
    forall o | o in ObservationsOf(ops, evidence, SECTIONS)
      ensures o.evidenceIds != [] && forall id :: id in o.evidenceIds ==> id in EvidenceIds(evidence)
    {
      ObservationsValid(ops, evidence, SECTIONS, o);
    }
    SelectionIds(ops, evidence, UnlinkedKnowledge);
  }
}
