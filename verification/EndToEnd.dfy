/** From raw records to findings and verdicts (app/evidence/extractor.py, app/findings/engine.py,
    app/verdict/engine.py). */
module EndToEnd {
  import opened Contracts
  import opened Dedup
  import opened EvidenceContracts
  import opened EvidenceIndexing
  import opened ExtractionLaws
  import opened Extractor
  import opened FindingGrades
  import opened FindingLaws
  import opened FindingMeanings
  import opened FindingRules
  import opened FindingTriggers
  import opened Monotonicity
  import opened Noninterference
  import opened Pipeline
  import opened Queries
  import opened RecordContents
  import opened TextOps
  import opened VerdictLaws
  import opened Verdicts
  import Fingerprints

  // ----- a network event becomes a finding -----------------------------------------------------------

  /** The run returned this network event under the key of its list. */
  ghost predicate ReturnedFlow(schemas: Schemas, run: RunRecord, e: NetworkEvent) {
    exists call, result, raw :: ReturnedFlowAs(schemas, run, e, call, result, raw)
  }

  predicate ReturnedFlowAs(schemas: Schemas, run: RunRecord, e: NetworkEvent, call: ToolCall, result: ToolResult,
                           raw: Value)
  {
    && result in run.results && result.success && CallOf(run.calls, result.callId) == Some(call)
    && call.toolName == SEARCH_NETWORK && result.data.Object? && "network_events" in result.data.fields
    && result.data.fields["network_events"].Items? && raw in result.data.fields["network_events"].xs
    && schemas.network(raw) == Some(e)
  }

  lemma NetworkLists(call: ToolCall)
    ensures (CollectionsOf(call.toolName).Some? && NetworkEvents in CollectionsOf(call.toolName).value)
            <==> call.toolName == SEARCH_NETWORK
  {
  }

  lemma ReturnedFlowIff(schemas: Schemas, run: RunRecord, e: NetworkEvent, call: ToolCall, result: ToolResult,
                        raw: Value)
    ensures ReturnedFlowAs(schemas, run, e, call, result, raw)
            <==> ReturnedRecord(run.calls, run.results, call, result, NetworkEvents, raw)
                 && schemas.network(raw) == Some(e)
  {
    hide CollectionsOf, CallOf;
    NetworkLists(call);
  }

  predicate External(ops: TextOps, address: string) {
    ops.strip(address) != "" && !ops.internal(ops.strip(address))
  }

  /** Events of the run with the same id are the same event. */
  ghost predicate IdentifiedById(schemas: Schemas, run: RunRecord, e: NetworkEvent) {
    forall other :: ReturnedFlow(schemas, run, other) && other.eventId == e.eventId ==> other == e
  }

  /** Every network event of a run that its id identifies is an item, field by field, and if its destination is
      external a network finding cites that item. */
  lemma NetworkEventsAreFound(x: DeterministicEvidenceExtractor, run: RunRecord, extraction: Extraction,
                              e: NetworkEvent)
    returns (n: nat)
    requires Extracted(x, run, extraction)
    requires ReturnedFlow(x.schemas, run, e) && IdentifiedById(x.schemas, run, e)
    ensures n < |extraction.evidence|
    ensures var item := extraction.evidence[n];
            && item.evidenceType == NetworkConnection
            && (forall field :: Carries(item.content, field, NetworkValue(e, field)))
            && (FindingOn(x.ops, extraction.evidence, SuspiciousNetworkActivity, item) <==> External(x.ops, e.dstIp))
  {
    hide Extracted, ReturnedRecord, ReadFrom, ReadFromOne, IdentityFor, FindingOn, Proper, NetworkValue, Carries,
         TakeResults;
    hide CaseIndicators, CallOf;
    var k := x.ContextOf(run);
    var call, result, raw :| ReturnedFlowAs(x.schemas, run, e, call, result, raw);
    ReturnedFlowIff(x.schemas, run, e, call, result, raw);
    ExtractedIsBuilt(x, run, extraction);
    var o: Occurrence;
    n, o := ReadableHasItem(k, run.calls, run.results, extraction, call, result, NetworkEvents, raw);
    var again := FirstIsSame(x, run, e, raw, o);
    var item := extraction.evidence[n];
    ItemOfFlow(k.schemas, again, item, e);
    ExtractionIsProper(x, run, extraction);
    FlowIsFound(x.ops, extraction.evidence, item, e);
  }

  lemma ExtractedIsBuilt(x: DeterministicEvidenceExtractor, run: RunRecord, extraction: Extraction)
    requires Extracted(x, run, extraction)
    ensures Built(extraction, TakeResults(x.ContextOf(run), run.calls, run.results).occs)
  {
  }

  /** The first occurrence under the event's identity was read from a network record with the event's id. */
  lemma FirstIsSame(x: DeterministicEvidenceExtractor, run: RunRecord, e: NetworkEvent, raw: Value, o: Occurrence)
    returns (again: Value)
    requires x.schemas.network(raw) == Some(e) && IdentifiedById(x.schemas, run, e)
    requires o.identity == IdentityFor(x.ContextOf(run), NetworkEvents, raw)
    requires ReadFrom(x.ContextOf(run), run.calls, run.results, o)
    ensures x.schemas.network(again) == Some(e)
    ensures Agrees(x.schemas, NetworkEvents, again, o.content) && o.evidenceType == NetworkConnection
  {
    hide ReturnedRecord, Agrees, CaseIndicators, ReputationIdentity;
    var k := x.ContextOf(run);
    var call, result, c, found :| ReadFromOne(k, run.calls, run.results, o, call, result, c, found);
    again := found;
    ClassOfIdentity(k, c, found, e.eventId);
    var other := x.schemas.network(found).value;
    Fingerprints.SameTail(NETWORK_CLASS + ":", other.eventId, e.eventId);
    ReturnedFlowIff(x.schemas, run, other, call, result, found);
    hide ReturnedFlowAs;
    assert ReturnedFlow(x.schemas, run, other);
  }

  function FirstLetter(c: Collection): char {
    match c
    case EndpointEvents => 'e'
    case NetworkEvents => 'n'
    case DnsEvents => 'd'
    case Files => 'f'
    case CtiRecords => 'c'
    case AttackTechniques => 'a'
    case _ => 'i'
  }

  /** The first letter of an identity already tells the class of its record. */
  lemma IdentityStarts(k: CaseContext, c: Collection, raw: Value)
    requires Readable(k.schemas, c, raw)
    ensures IdentityFor(k, c, raw) != "" && IdentityFor(k, c, raw)[0] == FirstLetter(c)
  {
    ClassesDiffer();
  }

  /** Only network records have such identities. */
  lemma ClassOfIdentity(k: CaseContext, c: Collection, raw: Value, id: string)
    requires Readable(k.schemas, c, raw) && IdentityFor(k, c, raw) == NETWORK_CLASS + ":" + id
    ensures c == NetworkEvents
  {
    assert (NETWORK_CLASS + ":" + id)[0] == 'n';
    hide IdentityFor, Readable;
    IdentityStarts(k, c, raw);
  }

  lemma ItemOfFlow(schemas: Schemas, raw: Value, item: Evidence, e: NetworkEvent)
    requires schemas.network(raw) == Some(e) && Agrees(schemas, NetworkEvents, raw, item.content)
    ensures forall field :: Carries(item.content, field, NetworkValue(e, field))
  {
    hide Carries, NetworkValue;
    forall field ensures Carries(item.content, field, NetworkValue(e, field)) {
      assert ValueOf(schemas, NetworkEvents, raw, field) == NetworkValue(e, field);
    }
  }

  lemma FlowIsFound(ops: TextOps, evidence: seq<Evidence>, item: Evidence, e: NetworkEvent)
    requires Proper(evidence) && item in evidence && item.evidenceType == NetworkConnection
    requires forall field :: Carries(item.content, field, NetworkValue(e, field))
    ensures FindingOn(ops, evidence, SuspiciousNetworkActivity, item) <==> External(ops, e.dstIp)
  {
    hide FindingOn, Proper;
    ProperIsUnique(evidence);
    FlowIsTelemetry(evidence, item);
    assert Carries(item.content, DstIp, NetworkValue(e, DstIp));
    NetworkFindingIff(ops, evidence, item);
  }

  lemma FlowIsTelemetry(evidence: seq<Evidence>, item: Evidence)
    requires Proper(evidence) && item in evidence && item.evidenceType == NetworkConnection
    ensures Telemetry(item)
  {
  }

  // ----- a connection to a malicious address -----------------------------------------------------------

  /** Stripping twice changes nothing. */
  ghost predicate StripsOnce(ops: TextOps) {
    forall s :: ops.strip(ops.strip(s)) == ops.strip(s)
  }

  /** The item carries a text under the field that normalises to `target`. */
  predicate Has(ops: TextOps, e: Evidence, field: Field, target: string) {
    TextAt(e.content, field) != "" && ops.Normalize(TextAt(e.content, field)) == target
  }

  lemma ThreeReadings(ops: TextOps, e: Evidence, field: Field, target: string)
    requires StripsOnce(ops) && Has(ops, e, field, target)
    ensures ops.Normalize(ops.Stripped(e.content, field)) == target && FieldIs(ops, e, field, target)
  {
  }

  /** The malicious match of an indicator that a flow has as its destination. */
  lemma DestinationMatches(ops: TextOps, evidence: seq<Evidence>, reputation: Evidence, flow: Evidence, target: string)
    returns (m: Finding)
    requires Proper(evidence) && StripsOnce(ops) && reputation in evidence && flow in evidence
    requires HasReputation(reputation, "malicious") && ops.Stripped(reputation.content, Indicator) != ""
    requires ops.Normalize(ops.Stripped(reputation.content, Indicator)) == target == ops.Normalize(target) != ""
    requires flow.evidenceType == NetworkConnection && Has(ops, flow, DstIp, target)
    ensures m in FindingsOf(ops, evidence) && m.draft.MaliciousGrade() && m.relatedIndicators == [target]
  {
    hide FindingsOf, Proper, TextOps.Stripped, TextOps.Normalize, HasReputation, TextAt, Drafts;
    ProperIsUnique(evidence);
    FlowIsTelemetry(evidence, flow);
    ThreeReadings(ops, flow, DstIp, target);
    assert Observes(ops, flow, target);
    IndicatorFindingIff(ops, evidence, reputation);
    m :| m in FindingsOf(ops, evidence) && m.draft.findingType == MaliciousIndicatorMatch
         && reputation.evidenceId in m.evidenceIds;
    MatchIsAbout(ops, evidence, m, reputation);
    MatchCites(ops, evidence, m, flow, target);
    GradesAreExact(ops, evidence, m);
    assert Shows(ops, m.draft, AsDestination, flow);
  }

  /** A match is about the normalised indicator of the records it cites. */
  lemma MatchIsAbout(ops: TextOps, evidence: seq<Evidence>, m: Finding, reputation: Evidence)
    requires Proper(evidence) && m in FindingsOf(ops, evidence) && m.draft.findingType == MaliciousIndicatorMatch
    requires reputation in evidence && HasReputation(reputation, "malicious") && reputation.evidenceId in m.evidenceIds
    ensures var target := ops.Normalize(ops.Stripped(reputation.content, Indicator));
            m.draft.key == IndicatorKey([target]) && m.draft.relatedIndicators == m.relatedIndicators == [target]
  {
    hide FindingsOf, Proper, Drafts, HasReputation, Telemetry, Observes, TextOps.Stripped, TextOps.Normalize;
    ProperIsUnique(evidence);
    DraftBehind(ops, evidence, m);
    MaliciousIsIndicator(ops, evidence, m);
    TypeOfKey(ops, evidence, m.draft);
    CitedIff(ops, evidence, m.draft, reputation);
    ReputationIsShaped(evidence, reputation, "malicious");
    SingleGroup(ops, evidence, m.draft);
    var one := m.draft.relatedIndicators;
    assert one[..0] == [] && Unique(one) == [one[0]];
  }

  lemma SingleGroup(ops: TextOps, evidence: seq<Evidence>, d: Draft)
    requires d in Drafts(ops, evidence) && d.key.IndicatorKey?
    ensures |d.key.group| == 1
  {
    hide Drafts, Select, Occurrences, EvidenceIds, Targets, HasHash, TextOps.Normalize;
    DraftIsMade(ops, evidence, d);
  }

  /** A match cites the telemetry that observes its indicator. */
  lemma MatchCites(ops: TextOps, evidence: seq<Evidence>, m: Finding, e: Evidence, target: string)
    requires UniqueIds(evidence) && m in FindingsOf(ops, evidence) && m.draft.key == IndicatorKey([target])
    requires e in evidence && Telemetry(e) && ops.Normalize(target) != "" && Observes(ops, e, ops.Normalize(target))
    ensures Cited(evidence, m.draft.evidenceIds, e)
  {
    hide FindingsOf, Drafts, Telemetry, Observes, HasReputation, TextOps.Normalize, TextOps.Stripped;
    DraftBehind(ops, evidence, m);
    CitedIff(ops, evidence, m.draft, e);
  }

  /** A flow to an external address that a malicious record names makes the verdict on a finished run malicious with
      high confidence, and on an unfinished run at least suspicious. */
  lemma ConnectionToMaliciousIsMalicious(ops: TextOps, evidence: seq<Evidence>, reputation: Evidence, flow: Evidence,
                                         target: string, completed: bool, noGaps: bool)
    requires Proper(evidence) && StripsOnce(ops) && reputation in evidence && flow in evidence
    requires HasReputation(reputation, "malicious") && ops.Stripped(reputation.content, Indicator) != ""
    requires ops.Normalize(ops.Stripped(reputation.content, Indicator)) == target == ops.Normalize(target) != ""
    requires flow.evidenceType == NetworkConnection && Has(ops, flow, DstIp, target)
    requires External(ops, TextAt(flow.content, DstIp)) && !HashLike(target)
    ensures var v := VerdictOf(ops, evidence, completed, noGaps);
            && (completed ==> v.disposition.Malicious? && v.confidence.HighConfidence?)
            && v.disposition.Rank() >= 1
  {
    hide FindingsOf, Proper, Decide, TextOps.Normalize, HasReputation, HashLike, PairsOf, FieldIs;
    ProperIsUnique(evidence);
    var findings := FindingsOf(ops, evidence);
    var m := DestinationMatches(ops, evidence, reputation, flow, target);
    FlowIsTelemetry(evidence, flow);
    NetworkFindingIff(ops, evidence, flow);
    var b :| b in findings && b.draft.findingType == SuspiciousNetworkActivity && flow.evidenceId in b.evidenceIds;
    ThreeReadings(ops, flow, DstIp, target);
    LinkedByDestination(ops, evidence, b, flow, target);
    assert IsPair(ops, evidence, Pair(m, b), target);
    assert Linked(ops, evidence, findings, Pair(m, b));
    DispositionsMean(ops, evidence, findings, completed, noGaps);
    ConfidenceMeans(ops, evidence, findings, completed, noGaps);
  }

  lemma LinkedByDestination(ops: TextOps, evidence: seq<Evidence>, b: Finding, flow: Evidence, target: string)
    requires UniqueIds(evidence) && flow in evidence && flow.evidenceId in b.evidenceIds
    requires FieldIs(ops, flow, DstIp, target) && !HashLike(target)
    ensures CitesLink(ops, evidence, b, target, target)
  {
    hide FieldIs, HashLike;
    ItemByItsId(evidence, flow);
  }
}
