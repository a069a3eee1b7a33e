/** When a finding is made at all, in terms of the evidence (app/findings/engine.py). */
module FindingTriggers {
  import opened Contracts
  import opened EvidenceContracts
  import opened EvidenceIndexing
  import opened FindingGrades
  import opened FindingLaws
  import opened FindingMeanings
  import opened FindingRules
  import opened Monotonicity
  import opened Noninterference
  import opened Ordering
  import opened Queries
  import opened TextOps
  import opened VerdictLaws

  /** Some finding of the type cites the item. */
  ghost predicate FindingOn(ops: TextOps, evidence: seq<Evidence>, t: FindingType, e: Evidence) {
    exists f :: f in FindingsOf(ops, evidence) && f.draft.findingType == t && e.evidenceId in f.evidenceIds
  }

  ghost predicate DraftOn(ops: TextOps, evidence: seq<Evidence>, t: FindingType, e: Evidence) {
    exists d :: d in Drafts(ops, evidence) && d.findingType == t && e.evidenceId in d.evidenceIds
  }

  lemma FindingOnIff(ops: TextOps, evidence: seq<Evidence>, t: FindingType, e: Evidence)
    requires UniqueIds(evidence)
    ensures FindingOn(ops, evidence, t, e) <==> DraftOn(ops, evidence, t, e)
  {
    hide Drafts, FindingsOf;
    if f :| f in FindingsOf(ops, evidence) && f.draft.findingType == t && e.evidenceId in f.evidenceIds {
      DraftBehind(ops, evidence, f);
    }
    if d :| d in Drafts(ops, evidence) && d.findingType == t && e.evidenceId in d.evidenceIds {
      var f := FindingOfDraft(ops, evidence, d);
      DraftBehind(ops, evidence, f);
    }
  }

  /** The draft behind a finding. */
  lemma DraftBehind(ops: TextOps, evidence: seq<Evidence>, f: Finding)
    requires UniqueIds(evidence) && f in FindingsOf(ops, evidence)
    ensures f.draft in Drafts(ops, evidence) && f.relatedIndicators == Unique(f.draft.relatedIndicators)
    ensures forall id :: id in f.evidenceIds <==> id in f.draft.evidenceIds
  {
    hide Drafts, FindingsFrom, AllKnown, DraftKeys, Unique;
    FindingsAreGrounded(ops, evidence);
    var k :| 0 <= k < |FindingsOf(ops, evidence)| && FindingsOf(ops, evidence)[k] == f;
    FindingShape(ops, evidence, k);
    assert Drafts(ops, evidence)[k] in Drafts(ops, evidence);
  }

  /** A triggered key whose rule makes a draft has it in the list. */
  lemma MadeFor(ops: TextOps, evidence: seq<Evidence>, rule: Rule, key: RuleKey)
    requires Triggers(ops, evidence, rule, key) && DraftFor(ops, evidence, key).Some?
    ensures DraftFor(ops, evidence, key).value in Drafts(ops, evidence)
    ensures DraftFor(ops, evidence, key).value.key == key
  {
    hide Triggers, DraftFor, AllKeys;
    AllKeysAre(ops, evidence, key);
    DraftKnown(ops, evidence, key);
    CollectedAre(ops, evidence, AllKeys(ops, evidence), DraftFor(ops, evidence, key).value);
  }

  // ----- processes ------------------------------------------------------------------------------------

  /** A finding cites an execution exactly when it is observed and runs a script interpreter. */
  lemma ProcessFindingIff(ops: TextOps, evidence: seq<Evidence>, e: Evidence)
    requires UniqueIds(evidence) && e in evidence
    ensures FindingOn(ops, evidence, SuspiciousProcessExecution, e)
            <==> TelemetryOf(e, ProcessExecution)
                 && ops.casefold(ops.Stripped(e.content, ProcessName)) in SCRIPT_INTERPRETERS
  {
    hide Drafts, FindingsOf, Select, LineHas, FromTempFolder, NonEmpty, TelemetryOf, TextOps.Stripped, AllKeys;
    FindingOnIff(ops, evidence, SuspiciousProcessExecution, e);
    var key := ProcessKey(GroupKey(ops, ProcessRule, e));
    if TelemetryOf(e, ProcessExecution) && ops.casefold(ops.Stripped(e.content, ProcessName)) in SCRIPT_INTERPRETERS {
      assert Triggers(ops, evidence, RuleProcess, key);
      MadeFor(ops, evidence, RuleProcess, key);
      CitedIff(ops, evidence, DraftFor(ops, evidence, key).value, e);
    }
    if d :| d in Drafts(ops, evidence) && d.findingType == SuspiciousProcessExecution && e.evidenceId in d.evidenceIds {
      TypeOfKey(ops, evidence, d);
      CitedIff(ops, evidence, d, e);
      DraftIsMade(ops, evidence, d);
    }
  }

  // ----- flows ----------------------------------------------------------------------------------------

  /** A network finding cites a flow exactly when it is observed and goes to an external destination. */
  lemma NetworkFindingIff(ops: TextOps, evidence: seq<Evidence>, e: Evidence)
    requires UniqueIds(evidence) && e in evidence && e.evidenceType == NetworkConnection
    ensures FindingOn(ops, evidence, SuspiciousNetworkActivity, e)
            <==> Telemetry(e) && ops.Stripped(e.content, DstIp) != "" && !ops.internal(ops.Stripped(e.content, DstIp))
  {
    hide Drafts, FindingsOf, Select, ByInterpreter, Telemetry, TextOps.Stripped, TextOps.Normalize, AllKeys;
    FindingOnIff(ops, evidence, SuspiciousNetworkActivity, e);
    var key := NetworkKey(GroupKey(ops, FlowRule, e));
    if Grouped(ops, FlowRule, e) {
      assert Triggers(ops, evidence, RuleNetwork, key);
      MadeFor(ops, evidence, RuleNetwork, key);
      CitedIff(ops, evidence, DraftFor(ops, evidence, key).value, e);
    }
    if d :| d in Drafts(ops, evidence) && d.findingType == SuspiciousNetworkActivity && e.evidenceId in d.evidenceIds {
      TypeOfKey(ops, evidence, d);
      CitedIff(ops, evidence, d, e);
    }
  }

  // ----- files ----------------------------------------------------------------------------------------

  ghost predicate HasBadHash(ops: TextOps, evidence: seq<Evidence>, sha256: string) {
    sha256 != "" && exists e :: e in evidence && (HasReputation(e, "malicious") || HasReputation(e, "suspicious"))
                                && ops.Normalize(sha256) in KeysOf(ops, ByIndicator, e)
  }

  predicate Unsigned(e: Evidence) {
    Signed in e.content && e.content[Signed] == Flag(false)
  }

  /** A finding is about a file record exactly when the record is observed and its hash has a bad reputation, its path
      is user-writable, or it is recorded as unsigned. */
  lemma FileFindingIff(ops: TextOps, evidence: seq<Evidence>, e: Evidence)
    requires Proper(evidence) && e in evidence && ClassOf(e) == FILE_CLASS
    ensures FindingOn(ops, evidence, SuspiciousFileArtifact, e)
            <==> TelemetryOf(e, FileActivity)
                 && (HasBadHash(ops, evidence, ops.Stripped(e.content, Sha256))
                     || InTempFolder(ops, ops.Stripped(e.content, Path)) || Unsigned(e))
  {
    hide Drafts, FindingsOf, Proper, AnyMarker, Telemetry, AllKeys, ItemById, HasBadHash, Unsigned, FileDraft, ClassOf;
    hide TextOps.Stripped;
    ProperIsUnique(evidence);
    FindingOnIff(ops, evidence, SuspiciousFileArtifact, e);
    ItemByItsId(evidence, e);
    FileDraftIff(ops, evidence, e);
    var key := FileKey(e.evidenceId);
    if TelemetryOf(e, FileActivity) && FileDraft(ops, evidence, e).Some? {
      assert Matches(ops, TriggerOf(RuleFile), e);
      assert Triggers(ops, evidence, RuleFile, key);
      MadeFor(ops, evidence, RuleFile, key);
      OwnRecordCited(ops, evidence, e);
    }
    if d :| d in Drafts(ops, evidence) && d.findingType == SuspiciousFileArtifact && e.evidenceId in d.evidenceIds {
      FileDraftOwns(ops, evidence, d, e);
    }
  }

  lemma OwnRecordCited(ops: TextOps, evidence: seq<Evidence>, e: Evidence)
    requires FileDraft(ops, evidence, e).Some?
    ensures FileDraft(ops, evidence, e).value.findingType == SuspiciousFileArtifact
    ensures e.evidenceId in FileDraft(ops, evidence, e).value.evidenceIds
  {
    hide Select, AnyMarker, NonEmpty, EventsAtPath, EvidenceIds, TextOps.Stripped, TextOps.Normalize;
  }

  /** The only file record a file finding cites is its own. */
  lemma FileDraftOwns(ops: TextOps, evidence: seq<Evidence>, d: Draft, e: Evidence)
    requires Proper(evidence) && d in Drafts(ops, evidence) && d.findingType == SuspiciousFileArtifact
    requires e in evidence && ClassOf(e) == FILE_CLASS && e.evidenceId in d.evidenceIds
    ensures d.key == FileKey(e.evidenceId) && TelemetryOf(e, FileActivity) && FileDraft(ops, evidence, e) == Some(d)
  {
    hide Drafts, Proper, Telemetry, HasReputation, KeysOf, ClassOf, ItemById, FileDraft, TextOps.Stripped, TextOps.Fold;
    hide TextOps.Normalize;
    ProperIsUnique(evidence);
    TypeOfKey(ops, evidence, d);
    DraftIsMade(ops, evidence, d);
    var record := TriggerFile(ops, evidence, d);
    CitedIff(ops, evidence, d, e);
    NotReputation(evidence, e);
    if e.evidenceId == record.evidenceId { SameItem(evidence, e, record); }
    FileTriggerType(ops, evidence, d, record);
  }

  lemma NotReputation(evidence: seq<Evidence>, e: Evidence)
    requires Proper(evidence) && e in evidence && ClassOf(e) == FILE_CLASS
    ensures !HasReputation(e, "malicious") && !HasReputation(e, "suspicious") && ClassOf(e) != ENDPOINT_CLASS
  {
    ClassesDiffer();
  }

  lemma FileTriggerType(ops: TextOps, evidence: seq<Evidence>, d: Draft, record: Evidence)
    requires UniqueIds(evidence) && d in Drafts(ops, evidence) && d.key.FileKey?
    requires ItemById(evidence, d.key.recordEvidence) == Some(record)
    ensures TelemetryOf(record, FileActivity)
  {
    hide Drafts, Telemetry, Grouped, GroupKey, ItemById, ClassOf;
    var rule := DraftTriggered(ops, evidence, d);
    var e :| e in evidence && Matches(ops, TriggerOf(rule), e) && d.key == KeyFromItem(rule, e.evidenceId);
    ItemByItsId(evidence, e);
  }

  lemma FileDraftIff(ops: TextOps, evidence: seq<Evidence>, e: Evidence)
    ensures FileDraft(ops, evidence, e).Some?
            <==> || HasBadHash(ops, evidence, ops.Stripped(e.content, Sha256))
                 || InTempFolder(ops, ops.Stripped(e.content, Path)) || Unsigned(e)
    ensures FileDraft(ops, evidence, e).Some? ==> FileDraft(ops, evidence, e).value.key == FileKey(e.evidenceId)
  {
    hide Select, AnyMarker, NonEmpty, EventsAtPath, HasReputation, KeysOf, TextOps.Stripped, TextOps.Normalize;
    var sha256 := ops.Stripped(e.content, Sha256);
    SelectionExists(ops, evidence, HashReputation(sha256, "malicious"));
    SelectionExists(ops, evidence, HashReputation(sha256, "suspicious"));
  }

  // ----- indicators -----------------------------------------------------------------------------------

  /** A finding cites a malicious record with an indicator exactly when telemetry observes that indicator. */
  lemma IndicatorFindingIff(ops: TextOps, evidence: seq<Evidence>, e: Evidence)
    requires Proper(evidence) && e in evidence && HasReputation(e, "malicious")
    ensures FindingOn(ops, evidence, MaliciousIndicatorMatch, e)
            <==> ops.Stripped(e.content, Indicator) != ""
                 && var target := ops.Normalize(ops.Normalize(ops.Stripped(e.content, Indicator)));
                    target != "" && exists o :: o in evidence && Telemetry(o) && Observes(ops, o, target)
  {
    hide Drafts, FindingsOf, Proper, Select, Telemetry, Observes, HasReputation, AllKeys, Targets, HasHash, NonEmpty;
    hide TextOps.Stripped, TextOps.Normalize;
    ProperIsUnique(evidence);
    FindingOnIff(ops, evidence, MaliciousIndicatorMatch, e);
    ReputationIsShaped(evidence, e, "malicious");
    var indicator := ops.Normalize(ops.Stripped(e.content, Indicator));
    var key := IndicatorKey([indicator]);
    SelectionExists(ops, evidence, ObservedAs(ops.Normalize(indicator)));
    if ops.Stripped(e.content, Indicator) != "" && Occurrences(ops, evidence, indicator) != [] {
      assert Triggers(ops, evidence, RuleIndicator, key);
      MadeFor(ops, evidence, RuleIndicator, key);
      CitedIff(ops, evidence, DraftFor(ops, evidence, key).value, e);
    }
    if d :| d in Drafts(ops, evidence) && d.findingType == MaliciousIndicatorMatch && e.evidenceId in d.evidenceIds {
      TypeOfKey(ops, evidence, d);
      CitedIff(ops, evidence, d, e);
      DraftIsMade(ops, evidence, d);
      assert d.key.group == [indicator];
    }
  }

  // ----- correlations ----------------------------------------------------------------------------------

  /** A flow to the answer, from the host that asked or by the process that asked. */
  predicate FollowsAnswer(ops: TextOps, dns: Evidence, flow: Evidence) {
    var host, process := ops.Stripped(dns.content, Host), ops.Stripped(dns.content, ProcessName);
    && TelemetryOf(flow, NetworkConnection)
    && ops.Normalize(ops.Stripped(flow.content, DstIp)) == ops.Normalize(ops.Stripped(dns.content, Response))
    && ((host != "" && ops.Stripped(flow.content, SrcHost) == host)
        || (process != "" && ops.Stripped(flow.content, ProcessName) == process))
  }

  /** Two of the items are different named records. */
  ghost predicate TwoRecordsAmong(items: seq<Evidence>) {
    exists a, b :: a in items && b in items && TextAt(a.content, RecordId) != "" && TextAt(b.content, RecordId) != ""
                   && TextAt(a.content, RecordId) != TextAt(b.content, RecordId)
  }

  lemma TwoRecordsIff(items: seq<Evidence>)
    ensures |DistinctRecordIds(items)| >= 2 <==> TwoRecordsAmong(items)
  {
    hide DistinctRecordIds, TextAt;
    var ids := DistinctRecordIds(items);
    RecordIdsAre(items, "");
    forall id ensures id in ids <==> id != "" && exists e :: e in items && TextAt(e.content, RecordId) == id {
      RecordIdsAre(items, id);
    }
    if |ids| >= 2 {
      assert ids[0] in ids && ids[1] in ids;
      var a :| a in items && TextAt(a.content, RecordId) == ids[0];
      var b :| b in items && TextAt(b.content, RecordId) == ids[1];
      assert a in items && b in items;
    }
    if a, b :| a in items && b in items && TextAt(a.content, RecordId) != "" && TextAt(b.content, RecordId) != ""
               && TextAt(a.content, RecordId) != TextAt(b.content, RecordId) {
      assert TextAt(a.content, RecordId) in ids && TextAt(b.content, RecordId) in ids;
      var i :| 0 <= i < |ids| && ids[i] == TextAt(a.content, RecordId);
      var j :| 0 <= j < |ids| && ids[j] == TextAt(b.content, RecordId);
    }
  }

  /** The observed DNS record resolves to an external address, flows follow the answer, and more than one record
      is involved. */
  ghost predicate Followed(ops: TextOps, evidence: seq<Evidence>, dns: Evidence) {
    var resolved := ops.Stripped(dns.content, Response);
    && TelemetryOf(dns, DnsQuery) && resolved != "" && !ops.internal(resolved)
    && (exists flow :: flow in evidence && FollowsAnswer(ops, dns, flow))
    && TwoRecordsAmong([dns] + Select(ops, evidence, FlowsFrom(resolved, ops.Stripped(dns.content, Host),
                                                              ops.Stripped(dns.content, ProcessName))))
  }

  lemma FlowDraftIff(ops: TextOps, evidence: seq<Evidence>, dns: Evidence)
    requires TelemetryOf(dns, DnsQuery)
    ensures FlowDraft(ops, evidence, dns).Some? <==> Followed(ops, evidence, dns)
    ensures FlowDraft(ops, evidence, dns).Some? ==>
              && FlowDraft(ops, evidence, dns).value.findingType == CorrelatedAttackPattern
              && dns.evidenceId in FlowDraft(ops, evidence, dns).value.evidenceIds
  {
    hide Select, NonEmpty, DistinctRecordIds, TwoRecordsAmong, ReputationsFor, EvidenceIds, Telemetry;
    hide TextOps.Stripped, TextOps.Normalize;
    var resolved := ops.Stripped(dns.content, Response);
    var q := FlowsFrom(resolved, ops.Stripped(dns.content, Host), ops.Stripped(dns.content, ProcessName));
    SelectionExists(ops, evidence, q);
    assert forall flow :: Matches(ops, q, flow) <==> FollowsAnswer(ops, dns, flow);
    TwoRecordsIff([dns] + Select(ops, evidence, q));
  }

  /** A correlated pattern cites a DNS record exactly when its answer was followed. */
  lemma FlowFindingIff(ops: TextOps, evidence: seq<Evidence>, dns: Evidence)
    requires Proper(evidence) && dns in evidence && dns.evidenceType == DnsQuery
    ensures FindingOn(ops, evidence, CorrelatedAttackPattern, dns) <==> Followed(ops, evidence, dns)
  {
    hide Drafts, FindingsOf, Proper, FlowDraft, AllKeys, Telemetry, ItemById, Followed;
    ProperIsUnique(evidence);
    FindingOnIff(ops, evidence, CorrelatedAttackPattern, dns);
    ItemByItsId(evidence, dns);
    DnsIsTelemetry(evidence, dns);
    FlowDraftIff(ops, evidence, dns);
    var key := FlowKey(dns.evidenceId);
    if FlowDraft(ops, evidence, dns).Some? {
      assert Matches(ops, TriggerOf(RuleFlow), dns);
      assert Triggers(ops, evidence, RuleFlow, key);
      MadeFor(ops, evidence, RuleFlow, key);
    }
    if d :| d in Drafts(ops, evidence) && d.findingType == CorrelatedAttackPattern && dns.evidenceId in d.evidenceIds {
      CorrelationOwnsDns(ops, evidence, d, dns);
    }
  }

  lemma DnsIsTelemetry(evidence: seq<Evidence>, dns: Evidence)
    requires Proper(evidence) && dns in evidence && dns.evidenceType == DnsQuery
    ensures TelemetryOf(dns, DnsQuery) && ClassOf(dns) == DNS_CLASS && ClassOf(dns) != FILE_CLASS
  {
    ClassesDiffer();
  }

  /** The only DNS record a correlated pattern cites is its own. */
  lemma CorrelationOwnsDns(ops: TextOps, evidence: seq<Evidence>, d: Draft, dns: Evidence)
    requires Proper(evidence) && d in Drafts(ops, evidence) && d.findingType == CorrelatedAttackPattern
    requires dns in evidence && dns.evidenceType == DnsQuery && dns.evidenceId in d.evidenceIds
    ensures FlowDraft(ops, evidence, dns) == Some(d)
  {
    hide Drafts, Proper, FlowDraft, WriteDraft, Telemetry, ItemById, ByInterpreter, Grouped, GroupKey, ClassOf;
    hide TextOps.Stripped, TextOps.Normalize;
    ProperIsUnique(evidence);
    DnsIsTelemetry(evidence, dns);
    TypeOfKey(ops, evidence, d);
    DraftIsMade(ops, evidence, d);
    var record := TriggerItem(ops, evidence, d);
    CitedIff(ops, evidence, d, dns);
    if dns.evidenceId == record.evidenceId { SameItem(evidence, dns, record); }
    if d.key.WriteKey? { WriteTriggerType(ops, evidence, d, record); }
  }

  lemma WriteTriggerType(ops: TextOps, evidence: seq<Evidence>, d: Draft, record: Evidence)
    requires UniqueIds(evidence) && d in Drafts(ops, evidence) && d.key.WriteKey?
    requires ItemById(evidence, d.key.recordEvidence) == Some(record)
    ensures TelemetryOf(record, FileActivity) && ClassOf(record) == FILE_CLASS
  {
    hide Drafts, Telemetry, Grouped, GroupKey, ItemById, ClassOf;
    var rule := DraftTriggered(ops, evidence, d);
    var e :| e in evidence && Matches(ops, TriggerOf(rule), e) && d.key == KeyFromItem(rule, e.evidenceId);
    ItemByItsId(evidence, e);
  }

  /** An endpoint record of a script interpreter touching the file at the path. */
  predicate ScriptTouches(ops: TextOps, path: string, e: Evidence) {
    && TelemetryOf(e, FileActivity) && ClassOf(e) == ENDPOINT_CLASS
    && ops.casefold(ops.Stripped(e.content, FilePath)) == ops.casefold(path)
    && ops.casefold(ops.Stripped(e.content, ProcessName)) in SCRIPT_INTERPRETERS
  }

  /** A correlated pattern cites a file record exactly when the record is observed, its path is user-writable, and a
      script interpreter touched the file at that path. */
  lemma WriteFindingIff(ops: TextOps, evidence: seq<Evidence>, record: Evidence)
    requires Proper(evidence) && record in evidence && ClassOf(record) == FILE_CLASS
    ensures var path := ops.Stripped(record.content, Path);
            FindingOn(ops, evidence, CorrelatedAttackPattern, record)
            <==> TelemetryOf(record, FileActivity) && path != "" && InTempFolder(ops, path)
                 && exists e :: e in evidence && ScriptTouches(ops, path, e)
  {
    hide Drafts, FindingsOf, Proper, WriteDraft, AllKeys, Telemetry, ItemById, ClassOf, InTempFolder, TextOps.Stripped;
    ProperIsUnique(evidence);
    FindingOnIff(ops, evidence, CorrelatedAttackPattern, record);
    ItemByItsId(evidence, record);
    WriteDraftIff(ops, evidence, record);
    var key := WriteKey(record.evidenceId);
    if TelemetryOf(record, FileActivity) && WriteDraft(ops, evidence, record).Some? {
      assert Matches(ops, TriggerOf(RuleWrite), record);
      assert Triggers(ops, evidence, RuleWrite, key);
      MadeFor(ops, evidence, RuleWrite, key);
    }
    if d :| d in Drafts(ops, evidence) && d.findingType == CorrelatedAttackPattern
            && record.evidenceId in d.evidenceIds {
      CorrelationOwnsFile(ops, evidence, d, record);
    }
  }

  lemma WriteDraftIff(ops: TextOps, evidence: seq<Evidence>, record: Evidence)
    ensures var path := ops.Stripped(record.content, Path);
            WriteDraft(ops, evidence, record).Some?
            <==> path != "" && InTempFolder(ops, path) && exists e :: e in evidence && ScriptTouches(ops, path, e)
    ensures WriteDraft(ops, evidence, record).Some? ==>
              && WriteDraft(ops, evidence, record).value.findingType == CorrelatedAttackPattern
              && record.evidenceId in WriteDraft(ops, evidence, record).value.evidenceIds
  {
    hide Select, NonEmpty, ReputationsFor, EvidenceIds, Telemetry, AnyMarker, TextOps.Stripped, TextOps.Normalize;
    var path := ops.Stripped(record.content, Path);
    SelectionExists(ops, evidence, WritesTo(path));
    assert forall e :: Matches(ops, WritesTo(path), e) <==> ScriptTouches(ops, path, e);
  }

  /** The only file record a correlated pattern cites is its own. */
  lemma CorrelationOwnsFile(ops: TextOps, evidence: seq<Evidence>, d: Draft, record: Evidence)
    requires Proper(evidence) && d in Drafts(ops, evidence) && d.findingType == CorrelatedAttackPattern
    requires record in evidence && ClassOf(record) == FILE_CLASS && record.evidenceId in d.evidenceIds
    ensures TelemetryOf(record, FileActivity) && WriteDraft(ops, evidence, record) == Some(d)
  {
    hide Drafts, Proper, FlowDraft, WriteDraft, Telemetry, ItemById, ByInterpreter, ClassOf, HasReputation;
    hide TextOps.Stripped, TextOps.Normalize;
    ProperIsUnique(evidence);
    TypeOfKey(ops, evidence, d);
    DraftIsMade(ops, evidence, d);
    var own := TriggerItem(ops, evidence, d);
    CitedIff(ops, evidence, d, record);
    NotReputation(evidence, record);
    FileIsFileActivity(evidence, record);
    if record.evidenceId == own.evidenceId { SameItem(evidence, record, own); }
    if d.key.WriteKey? {
      WriteTriggerType(ops, evidence, d, own);
    } else {
      FlowTriggerType(ops, evidence, d, own);
    }
  }

  lemma FileIsFileActivity(evidence: seq<Evidence>, e: Evidence)
    requires Proper(evidence) && e in evidence && ClassOf(e) == FILE_CLASS
    ensures e.evidenceType == FileActivity
  {
    ClassesDiffer();
  }

  lemma FlowTriggerType(ops: TextOps, evidence: seq<Evidence>, d: Draft, dns: Evidence)
    requires UniqueIds(evidence) && d in Drafts(ops, evidence) && d.key.FlowKey?
    requires ItemById(evidence, d.key.dnsEvidence) == Some(dns)
    ensures dns.evidenceType == DnsQuery
  {
    hide Drafts, Telemetry, Grouped, GroupKey, ItemById, ClassOf;
    var rule := DraftTriggered(ops, evidence, d);
    var e :| e in evidence && Matches(ops, TriggerOf(rule), e) && d.key == KeyFromItem(rule, e.evidenceId);
    ItemByItsId(evidence, e);
  }

  // ----- what is put together ---------------------------------------------------------------------------

  /** A process finding cites, with one execution, exactly those of the same host, process and parent. */
  lemma ProcessFindingGroups(ops: TextOps, evidence: seq<Evidence>, f: Finding, e: Evidence, other: Evidence)
    requires Proper(evidence) && f in FindingsOf(ops, evidence) && f.draft.findingType == SuspiciousProcessExecution
    requires e in evidence && other in evidence && e.evidenceId in f.evidenceIds
    ensures other.evidenceId in f.evidenceIds
            <==> TelemetryOf(other, ProcessExecution)
                 && forall field :: field in {Host, ProcessName, ParentProcessName} ==>
                      ops.Stripped(other.content, field) == ops.Stripped(e.content, field)
  {
    hide FindingsOf, Drafts, Proper, TelemetryOf, TextOps.Stripped;
    ProperIsUnique(evidence);
    DraftBehind(ops, evidence, f);
    TypeOfKey(ops, evidence, f.draft);
    CitedIff(ops, evidence, f.draft, e);
    CitedIff(ops, evidence, f.draft, other);
  }

  /** The direction of a flow, outbound unless recorded otherwise. */
  function DirectionOf(ops: TextOps, e: Evidence): string {
    if ops.Stripped(e.content, Direction) == "" then "outbound" else ops.Stripped(e.content, Direction)
  }

  /** A network finding cites, with one flow, exactly the observed external flows to the same destination, port and
      direction, whatever their source. */
  lemma NetworkFindingGroups(ops: TextOps, evidence: seq<Evidence>, f: Finding, e: Evidence, other: Evidence)
    requires Proper(evidence) && f in FindingsOf(ops, evidence) && f.draft.findingType == SuspiciousNetworkActivity
    requires e in evidence && other in evidence && e.evidenceId in f.evidenceIds
    requires e.evidenceType == NetworkConnection && other.evidenceType == NetworkConnection
    ensures other.evidenceId in f.evidenceIds
            <==> && Telemetry(other) && ops.Stripped(other.content, DstIp) == ops.Stripped(e.content, DstIp)
                 && ops.Rendered(other.content, DstPort) == ops.Rendered(e.content, DstPort)
                 && DirectionOf(ops, other) == DirectionOf(ops, e)
  {
    hide FindingsOf, Drafts, Proper, Telemetry, TextOps.Stripped, TextOps.Rendered, TextOps.Normalize;
    ProperIsUnique(evidence);
    DraftBehind(ops, evidence, f);
    TypeOfKey(ops, evidence, f.draft);
    CitedIff(ops, evidence, f.draft, e);
    CitedIff(ops, evidence, f.draft, other);
  }

  // ----- related indicators ------------------------------------------------------------------------------

  lemma {:induction false} NonEmptyAre(values: seq<string>, x: string)
    ensures x in NonEmpty(values) <==> x != "" && x in values
  {
    if values != [] {
      NonEmptyAre(values[..|values| - 1], x);
      assert values == values[..|values| - 1] + [values[|values| - 1]];
    }
  }

  /** The texts of a cited item that a finding of the type names. */
  predicate Names(ops: TextOps, t: FindingType, e: Evidence, x: string) {
    match t
    case SuspiciousProcessExecution =>
      x == ops.Stripped(e.content, ProcessName) || x == ops.Stripped(e.content, ParentProcessName)
      || x == ops.Stripped(e.content, FilePath)
    case SuspiciousFileArtifact =>
      ClassOf(e) == FILE_CLASS
      && (x == ops.Stripped(e.content, FileName) || x == ops.Stripped(e.content, Path)
          || x == ops.Stripped(e.content, Sha256))
    case SuspiciousNetworkActivity => e.evidenceType == NetworkConnection && x == ops.Stripped(e.content, DstIp)
    case CorrelatedAttackPattern =>
      e.evidenceType == DnsQuery
      && (x == ops.Stripped(e.content, Field.Query) || x == ops.Stripped(e.content, Response))
    case MaliciousIndicatorMatch => false
  }

  ghost predicate NamedByCited(ops: TextOps, evidence: seq<Evidence>, d: Draft, x: string) {
    x != "" && exists e :: Cited(evidence, d.evidenceIds, e) && Names(ops, d.findingType, e, x)
  }

  lemma ProcessRelated(ops: TextOps, evidence: seq<Evidence>, d: Draft, x: string)
    requires Proper(evidence) && d in Drafts(ops, evidence) && d.key.ProcessKey?
    ensures x in d.relatedIndicators <==> NamedByCited(ops, evidence, d, x)
  {
    hide Drafts, Proper, LineHas, FromTempFolder, NonEmpty, Select, StrippedEach, TextOps.Stripped, AnyMarker;
    hide NamedByCited;
    ProperIsUnique(evidence);
    TypeOfKey(ops, evidence, d);
    DraftIsMade(ops, evidence, d);
    var items := Select(ops, evidence, InGroup(ProcessRule, d.key.group));
    NonEmptyAre([d.key.group[1], d.key.group[2]] + StrippedEach(ops, items, FilePath), x);
    StrippedAre(ops, items, FilePath, x);
    ProcessNames(ops, evidence, d, items, x);
  }

  lemma StrippedAre(ops: TextOps, items: seq<Evidence>, field: Field, x: string)
    ensures x in StrippedEach(ops, items, field) <==> exists e :: e in items && ops.Stripped(e.content, field) == x
  {
    hide TextOps.Stripped;
    var texts := StrippedEach(ops, items, field);
    if x in texts {
      var k :| 0 <= k < |texts| && texts[k] == x;
      assert items[k] in items;
    }
    if e :| e in items && ops.Stripped(e.content, field) == x {
      var k :| 0 <= k < |items| && items[k] == e;
      assert texts[k] == x;
    }
  }

  lemma ProcessNames(ops: TextOps, evidence: seq<Evidence>, d: Draft, items: seq<Evidence>, x: string)
    requires Proper(evidence) && d in Drafts(ops, evidence) && d.key.ProcessKey? && |d.key.group| == 3
    requires d.findingType == SuspiciousProcessExecution
    requires items == Select(ops, evidence, InGroup(ProcessRule, d.key.group))
    ensures NamedByCited(ops, evidence, d, x)
            <==> x != "" && (x == d.key.group[1] || x == d.key.group[2]
                             || exists e :: e in items && ops.Stripped(e.content, FilePath) == x)
  {
    hide Drafts, Proper, Select, Telemetry, TextOps.Stripped;
    ProperIsUnique(evidence);
    var q := InGroup(ProcessRule, d.key.group);
    forall e
      ensures e in items <==> Cited(evidence, d.evidenceIds, e)
      ensures e in items ==> GroupKey(ops, ProcessRule, e) == d.key.group
    {
      Selected(ops, evidence, q, e);
      if e in evidence { CitedIff(ops, evidence, d, e); }
    }
    var rule := DraftTriggered(ops, evidence, d);
    var some :| some in evidence && Grouped(ops, ProcessRule, some)
                && d.key == ProcessKey(GroupKey(ops, ProcessRule, some));
    Selected(ops, evidence, q, some);
  }

  lemma FileRelated(ops: TextOps, evidence: seq<Evidence>, d: Draft, x: string)
    requires Proper(evidence) && d in Drafts(ops, evidence) && d.key.FileKey?
    ensures x in d.relatedIndicators <==> NamedByCited(ops, evidence, d, x)
  {
    hide Drafts, Proper, NonEmpty, Select, Telemetry, EventsAtPath, AnyMarker, ItemById, ClassOf, TextOps.Stripped;
    ProperIsUnique(evidence);
    TypeOfKey(ops, evidence, d);
    DraftIsMade(ops, evidence, d);
    var record := TriggerFile(ops, evidence, d);
    NonEmptyAre([ops.Stripped(record.content, FileName), ops.Stripped(record.content, Path),
                 ops.Stripped(record.content, Sha256)], x);
    OwnRecordCited(ops, evidence, record);
    assert Cited(evidence, d.evidenceIds, record);
    forall e | Cited(evidence, d.evidenceIds, e) && ClassOf(e) == FILE_CLASS ensures e == record {
      FileDraftOwns(ops, evidence, d, e);
    }
  }

  lemma NetworkRelated(ops: TextOps, evidence: seq<Evidence>, d: Draft, x: string)
    requires Proper(evidence) && d in Drafts(ops, evidence) && d.key.NetworkKey?
    ensures x in d.relatedIndicators <==> NamedByCited(ops, evidence, d, x)
  {
    hide Drafts, Proper, Select, Telemetry, ByInterpreter, EvidenceIds, TextOps.Stripped, TextOps.Normalize;
    ProperIsUnique(evidence);
    TypeOfKey(ops, evidence, d);
    DraftIsMade(ops, evidence, d);
    var rule := DraftTriggered(ops, evidence, d);
    var some :| some in evidence && Grouped(ops, FlowRule, some) && d.key == NetworkKey(GroupKey(ops, FlowRule, some));
    CitedIff(ops, evidence, d, some);
    forall e | e in evidence ensures Cited(evidence, d.evidenceIds, e) <==> Cites(ops, evidence, d.key, e) {
      CitedIff(ops, evidence, d, e);
    }
  }

  lemma FlowRelated(ops: TextOps, evidence: seq<Evidence>, d: Draft, x: string)
    requires Proper(evidence) && d in Drafts(ops, evidence) && d.key.FlowKey?
    ensures x in d.relatedIndicators <==> NamedByCited(ops, evidence, d, x)
  {
    hide Drafts, Proper, NonEmpty, Select, Telemetry, DistinctRecordIds, ItemById, ReputationsFor, TextOps.Stripped;
    hide EvidenceIds;
    ProperIsUnique(evidence);
    TypeOfKey(ops, evidence, d);
    DraftIsMade(ops, evidence, d);
    var dns := TriggerItem(ops, evidence, d);
    FlowTriggerType(ops, evidence, d, dns);
    NonEmptyAre([ops.Stripped(dns.content, Field.Query), ops.Stripped(dns.content, Response)], x);
    assert Cited(evidence, d.evidenceIds, dns);
    forall e | Cited(evidence, d.evidenceIds, e) && e.evidenceType == DnsQuery ensures e == dns {
      OneDnsCited(ops, evidence, d, dns, e);
    }
  }

  lemma OneDnsCited(ops: TextOps, evidence: seq<Evidence>, d: Draft, dns: Evidence, e: Evidence)
    requires Proper(evidence) && d in Drafts(ops, evidence)
    requires d.key.FlowKey? && d.findingType == CorrelatedAttackPattern
    requires dns in evidence && ItemById(evidence, d.key.dnsEvidence) == Some(dns)
    requires Cited(evidence, d.evidenceIds, e) && e.evidenceType == DnsQuery
    ensures e == dns
  {
    hide Drafts, Proper, Telemetry, ItemById, TextOps.Stripped, TextOps.Normalize, Shaped;
    ProperIsUnique(evidence);
    CitedIff(ops, evidence, d, e);
    if e.evidenceId == dns.evidenceId { SameItem(evidence, e, dns); }
  }

  /** What a finding names, apart from matches, which name their one indicator, and file-write patterns: exactly the
      non-empty texts its type takes from the items it cites. */
  lemma RelatedIndicatorsAre(ops: TextOps, evidence: seq<Evidence>, f: Finding, x: string)
    requires Proper(evidence) && f in FindingsOf(ops, evidence) && !f.draft.key.WriteKey? && !f.draft.key.IndicatorKey?
    ensures x in f.relatedIndicators <==> NamedByCited(ops, evidence, f.draft, x)
  {
    hide FindingsOf, Drafts, Proper, NamedByCited;
    ProperIsUnique(evidence);
    DraftBehind(ops, evidence, f);
    UniqueAre(f.draft.relatedIndicators);
    match f.draft.key
    case ProcessKey(_) => ProcessRelated(ops, evidence, f.draft, x);
    case FileKey(_) => FileRelated(ops, evidence, f.draft, x);
    case NetworkKey(_) => NetworkRelated(ops, evidence, f.draft, x);
    case FlowKey(_) => FlowRelated(ops, evidence, f.draft, x);
  }
}
