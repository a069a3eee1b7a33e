/** What the findings mean: which evidence each one cites, and what its grade takes
    (app/findings/engine.py). */
module FindingMeanings {
  import opened Contracts
  import opened EvidenceContracts
  import opened EvidenceIndexing
  import opened FindingRules
  import opened FindingLaws
  import opened Queries
  import opened TextOps

  // ----- citations ----------------------------------------------------------------------------

  predicate NamesMalicious(ops: TextOps, e: Evidence, target: string) {
    && HasReputation(e, "malicious") && ops.Stripped(e.content, Indicator) != ""
    && ops.Normalize(ops.Stripped(e.content, Indicator)) == target
  }

  predicate FileCites(ops: TextOps, record: Evidence, e: Evidence) {
    var sha256, path := ops.Stripped(record.content, Sha256), ops.Stripped(record.content, Path);
    || e.evidenceId == record.evidenceId
    || (sha256 != "" && (HasReputation(e, "malicious") || HasReputation(e, "suspicious"))
        && ops.Normalize(sha256) in KeysOf(ops, ByIndicator, e))
    || (path != "" && ClassOf(e) == ENDPOINT_CLASS && ops.Fold(path) in KeysOf(ops, ByPath, e))
  }

  predicate FlowCites(ops: TextOps, dns: Evidence, e: Evidence) {
    var resolved := ops.Stripped(dns.content, Response);
    var host, process := ops.Stripped(dns.content, Host), ops.Stripped(dns.content, ProcessName);
    || e.evidenceId == dns.evidenceId
    || (&& TelemetryOf(e, NetworkConnection)
        && ops.Normalize(ops.Stripped(e.content, DstIp)) == ops.Normalize(resolved)
        && ((host != "" && ops.Stripped(e.content, SrcHost) == host)
            || (process != "" && ops.Stripped(e.content, ProcessName) == process)))
    || NamesMalicious(ops, e, ops.Normalize(resolved))
  }

  predicate WriteCites(ops: TextOps, record: Evidence, e: Evidence) {
    var path, sha256 := ops.Stripped(record.content, Path), ops.Stripped(record.content, Sha256);
    || e.evidenceId == record.evidenceId
    || (&& TelemetryOf(e, FileActivity) && ClassOf(e) == ENDPOINT_CLASS && ByInterpreter(ops, e)
        && ops.casefold(ops.Stripped(e.content, FilePath)) == ops.casefold(path))
    || (sha256 != "" && NamesMalicious(ops, e, ops.Normalize(sha256)))
  }

  /** The items a draft under `key` is about: its group or its record, and what the rule joins to it.
      Reputation is joined to a file by its hash and to an address by its value, never otherwise. */
  predicate Cites(ops: TextOps, evidence: seq<Evidence>, key: RuleKey, e: Evidence) {
    match key
    case ProcessKey(group) => TelemetryOf(e, ProcessExecution) && GroupKey(ops, ProcessRule, e) == group
    case NetworkKey(group) =>
      || (Grouped(ops, FlowRule, e) && GroupKey(ops, FlowRule, e) == group)
      || (|group| > 0 && TelemetryOf(e, DnsQuery)
          && ops.Normalize(ops.Stripped(e.content, Response)) == ops.Normalize(group[0]))
    case IndicatorKey(group) =>
      && |group| > 0
      && (NamesMalicious(ops, e, group[0])
          || (ops.Normalize(group[0]) != "" && Telemetry(e) && Observes(ops, e, ops.Normalize(group[0]))))
    case FileKey(id) => ItemById(evidence, id).Some? && FileCites(ops, ItemById(evidence, id).value, e)
    case FlowKey(id) => ItemById(evidence, id).Some? && FlowCites(ops, ItemById(evidence, id).value, e)
    case WriteKey(id) => ItemById(evidence, id).Some? && WriteCites(ops, ItemById(evidence, id).value, e)
  }

  ghost predicate IdOf(evidence: seq<Evidence>, id: string, e: Evidence) {
    e in evidence && e.evidenceId == id
  }

  lemma IdsOf(items: seq<Evidence>, id: string)
    ensures id in EvidenceIds(items) <==> exists e :: IdOf(items, id, e)
  {
    if id in EvidenceIds(items) {
      var k :| 0 <= k < |items| && EvidenceIds(items)[k] == id;
      assert IdOf(items, id, items[k]);
    }
    if e :| IdOf(items, id, e) {
      var k :| 0 <= k < |items| && items[k] == e;
      assert EvidenceIds(items)[k] == id;
    }
  }

  lemma SelectedIds(ops: TextOps, evidence: seq<Evidence>, q: Query, id: string)
    ensures id in EvidenceIds(Select(ops, evidence, q)) <==> exists e :: IdOf(evidence, id, e) && Matches(ops, q, e)
  {
    hide Select, Matches, EvidenceIds;
    IdsOf(Select(ops, evidence, q), id);
    forall e ensures e in Select(ops, evidence, q) <==> e in evidence && Matches(ops, q, e) {
      Selected(ops, evidence, q, e);
    }
    if e :| IdOf(Select(ops, evidence, q), id, e) {
      assert IdOf(evidence, id, e);
    }
    if e :| IdOf(evidence, id, e) && Matches(ops, q, e) {
      assert IdOf(Select(ops, evidence, q), id, e);
    }
  }

  lemma PathEventIds(ops: TextOps, evidence: seq<Evidence>, path: string, id: string)
    ensures id in EvidenceIds(EventsAtPath(ops, evidence, path))
            <==> path != "" && exists e :: IdOf(evidence, id, e) && ClassOf(e) == ENDPOINT_CLASS
                                           && ops.Fold(path) in KeysOf(ops, ByPath, e)
  {
    hide Select, Hits, KeysOf, EvidenceIds, ClassOf, TextOps.Fold;
    if path == "" {
      IdsOf([], id);
    } else {
      var hits := Hits(ops, ByPath, evidence, ops.Fold(path));
      SelectedIds(ops, hits, EndpointRecords, id);
      forall e ensures e in hits <==> e in evidence && ops.Fold(path) in KeysOf(ops, ByPath, e) {
        HitsBelong(ops, ByPath, evidence, ops.Fold(path), e);
      }
      if e :| IdOf(hits, id, e) && Matches(ops, EndpointRecords, e) {
        assert IdOf(evidence, id, e);
      }
      if e :| IdOf(evidence, id, e) && ClassOf(e) == ENDPOINT_CLASS && ops.Fold(path) in KeysOf(ops, ByPath, e) {
        assert IdOf(hits, id, e) && Matches(ops, EndpointRecords, e);
      }
    }
  }

  lemma ReputationIds(ops: TextOps, evidence: seq<Evidence>, value: string, id: string)
    ensures id in EvidenceIds(ReputationsFor(ops, evidence, value))
            <==> value != "" && exists e :: IdOf(evidence, id, e) && NamesMalicious(ops, e, ops.Normalize(value))
  {
    hide Select, EvidenceIds, HasReputation, TextOps.Normalize, TextOps.Stripped;
    if value == "" {
      IdsOf([], id);
    } else {
      var q := InGroup(MaliciousIndicators, [ops.Normalize(value)]);
      SelectedIds(ops, evidence, q, id);
      assert forall e :: Matches(ops, q, e) <==> NamesMalicious(ops, e, ops.Normalize(value));
    }
  }

  lemma GroupCitations(ops: TextOps, evidence: seq<Evidence>, key: RuleKey, id: string)
    requires (key.ProcessKey? || key.NetworkKey? || key.IndicatorKey?) && DraftFor(ops, evidence, key).Some?
    ensures id in DraftFor(ops, evidence, key).value.evidenceIds
            <==> exists e :: IdOf(evidence, id, e) && Cites(ops, evidence, key, e)
  {
    hide Select, EvidenceIds, HasReputation, Telemetry, Observes, ByInterpreter, LineHas, FromTempFolder, NonEmpty,
         Targets, HasHash;
    hide TextOps.Normalize, TextOps.Stripped, TextOps.Rendered;
    match key
    case ProcessKey(group) =>
      SelectedIds(ops, evidence, InGroup(ProcessRule, group), id);
      assert forall e :: Matches(ops, InGroup(ProcessRule, group), e) <==> Cites(ops, evidence, key, e);
    case NetworkKey(group) =>
      var q, a := InGroup(FlowRule, group), AnswersTo(ops.Normalize(group[0]));
      SelectedIds(ops, evidence, q, id);
      SelectedIds(ops, evidence, a, id);
      assert forall e :: Cites(ops, evidence, key, e) <==> Matches(ops, q, e) || Matches(ops, a, e);
    case IndicatorKey(group) =>
      var q, o := InGroup(MaliciousIndicators, group), ObservedAs(ops.Normalize(group[0]));
      SelectedIds(ops, evidence, q, id);
      SelectedIds(ops, evidence, o, id);
      assert forall e :: Matches(ops, q, e) <==> NamesMalicious(ops, e, group[0]) by {
        assert group == [group[0]];
      }
      assert forall e :: Cites(ops, evidence, key, e) <==> Matches(ops, q, e) || Matches(ops, o, e);
  }

  lemma FileCitations(ops: TextOps, evidence: seq<Evidence>, record: Evidence, id: string)
    requires UniqueIds(evidence) && record in evidence && FileDraft(ops, evidence, record).Some?
    ensures id in FileDraft(ops, evidence, record).value.evidenceIds
            <==> exists e :: IdOf(evidence, id, e) && FileCites(ops, record, e)
  {
    hide Select, EvidenceIds, KeysOf, HasReputation, AnyMarker, NonEmpty, EventsAtPath;
    hide TextOps.Normalize, TextOps.Stripped, TextOps.Fold;
    var sha256, path := ops.Stripped(record.content, Sha256), ops.Stripped(record.content, Path);
    var m, s := HashReputation(sha256, "malicious"), HashReputation(sha256, "suspicious");
    SelectedIds(ops, evidence, m, id);
    SelectedIds(ops, evidence, s, id);
    IdsOf([], id);
    PathEventIds(ops, evidence, path, id);
    if id == record.evidenceId {
      assert IdOf(evidence, id, record) && FileCites(ops, record, record);
    }
    assert forall e :: FileCites(ops, record, e)
                       <==> || e.evidenceId == record.evidenceId
                            || (sha256 != "" && (Matches(ops, m, e) || Matches(ops, s, e)))
                            || (path != "" && ClassOf(e) == ENDPOINT_CLASS && ops.Fold(path) in KeysOf(ops, ByPath, e));
  }

  lemma FlowCitations(ops: TextOps, evidence: seq<Evidence>, dns: Evidence, id: string)
    requires UniqueIds(evidence) && dns in evidence && FlowDraft(ops, evidence, dns).Some?
    ensures id in FlowDraft(ops, evidence, dns).value.evidenceIds
            <==> exists e :: IdOf(evidence, id, e) && FlowCites(ops, dns, e)
  {
    hide Select, EvidenceIds, Telemetry, NonEmpty, NamesMalicious, ReputationsFor, DistinctRecordIds;
    hide TextOps.Normalize, TextOps.Stripped;
    var resolved := ops.Stripped(dns.content, Response);
    var q := FlowsFrom(resolved, ops.Stripped(dns.content, Host), ops.Stripped(dns.content, ProcessName));
    SelectedIds(ops, evidence, q, id);
    ReputationIds(ops, evidence, resolved, id);
    if id == dns.evidenceId {
      assert IdOf(evidence, id, dns) && FlowCites(ops, dns, dns);
    }
    assert forall e :: FlowCites(ops, dns, e)
                       <==> || e.evidenceId == dns.evidenceId || Matches(ops, q, e)
                            || NamesMalicious(ops, e, ops.Normalize(resolved));
  }

  lemma WriteCitations(ops: TextOps, evidence: seq<Evidence>, record: Evidence, id: string)
    requires UniqueIds(evidence) && record in evidence && WriteDraft(ops, evidence, record).Some?
    ensures id in WriteDraft(ops, evidence, record).value.evidenceIds
            <==> exists e :: IdOf(evidence, id, e) && WriteCites(ops, record, e)
  {
    hide Select, EvidenceIds, Telemetry, NonEmpty, NamesMalicious, ReputationsFor, AnyMarker, ByInterpreter;
    hide TextOps.Normalize, TextOps.Stripped;
    var path, sha256 := ops.Stripped(record.content, Path), ops.Stripped(record.content, Sha256);
    SelectedIds(ops, evidence, WritesTo(path), id);
    ReputationIds(ops, evidence, sha256, id);
    if id == record.evidenceId {
      assert IdOf(evidence, id, record) && WriteCites(ops, record, record);
    }
    assert forall e :: WriteCites(ops, record, e)
                       <==> || e.evidenceId == record.evidenceId || Matches(ops, WritesTo(path), e)
                            || (sha256 != "" && NamesMalicious(ops, e, ops.Normalize(sha256)));
  }

  /** A draft cites exactly the items its rule relates to its key, so unrelated records are never merged. */
  lemma CitationsAreExact(ops: TextOps, evidence: seq<Evidence>, d: Draft, id: string)
    requires UniqueIds(evidence) && d in Drafts(ops, evidence)
    ensures id in d.evidenceIds <==> exists e :: IdOf(evidence, id, e) && Cites(ops, evidence, d.key, e)
  {
    hide Drafts, ProcessDraft, FileDraft, NetworkDraft, IndicatorDraft, FlowDraft, WriteDraft, FileCites, FlowCites,
         WriteCites;
    hide Select, ItemById, NamesMalicious, Telemetry, Observes, Grouped, GroupKey, TextOps.Normalize, TextOps.Stripped;
    DraftIsMade(ops, evidence, d);
    match d.key
    case FileKey(r) => FileCitations(ops, evidence, ItemById(evidence, r).value, id);
    case FlowKey(r) => FlowCitations(ops, evidence, ItemById(evidence, r).value, id);
    case WriteKey(r) => WriteCitations(ops, evidence, ItemById(evidence, r).value, id);
    case _ => GroupCitations(ops, evidence, d.key, id);
  }

  // ----- grades --------------------------------------------------------------------------------

  predicate Remarkable(ops: TextOps, e: Evidence) {
    LineHas(ops, e, ENCODING_MARKERS) || LineHas(ops, e, HIDDEN_MARKERS) || FromTempFolder(ops, e)
  }

  /** Running a script interpreter stays low and weak exactly when no document process started it and no
      record of the group shows an encoded line, a hidden window or a user-writable path. */
  lemma PlainExecutionStaysLow(ops: TextOps, evidence: seq<Evidence>, d: Draft)
    requires d in Drafts(ops, evidence) && d.key.ProcessKey?
    ensures |d.key.group| == 3
    ensures d.severity == Low
            <==> ops.casefold(d.key.group[2]) !in DOCUMENT_PROCESSES
                 && forall e :: e in evidence && Cites(ops, evidence, d.key, e) ==> !Remarkable(ops, e)
    ensures d.support == Weak <==> d.severity == Low
  {
    hide Drafts, Select, LineHas, FromTempFolder, NonEmpty, EvidenceIds, Telemetry, TextOps.Stripped;
    DraftIsMade(ops, evidence, d);
    var q := InGroup(ProcessRule, d.key.group);
    var items := Select(ops, evidence, q);
    forall e ensures e in items <==> e in evidence && Cites(ops, evidence, d.key, e) {
      Selected(ops, evidence, q, e);
    }
  }

  /** Telemetry that shows the indicator at work: as a destination, a recorded hash or a DNS answer. */
  predicate ShowsAtWork(ops: TextOps, e: Evidence, indicator: string) {
    || Targets(ops, e, DstIp, ops.Normalize(indicator)) || Targets(ops, e, Response, ops.Normalize(indicator))
    || HasHash(ops, e, indicator)
  }

  /** An indicator match is of malicious grade iff some observing telemetry shows the indicator at work; an
      indicator merely seen as a source address or a queried name stays at medium. */
  lemma MaliciousGradeIff(ops: TextOps, evidence: seq<Evidence>, d: Draft)
    requires d in Drafts(ops, evidence) && d.key.IndicatorKey?
    ensures |d.key.group| == 1
    ensures d.MaliciousGrade()
            <==> exists e :: e in Occurrences(ops, evidence, d.key.group[0]) && ShowsAtWork(ops, e, d.key.group[0])
    ensures !d.MaliciousGrade() ==> d.severity == Medium
  {
    hide Drafts, Select, Occurrences, EvidenceIds, Targets, HasHash, TextOps.Normalize;
    DraftIsMade(ops, evidence, d);
  }

  lemma SelectionExists(ops: TextOps, evidence: seq<Evidence>, q: Query)
    ensures Select(ops, evidence, q) != [] <==> exists e :: e in evidence && Matches(ops, q, e)
  {
    hide Select, Matches;
    var items := Select(ops, evidence, q);
    if items != [] {
      assert items[0] in items;
      Selected(ops, evidence, q, items[0]);
    }
    if e :| e in evidence && Matches(ops, q, e) {
      Selected(ops, evidence, q, e);
    }
  }

  /** A file finding is high exactly when the file's own hash has a malicious reputation, else medium. */
  lemma FileGradeIff(ops: TextOps, evidence: seq<Evidence>, d: Draft, record: Evidence)
    requires d in Drafts(ops, evidence) && d.key.FileKey? && ItemById(evidence, d.key.recordEvidence) == Some(record)
    ensures d.severity == High || d.severity == Medium
    ensures d.severity == High
            <==> ops.Stripped(record.content, Sha256) != ""
                 && exists e :: e in evidence && HasReputation(e, "malicious")
                                && ops.Normalize(ops.Stripped(record.content, Sha256)) in KeysOf(ops, ByIndicator, e)
  {
    hide Drafts, Select, EvidenceIds, NonEmpty, AnyMarker, EventsAtPath, KeysOf, HasReputation, ItemById;
    hide TextOps.Normalize, TextOps.Stripped;
    DraftIsMade(ops, evidence, d);
    var q := HashReputation(ops.Stripped(record.content, Sha256), "malicious");
    SelectionExists(ops, evidence, q);
  }

  /** A network finding is medium exactly when a script interpreter issued one of its flows, else low. */
  lemma NetworkGradeIff(ops: TextOps, evidence: seq<Evidence>, d: Draft)
    requires d in Drafts(ops, evidence) && d.key.NetworkKey?
    ensures d.severity == Medium || d.severity == Low
    ensures d.severity == Medium
            <==> exists e :: e in evidence && Grouped(ops, FlowRule, e) && GroupKey(ops, FlowRule, e) == d.key.group
                             && ByInterpreter(ops, e)
  {
    hide Drafts, Select, EvidenceIds, ByInterpreter, Grouped, GroupKey, TextOps.Normalize;
    DraftIsMade(ops, evidence, d);
    var q := InGroup(FlowRule, d.key.group);
    forall e ensures e in Select(ops, evidence, q) <==> e in evidence && Matches(ops, q, e) {
      Selected(ops, evidence, q, e);
    }
  }

  /** A correlated pattern is high exactly when its address or hash is named malicious, else medium. */
  lemma CorrelationGradeIff(ops: TextOps, evidence: seq<Evidence>, d: Draft, item: Evidence)
    requires d in Drafts(ops, evidence)
    requires (d.key.FlowKey? && ItemById(evidence, d.key.dnsEvidence) == Some(item))
             || (d.key.WriteKey? && ItemById(evidence, d.key.recordEvidence) == Some(item))
    ensures d.severity == High || d.severity == Medium
    ensures var value := ops.Stripped(item.content, if d.key.FlowKey? then Response else Sha256);
            d.severity == High
            <==> value != "" && exists e :: e in evidence && NamesMalicious(ops, e, ops.Normalize(value))
  {
    hide Drafts, Select, EvidenceIds, NonEmpty, AnyMarker, DistinctRecordIds, HasReputation, ItemById;
    hide TextOps.Normalize, TextOps.Stripped;
    DraftIsMade(ops, evidence, d);
    var value := ops.Stripped(item.content, if d.key.FlowKey? then Response else Sha256);
    var q := InGroup(MaliciousIndicators, [ops.Normalize(value)]);
    SelectionExists(ops, evidence, q);
    assert forall e :: Matches(ops, q, e) <==> NamesMalicious(ops, e, ops.Normalize(value));
  }

  /** A correlated pattern cites two different observations of different kinds or classes. */
  lemma CorrelationIsIndependent(ops: TextOps, evidence: seq<Evidence>, d: Draft) returns (a: Evidence, b: Evidence)
    requires UniqueIds(evidence) && d in Drafts(ops, evidence) && d.findingType == CorrelatedAttackPattern
    ensures a in evidence && b in evidence && Telemetry(a) && Telemetry(b)
    ensures a.evidenceId in d.evidenceIds && b.evidenceId in d.evidenceIds && a.evidenceId != b.evidenceId
    ensures a.evidenceType != b.evidenceType || ClassOf(a) != ClassOf(b)
  {
    hide Drafts, Select, Hits, EvidenceIds, NonEmpty, AnyMarker, Occurrences, DistinctRecordIds, ItemById, Telemetry,
         Cites;
    hide ByInterpreter, Targets, HasHash, LineHas, FromTempFolder, TextOps.Normalize, TextOps.Stripped, ClassOf;
    DraftIsMade(ops, evidence, d);
    var rule := DraftTriggered(ops, evidence, d);
    var q: Query;
    if d.key.FlowKey? {
      a := ItemById(evidence, d.key.dnsEvidence).value;
      q := FlowsFrom(ops.Stripped(a.content, Response), ops.Stripped(a.content, Host),
                     ops.Stripped(a.content, ProcessName));
    } else {
      a := ItemById(evidence, d.key.recordEvidence).value;
      q := WritesTo(ops.Stripped(a.content, Path));
    }
    TriggerObserved(ops, evidence, rule, d.key, a);
    b := Select(ops, evidence, q)[0];
    assert b in Select(ops, evidence, q);
    Selected(ops, evidence, q, b);
    InIds(Select(ops, evidence, q), b);
    ClassesApart();
    DifferentItems(evidence, a, b);
  }

  lemma InIds(items: seq<Evidence>, e: Evidence)
    requires e in items
    ensures e.evidenceId in EvidenceIds(items)
  {
    var k :| 0 <= k < |items| && items[k] == e;
    assert EvidenceIds(items)[k] == e.evidenceId;
  }

  lemma ClassesApart()
    ensures FILE_CLASS != ENDPOINT_CLASS
  {
    ClassesDiffer();
  }

  lemma DifferentItems(evidence: seq<Evidence>, a: Evidence, b: Evidence)
    requires UniqueIds(evidence) && a in evidence && b in evidence && a != b
    ensures a.evidenceId != b.evidenceId
  {
    var j :| 0 <= j < |evidence| && evidence[j] == a;
    var k :| 0 <= k < |evidence| && evidence[k] == b;
  }

  /** The record behind a correlation's key is itself observed. */
  lemma TriggerObserved(ops: TextOps, evidence: seq<Evidence>, rule: Rule, key: RuleKey, item: Evidence)
    requires UniqueIds(evidence) && Triggers(ops, evidence, rule, key)
    requires (key.FlowKey? && ItemById(evidence, key.dnsEvidence) == Some(item))
             || (key.WriteKey? && ItemById(evidence, key.recordEvidence) == Some(item))
    ensures item in evidence && Telemetry(item)
    ensures key.FlowKey? ==> item.evidenceType == DnsQuery
    ensures key.WriteKey? ==> item.evidenceType == FileActivity && ClassOf(item) == FILE_CLASS
  {
    hide Telemetry, ItemById, ClassOf, Grouped, GroupKey;
    var e :| e in evidence && Matches(ops, TriggerOf(rule), e) && key == KeyFromItem(rule, e.evidenceId);
    ItemByItsId(evidence, e);
  }
}
