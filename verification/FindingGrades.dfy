/** The grade of a finding follows from the items it cites, and from nothing else (app/findings/engine.py). */
module FindingGrades {
  import opened Contracts
  import opened EvidenceContracts
  import opened EvidenceIndexing
  import opened FindingLaws
  import opened FindingMeanings
  import opened FindingRules
  import opened Noninterference
  import opened Queries
  import opened TextOps

  /** The severity of a finding in which nothing cited stands out. */
  function BaseSeverity(t: FindingType): Severity {
    match t
    case SuspiciousProcessExecution => Low
    case SuspiciousNetworkActivity => Low
    case SuspiciousFileArtifact => Medium
    case MaliciousIndicatorMatch => Medium
    case CorrelatedAttackPattern => Medium
  }

  predicate FromDocument(ops: TextOps, e: Evidence) {
    ops.casefold(ops.Stripped(e.content, ParentProcessName)) in DOCUMENT_PROCESSES
  }

  /** What makes one cited item raise a finding: an execution out of a document, encoded, hidden or from a
      user-writable path; a flow issued by a script interpreter; telemetry showing the indicator at work; for a
      file or a correlated pattern a malicious reputation. */
  predicate Raises(ops: TextOps, d: Draft, e: Evidence) {
    match d.findingType
    case SuspiciousProcessExecution => Remarkable(ops, e) || FromDocument(ops, e)
    case SuspiciousNetworkActivity => e.evidenceType == NetworkConnection && ByInterpreter(ops, e)
    case MaliciousIndicatorMatch =>
      Telemetry(e) && |d.relatedIndicators| == 1 && ShowsAtWork(ops, e, d.relatedIndicators[0])
    case _ => HasReputation(e, "malicious")
  }

  ghost predicate Cited(evidence: seq<Evidence>, ids: seq<string>, e: Evidence) {
    e in evidence && e.evidenceId in ids
  }

  ghost predicate Raised(ops: TextOps, evidence: seq<Evidence>, d: Draft) {
    exists e :: Cited(evidence, d.evidenceIds, e) && Raises(ops, d, e)
  }

  /** The draft is at its base severity or above it, and above it iff it is raised. */
  ghost predicate GradeFollows(ops: TextOps, evidence: seq<Evidence>, d: Draft) {
    && d.severity.Rank() >= BaseSeverity(d.findingType).Rank()
    && (d.severity.Rank() > BaseSeverity(d.findingType).Rank() <==> Raised(ops, evidence, d))
  }

  lemma CitedIff(ops: TextOps, evidence: seq<Evidence>, d: Draft, e: Evidence)
    requires UniqueIds(evidence) && d in Drafts(ops, evidence) && e in evidence
    ensures Cited(evidence, d.evidenceIds, e) <==> Cites(ops, evidence, d.key, e)
  {
    hide Drafts, Cites;
    CitationsAreExact(ops, evidence, d, e.evidenceId);
    if Cites(ops, evidence, d.key, e) {
      assert IdOf(evidence, e.evidenceId, e);
    }
    forall f | IdOf(evidence, e.evidenceId, f) ensures f == e {
      SameItem(evidence, e, f);
    }
  }

  lemma SameItem(evidence: seq<Evidence>, e: Evidence, f: Evidence)
    requires UniqueIds(evidence) && e in evidence && f in evidence && e.evidenceId == f.evidenceId
    ensures e == f
  {
    var j :| 0 <= j < |evidence| && evidence[j] == e;
    var k :| 0 <= k < |evidence| && evidence[k] == f;
  }

  // ----- one rule at a time ---------------------------------------------------------------------

  lemma ProcessGrade(ops: TextOps, evidence: seq<Evidence>, d: Draft)
    requires Proper(evidence) && d in Drafts(ops, evidence) && d.key.ProcessKey?
    requires d.findingType == SuspiciousProcessExecution
    ensures GradeFollows(ops, evidence, d)
  {
    hide Drafts, Proper, Remarkable, Telemetry, TextOps.Stripped;
    assert UniqueIds(evidence) by { ProperIsUnique(evidence); }
    PlainExecutionStaysLow(ops, evidence, d);
    var rule := DraftTriggered(ops, evidence, d);
    var some :| some in evidence && Grouped(ops, ProcessRule, some)
      && d.key == ProcessKey(GroupKey(ops, ProcessRule, some));
    forall e | e in evidence ensures Cited(evidence, d.evidenceIds, e) <==> Cites(ops, evidence, d.key, e) {
      CitedIff(ops, evidence, d, e);
    }
    assert Cited(evidence, d.evidenceIds, some) && d.key.group[2] == ops.Stripped(some.content, ParentProcessName);
  }

  lemma ProperIsUnique(evidence: seq<Evidence>)
    requires Proper(evidence)
    ensures UniqueIds(evidence)
  {
  }

  lemma ReputationIsShaped(evidence: seq<Evidence>, e: Evidence, level: string)
    requires Proper(evidence) && e in evidence && HasReputation(e, level)
    ensures !Telemetry(e) && ClassOf(e) == REPUTATION_CLASS && ClassOf(e) != ENDPOINT_CLASS
  {
    ClassesDiffer();
  }

  lemma NetworkGrade(ops: TextOps, evidence: seq<Evidence>, d: Draft)
    requires Proper(evidence) && d in Drafts(ops, evidence) && d.key.NetworkKey?
    requires d.findingType == SuspiciousNetworkActivity
    ensures GradeFollows(ops, evidence, d)
  {
    hide Drafts, Proper, Telemetry, ByInterpreter, GroupKey, TextOps.Stripped, TextOps.Normalize;
    ProperIsUnique(evidence);
    NetworkGradeIff(ops, evidence, d);
    forall e | e in evidence ensures Cited(evidence, d.evidenceIds, e) <==> Cites(ops, evidence, d.key, e) {
      CitedIff(ops, evidence, d, e);
    }
  }

  lemma FileGrade(ops: TextOps, evidence: seq<Evidence>, d: Draft)
    requires Proper(evidence) && d in Drafts(ops, evidence) && d.key.FileKey?
    requires d.findingType == SuspiciousFileArtifact
    ensures GradeFollows(ops, evidence, d)
  {
    hide Drafts, Proper, Telemetry, HasReputation, KeysOf, ClassOf, TextOps.Stripped, TextOps.Normalize, TextOps.Fold;
    ProperIsUnique(evidence);
    var record := TriggerItem(ops, evidence, d);
    FileGradeIff(ops, evidence, d, record);
    forall e | e in evidence
      ensures Cited(evidence, d.evidenceIds, e) <==> FileCites(ops, record, e)
      ensures HasReputation(e, "malicious") ==> e.evidenceId != record.evidenceId && ClassOf(e) != ENDPOINT_CLASS
    {
      CitedIff(ops, evidence, d, e);
      if HasReputation(e, "malicious") { ReputationApart(evidence, e, record); }
    }
  }

  /** A reputation record is none of the observations. */
  lemma ReputationApart(evidence: seq<Evidence>, e: Evidence, record: Evidence)
    requires Proper(evidence) && e in evidence && record in evidence
    requires HasReputation(e, "malicious") && Telemetry(record)
    ensures e.evidenceId != record.evidenceId && ClassOf(e) != ENDPOINT_CLASS && !Telemetry(e)
  {
    hide Shaped;
    ReputationIsShaped(evidence, e, "malicious");
    if e.evidenceId == record.evidenceId { SameItem(evidence, e, record); }
  }

  /** The record behind a draft's key: it exists and is observed. */
  lemma TriggerItem(ops: TextOps, evidence: seq<Evidence>, d: Draft) returns (record: Evidence)
    requires UniqueIds(evidence) && d in Drafts(ops, evidence)
    requires d.key.FileKey? || d.key.FlowKey? || d.key.WriteKey?
    ensures record in evidence && Telemetry(record)
    ensures ItemById(evidence, if d.key.FlowKey? then d.key.dnsEvidence else d.key.recordEvidence) == Some(record)
  {
    hide Drafts, Telemetry, Grouped, GroupKey, ItemById;
    var rule := DraftTriggered(ops, evidence, d);
    record :| record in evidence && Matches(ops, TriggerOf(rule), record)
      && d.key == KeyFromItem(rule, record.evidenceId);
    ItemByItsId(evidence, record);
  }

  lemma ResolvedIsText(ops: TextOps, evidence: seq<Evidence>, d: Draft, record: Evidence)
    requires d in Drafts(ops, evidence)
    requires d.key.FlowKey? ==> ItemById(evidence, d.key.dnsEvidence) == Some(record)
    ensures d.key.FlowKey? ==> ops.Stripped(record.content, Response) != ""
  {
    hide Drafts, Select, NonEmpty, EvidenceIds, DistinctRecordIds, ItemById, TextOps.Stripped;
    if d.key.FlowKey? { DraftIsMade(ops, evidence, d); }
  }

  lemma CorrelationGrade(ops: TextOps, evidence: seq<Evidence>, d: Draft)
    requires Proper(evidence) && d in Drafts(ops, evidence) && (d.key.FlowKey? || d.key.WriteKey?)
    requires d.findingType == CorrelatedAttackPattern
    ensures GradeFollows(ops, evidence, d)
  {
    hide Drafts, Proper, Telemetry, HasReputation, ByInterpreter, ClassOf, TextOps.Stripped, TextOps.Normalize;
    ProperIsUnique(evidence);
    var record := TriggerItem(ops, evidence, d);
    CorrelationGradeIff(ops, evidence, d, record);
    ResolvedIsText(ops, evidence, d, record);
    forall e | e in evidence
      ensures Cited(evidence, d.evidenceIds, e) <==>
              if d.key.FlowKey? then FlowCites(ops, record, e) else WriteCites(ops, record, e)
      ensures HasReputation(e, "malicious") ==> e.evidenceId != record.evidenceId && !Telemetry(e)
    {
      CitedIff(ops, evidence, d, e);
      if HasReputation(e, "malicious") { ReputationApart(evidence, e, record); }
    }
  }

  lemma IndicatorGrade(ops: TextOps, evidence: seq<Evidence>, d: Draft)
    requires Proper(evidence) && d in Drafts(ops, evidence) && d.key.IndicatorKey?
    requires d.findingType == MaliciousIndicatorMatch && d.relatedIndicators == d.key.group
    ensures d.severity.Rank() >= 1
    ensures GradeFollows(ops, evidence, d)
  {
    hide Drafts, Proper, Telemetry, HasReputation, ShowsAtWork, TextOps.Stripped, TextOps.Normalize, Observes, Select;
    ProperIsUnique(evidence);
    MaliciousGradeIff(ops, evidence, d);
    forall e | e in evidence
      ensures Cited(evidence, d.evidenceIds, e) <==> Cites(ops, evidence, d.key, e)
      ensures HasReputation(e, "malicious") ==> !Telemetry(e)
      ensures e in Occurrences(ops, evidence, d.key.group[0])
              <==> ops.Normalize(d.key.group[0]) != "" && Telemetry(e)
                   && Observes(ops, e, ops.Normalize(d.key.group[0]))
    {
      CitedIff(ops, evidence, d, e);
      Selected(ops, evidence, ObservedAs(ops.Normalize(d.key.group[0])), e);
      if HasReputation(e, "malicious") { ReputationIsShaped(evidence, e, "malicious"); }
    }
    forall e | e in Occurrences(ops, evidence, d.key.group[0]) ensures e in evidence {
      Selected(ops, evidence, ObservedAs(ops.Normalize(d.key.group[0])), e);
    }
  }

  /** The type of a draft is that of its key, and an indicator draft is about its one indicator. */
  lemma TypeOfKey(ops: TextOps, evidence: seq<Evidence>, d: Draft)
    requires d in Drafts(ops, evidence)
    ensures d.key.ProcessKey? ==> d.findingType == SuspiciousProcessExecution
    ensures d.key.FileKey? ==> d.findingType == SuspiciousFileArtifact
    ensures d.key.NetworkKey? ==> d.findingType == SuspiciousNetworkActivity
    ensures d.key.IndicatorKey? ==> d.findingType == MaliciousIndicatorMatch && d.relatedIndicators == d.key.group
    ensures d.key.FlowKey? || d.key.WriteKey? ==> d.findingType == CorrelatedAttackPattern
  {
    hide Drafts, Select, Hits, AnyMarker, NonEmpty, EvidenceIds, Occurrences, DistinctRecordIds, ItemById, Targets,
         HasHash;
    hide LineHas, FromTempFolder, ByInterpreter, TextOps.Stripped, TextOps.Normalize;
    DraftIsMade(ops, evidence, d);
  }

  // ----- every finding -----------------------------------------------------------------------------

  lemma DraftGrade(ops: TextOps, evidence: seq<Evidence>, d: Draft)
    requires Proper(evidence) && d in Drafts(ops, evidence)
    ensures GradeFollows(ops, evidence, d)
  {
    hide Drafts, Proper, GradeFollows;
    TypeOfKey(ops, evidence, d);
    match d.key
    case ProcessKey(_) => ProcessGrade(ops, evidence, d);
    case FileKey(_) => FileGrade(ops, evidence, d);
    case NetworkKey(_) => NetworkGrade(ops, evidence, d);
    case IndicatorKey(_) => IndicatorGrade(ops, evidence, d);
    case FlowKey(_) => CorrelationGrade(ops, evidence, d);
    case WriteKey(_) => CorrelationGrade(ops, evidence, d);
  }

  /** A finding stands above the base severity of its type if and only if one of the items it cites raises it;
      in particular an indicator match is of malicious grade only on cited telemetry that shows it at work. */
  lemma GradeFollowsCitations(ops: TextOps, evidence: seq<Evidence>, f: Finding)
    requires Proper(evidence) && f in FindingsOf(ops, evidence)
    ensures f.draft.severity.Rank() >= BaseSeverity(f.draft.findingType).Rank()
    ensures f.draft.severity.Rank() > BaseSeverity(f.draft.findingType).Rank()
            <==> exists e :: Cited(evidence, f.evidenceIds, e) && Raises(ops, f.draft, e)
    ensures f.draft.MaliciousGrade()
            <==> f.draft.findingType == MaliciousIndicatorMatch
                 && exists e :: Cited(evidence, f.evidenceIds, e) && Raises(ops, f.draft, e)
  {
    hide Drafts, FindingsFrom, AllKnown, DraftKeys, Proper, Raises;
    ProperIsUnique(evidence);
    FindingsAreGrounded(ops, evidence);
    var k :| 0 <= k < |FindingsOf(ops, evidence)| && FindingsOf(ops, evidence)[k] == f;
    DraftGrade(ops, evidence, f.draft);
    assert forall e :: Cited(evidence, f.evidenceIds, e) <==> Cited(evidence, f.draft.evidenceIds, e);
  }

  // ----- the exact grades ---------------------------------------------------------------------------

  /** What a cited item can show. */
  datatype Sign =
    | OutOfDocument | Encoded | Hidden | UserPath
    | ByScript | NamedByAnswer
    | BadReputation | DoubtfulReputation | SeenAtPath
    | AsDestination | AsHash | AsAnswer

  /** The value of a field as an indicator, on telemetry about a finding with one indicator. */
  predicate SeenIn(ops: TextOps, d: Draft, e: Evidence, field: Field) {
    && Telemetry(e) && |d.relatedIndicators| == 1
    && ops.Normalize(ops.Stripped(e.content, field)) == ops.Normalize(d.relatedIndicators[0])
  }

  predicate Shows(ops: TextOps, d: Draft, sign: Sign, e: Evidence) {
    match sign
    case OutOfDocument => ops.casefold(ops.Stripped(e.content, ParentProcessName)) in DOCUMENT_PROCESSES
    case Encoded => AnyMarker(ops.casefold(ops.Stripped(e.content, CommandLine)), ENCODING_MARKERS)
    case Hidden => AnyMarker(ops.casefold(ops.Stripped(e.content, CommandLine)), HIDDEN_MARKERS)
    case UserPath =>
      ops.Stripped(e.content, FilePath) != ""
      && AnyMarker(ops.casefold(ops.Stripped(e.content, FilePath)), TEMP_PATH_MARKERS)
    case ByScript =>
      e.evidenceType == NetworkConnection && ops.casefold(ops.Stripped(e.content, ProcessName)) in SCRIPT_INTERPRETERS
    case NamedByAnswer => e.evidenceType == DnsQuery
    case BadReputation => HasReputation(e, "malicious")
    case DoubtfulReputation => HasReputation(e, "suspicious")
    case SeenAtPath => ClassOf(e) == ENDPOINT_CLASS
    case AsDestination => SeenIn(ops, d, e, DstIp)
    case AsHash =>
      && Telemetry(e) && |d.relatedIndicators| == 1
      && ops.casefold(ops.Stripped(e.content, Sha256)) == ops.casefold(d.relatedIndicators[0])
    case AsAnswer => SeenIn(ops, d, e, Response)
  }

  /** The signs in the terms of the rules. */
  lemma SignsAre(ops: TextOps, d: Draft, e: Evidence)
    ensures Shows(ops, d, Encoded, e) <==> LineHas(ops, e, ENCODING_MARKERS)
    ensures Shows(ops, d, Hidden, e) <==> LineHas(ops, e, HIDDEN_MARKERS)
    ensures Shows(ops, d, UserPath, e) <==> FromTempFolder(ops, e)
    ensures Shows(ops, d, ByScript, e) <==> e.evidenceType == NetworkConnection && ByInterpreter(ops, e)
    ensures |d.relatedIndicators| == 1 ==>
              var indicator := d.relatedIndicators[0];
              && (Shows(ops, d, AsDestination, e) <==> Telemetry(e) && Targets(ops, e, DstIp, ops.Normalize(indicator)))
              && (Shows(ops, d, AsAnswer, e) <==> Telemetry(e) && Targets(ops, e, Response, ops.Normalize(indicator)))
              && (Shows(ops, d, AsHash, e) <==> Telemetry(e) && HasHash(ops, e, indicator))
  {
    hide AnyMarker, TextOps.Stripped, TextOps.Normalize;
  }

  /** Some cited item shows the sign. */
  ghost predicate Shown(ops: TextOps, evidence: seq<Evidence>, d: Draft, sign: Sign) {
    exists e :: Cited(evidence, d.evidenceIds, e) && Shows(ops, d, sign, e)
  }

  /** The severity, step by step. */
  ghost predicate SeverityIs(ops: TextOps, evidence: seq<Evidence>, d: Draft) {
    match d.findingType
    case SuspiciousProcessExecution =>
      var grave := Shown(ops, evidence, d, OutOfDocument) || Shown(ops, evidence, d, Encoded);
      var notable := Shown(ops, evidence, d, Hidden) || Shown(ops, evidence, d, UserPath);
      && (d.severity.High? <==> grave)
      && (d.severity.Medium? <==> !grave && notable)
      && (d.severity.Low? <==> !grave && !notable)
    case SuspiciousFileArtifact =>
      && (d.severity.High? <==> Shown(ops, evidence, d, BadReputation))
      && (d.severity.Medium? <==> !Shown(ops, evidence, d, BadReputation))
    case SuspiciousNetworkActivity =>
      && (d.severity.Medium? <==> Shown(ops, evidence, d, ByScript))
      && (d.severity.Low? <==> !Shown(ops, evidence, d, ByScript))
    case MaliciousIndicatorMatch =>
      var targeted := Shown(ops, evidence, d, AsDestination);
      var present := Shown(ops, evidence, d, AsHash) || Shown(ops, evidence, d, AsAnswer);
      && (d.severity.Critical? <==> targeted)
      && (d.severity.High? <==> !targeted && present)
      && (d.severity.Medium? <==> !targeted && !present)
    case CorrelatedAttackPattern =>
      && (d.severity.High? <==> Shown(ops, evidence, d, BadReputation))
      && (d.severity.Medium? <==> !Shown(ops, evidence, d, BadReputation))
  }

  /** How well the finding is supported. */
  ghost predicate SupportIs(ops: TextOps, evidence: seq<Evidence>, d: Draft) {
    match d.findingType
    case SuspiciousProcessExecution =>
      && (d.support.Strong? <==> Shown(ops, evidence, d, OutOfDocument) && Shown(ops, evidence, d, Encoded))
      && (d.support.Weak? <==> d.severity.Low?)
    case SuspiciousFileArtifact =>
      var bad, doubtful := Shown(ops, evidence, d, BadReputation), Shown(ops, evidence, d, DoubtfulReputation);
      && (d.support.Strong? <==> bad && Shown(ops, evidence, d, SeenAtPath))
      && (d.support.Weak? <==> !bad && !doubtful)
    case SuspiciousNetworkActivity =>
      && !d.support.Strong?
      && (d.support.Moderate? <==> Shown(ops, evidence, d, ByScript) || Shown(ops, evidence, d, NamedByAnswer))
    case _ => d.support.Strong?
  }

  ghost predicate Graded(ops: TextOps, evidence: seq<Evidence>, d: Draft) {
    SeverityIs(ops, evidence, d) && SupportIs(ops, evidence, d)
  }

  lemma ProcessGraded(ops: TextOps, evidence: seq<Evidence>, d: Draft)
    requires Proper(evidence) && d in Drafts(ops, evidence) && d.key.ProcessKey?
    requires d.findingType == SuspiciousProcessExecution
    ensures Graded(ops, evidence, d)
  {
    hide Drafts, Proper, LineHas, FromTempFolder, TelemetryOf, NonEmpty, Select, TextOps.Stripped, GroupKey;
    ProperIsUnique(evidence);
    var q := InGroup(ProcessRule, d.key.group);
    forall e
      ensures e in Select(ops, evidence, q) <==> Cited(evidence, d.evidenceIds, e)
      ensures Shows(ops, d, Encoded, e) <==> LineHas(ops, e, ENCODING_MARKERS)
      ensures Shows(ops, d, Hidden, e) <==> LineHas(ops, e, HIDDEN_MARKERS)
      ensures Shows(ops, d, UserPath, e) <==> FromTempFolder(ops, e)
    {
      SignsAre(ops, d, e);
      Selected(ops, evidence, q, e);
      if e in evidence { CitedIff(ops, evidence, d, e); }
    }
    ParentIsGrouped(ops, evidence, d);
    DraftIsMade(ops, evidence, d);
  }

  /** All executions of a group have the same parent, and there is one. */
  lemma ParentIsGrouped(ops: TextOps, evidence: seq<Evidence>, d: Draft)
    requires UniqueIds(evidence) && d in Drafts(ops, evidence) && d.key.ProcessKey?
    ensures |d.key.group| == 3
    ensures Shown(ops, evidence, d, OutOfDocument) <==> ops.casefold(d.key.group[2]) in DOCUMENT_PROCESSES
  {
    hide Drafts, TelemetryOf, TextOps.Stripped;
    var rule := DraftTriggered(ops, evidence, d);
    var some :| some in evidence && Grouped(ops, ProcessRule, some)
      && d.key == ProcessKey(GroupKey(ops, ProcessRule, some));
    CitedIff(ops, evidence, d, some);
    assert Shows(ops, d, OutOfDocument, some) <==> ops.casefold(d.key.group[2]) in DOCUMENT_PROCESSES;
    if Shows(ops, d, OutOfDocument, some) { assert Cited(evidence, d.evidenceIds, some); }
    if e :| Cited(evidence, d.evidenceIds, e) && Shows(ops, d, OutOfDocument, e) {
      CitedIff(ops, evidence, d, e);
    }
  }

  lemma NetworkGraded(ops: TextOps, evidence: seq<Evidence>, d: Draft)
    requires Proper(evidence) && d in Drafts(ops, evidence) && d.key.NetworkKey?
    requires d.findingType == SuspiciousNetworkActivity
    ensures Graded(ops, evidence, d)
  {
    hide Drafts, Proper, ByInterpreter, Telemetry, Select, GroupKey, TextOps.Stripped, TextOps.Normalize;
    ProperIsUnique(evidence);
    DraftIsMade(ops, evidence, d);
    var q, a := InGroup(FlowRule, d.key.group), AnswersTo(ops.Normalize(d.key.group[0]));
    SelectionExists(ops, evidence, a);
    forall e | e in evidence
      ensures Cited(evidence, d.evidenceIds, e) <==> Cites(ops, evidence, d.key, e)
      ensures e in Select(ops, evidence, q) <==> Matches(ops, q, e)
      ensures Shows(ops, d, ByScript, e) <==> e.evidenceType == NetworkConnection && ByInterpreter(ops, e)
    {
      SignsAre(ops, d, e);
      CitedIff(ops, evidence, d, e);
      Selected(ops, evidence, q, e);
    }
    forall e | e in Select(ops, evidence, q) ensures e in evidence { Selected(ops, evidence, q, e); }
  }

  lemma FileGraded(ops: TextOps, evidence: seq<Evidence>, d: Draft)
    requires Proper(evidence) && d in Drafts(ops, evidence) && d.key.FileKey?
    requires d.findingType == SuspiciousFileArtifact
    ensures Graded(ops, evidence, d)
  {
    hide Drafts, Proper, Shown, HashReputations, NonEmpty, AnyMarker, EventsAtPath, ItemById;
    hide TextOps.Stripped, TextOps.Normalize, TextOps.Fold;
    ProperIsUnique(evidence);
    var record := TriggerFile(ops, evidence, d);
    DraftIsMade(ops, evidence, d);
    FileReputationShown(ops, evidence, d, record, "malicious");
    FileReputationShown(ops, evidence, d, record, "suspicious");
    FileEventShown(ops, evidence, d, record);
  }

  function SignOf(level: string): Sign {
    if level == "malicious" then BadReputation else DoubtfulReputation
  }

  lemma FileReputationShown(ops: TextOps, evidence: seq<Evidence>, d: Draft, record: Evidence, level: string)
    requires Proper(evidence) && d in Drafts(ops, evidence) && d.key.FileKey?
             && (level == "malicious" || level == "suspicious")
    requires record in evidence && Telemetry(record) && ClassOf(record) == FILE_CLASS
    requires ItemById(evidence, d.key.recordEvidence) == Some(record)
    ensures HashReputations(ops, evidence, ops.Stripped(record.content, Sha256), level) != []
            <==> Shown(ops, evidence, d, SignOf(level))
  {
    hide Drafts, Proper, Telemetry, HasReputation, KeysOf, ClassOf, Select, ItemById;
    hide TextOps.Stripped, TextOps.Normalize, TextOps.Fold;
    ProperIsUnique(evidence);
    LevelsDiffer();
    var sha256 := ops.Stripped(record.content, Sha256);
    SelectionExists(ops, evidence, HashReputation(sha256, level));
    assert forall e :: Shows(ops, d, SignOf(level), e) <==> HasReputation(e, level);
    forall e | e in evidence && HasReputation(e, level)
      ensures Cited(evidence, d.evidenceIds, e)
              <==> sha256 != "" && ops.Normalize(sha256) in KeysOf(ops, ByIndicator, e)
    {
      CitedIff(ops, evidence, d, e);
      FileItemsApart(evidence, e, record);
    }
  }

  lemma LevelsDiffer()
    ensures "malicious" != "suspicious"
  {
    assert "malicious"[0] == 'm' && "suspicious"[0] == 's';
  }

  lemma FileEventShown(ops: TextOps, evidence: seq<Evidence>, d: Draft, record: Evidence)
    requires Proper(evidence) && d in Drafts(ops, evidence) && d.key.FileKey?
    requires record in evidence && Telemetry(record) && ClassOf(record) == FILE_CLASS
    requires ItemById(evidence, d.key.recordEvidence) == Some(record)
    ensures EventsAtPath(ops, evidence, ops.Stripped(record.content, Path)) != []
            <==> Shown(ops, evidence, d, SeenAtPath)
  {
    hide Drafts, Proper, Telemetry, HasReputation, KeysOf, ClassOf, EventsAtPath, ItemById;
    hide TextOps.Stripped, TextOps.Normalize, TextOps.Fold;
    ProperIsUnique(evidence);
    var path := ops.Stripped(record.content, Path);
    EventsExist(ops, evidence, path);
    forall e | e in evidence && ClassOf(e) == ENDPOINT_CLASS
      ensures Cited(evidence, d.evidenceIds, e) <==> path != "" && ops.Fold(path) in KeysOf(ops, ByPath, e)
    {
      CitedIff(ops, evidence, d, e);
      FileItemsApart(evidence, e, record);
    }
  }

  /** The file record behind a draft's key. */
  lemma TriggerFile(ops: TextOps, evidence: seq<Evidence>, d: Draft) returns (record: Evidence)
    requires UniqueIds(evidence) && d in Drafts(ops, evidence) && d.key.FileKey?
    ensures record in evidence && Telemetry(record) && ClassOf(record) == FILE_CLASS
    ensures ItemById(evidence, d.key.recordEvidence) == Some(record)
  {
    hide Drafts, Telemetry, Grouped, GroupKey, ItemById, ClassOf;
    var rule := DraftTriggered(ops, evidence, d);
    record :| record in evidence && Matches(ops, TriggerOf(rule), record)
      && d.key == KeyFromItem(rule, record.evidenceId);
    ItemByItsId(evidence, record);
  }

  lemma FileItemsApart(evidence: seq<Evidence>, e: Evidence, record: Evidence)
    requires Proper(evidence) && e in evidence && record in evidence && Telemetry(record)
             && ClassOf(record) == FILE_CLASS
    ensures HasReputation(e, "malicious") || HasReputation(e, "suspicious") ==>
              e.evidenceId != record.evidenceId && ClassOf(e) != ENDPOINT_CLASS
    ensures ClassOf(e) == ENDPOINT_CLASS ==> e.evidenceId != record.evidenceId
  {
    hide Shaped;
    ClassesDiffer();
    if HasReputation(e, "malicious") { ReputationIsShaped(evidence, e, "malicious"); }
    if HasReputation(e, "suspicious") { ReputationIsShaped(evidence, e, "suspicious"); }
    if e.evidenceId == record.evidenceId { SameItem(evidence, e, record); }
  }

  lemma EventsExist(ops: TextOps, evidence: seq<Evidence>, path: string)
    ensures EventsAtPath(ops, evidence, path) != []
            <==> path != "" && exists e :: e in evidence && ClassOf(e) == ENDPOINT_CLASS
                                           && ops.Fold(path) in KeysOf(ops, ByPath, e)
  {
    hide Hits, KeysOf, ClassOf, Select, TextOps.Fold;
    if path != "" {
      var hits := Hits(ops, ByPath, evidence, ops.Fold(path));
      SelectionExists(ops, hits, EndpointRecords);
      forall e ensures e in hits <==> e in evidence && ops.Fold(path) in KeysOf(ops, ByPath, e) {
        HitsBelong(ops, ByPath, evidence, ops.Fold(path), e);
      }
    }
  }

  lemma IndicatorGraded(ops: TextOps, evidence: seq<Evidence>, d: Draft)
    requires Proper(evidence) && d in Drafts(ops, evidence) && d.key.IndicatorKey?
    requires d.findingType == MaliciousIndicatorMatch && d.relatedIndicators == d.key.group
    ensures Graded(ops, evidence, d)
  {
    hide Drafts, Proper, Telemetry, HasReputation, Targets, HasHash, TextOps.Stripped, TextOps.Normalize, Observes,
         Select;
    ProperIsUnique(evidence);
    DraftIsMade(ops, evidence, d);
    var indicator := d.key.group[0];
    assert |d.relatedIndicators| == 1 && d.relatedIndicators[0] == indicator;
    forall e
      ensures e in Occurrences(ops, evidence, indicator) <==> Cited(evidence, d.evidenceIds, e) && Telemetry(e)
      ensures Shows(ops, d, AsDestination, e) <==> Telemetry(e) && Targets(ops, e, DstIp, ops.Normalize(indicator))
      ensures Shows(ops, d, AsAnswer, e) <==> Telemetry(e) && Targets(ops, e, Response, ops.Normalize(indicator))
      ensures Shows(ops, d, AsHash, e) <==> Telemetry(e) && HasHash(ops, e, indicator)
    {
      SignsAre(ops, d, e);
      Selected(ops, evidence, ObservedAs(ops.Normalize(indicator)), e);
      if e in evidence {
        CitedIff(ops, evidence, d, e);
        if HasReputation(e, "malicious") { ReputationIsShaped(evidence, e, "malicious"); }
      }
    }
  }

  lemma CorrelationGraded(ops: TextOps, evidence: seq<Evidence>, d: Draft)
    requires Proper(evidence) && d in Drafts(ops, evidence) && (d.key.FlowKey? || d.key.WriteKey?)
    requires d.findingType == CorrelatedAttackPattern
    ensures Graded(ops, evidence, d)
  {
    hide Drafts, Proper, Select, NonEmpty, DistinctRecordIds, ItemById, Raises, HasReputation, AnyMarker;
    hide TextOps.Stripped, TextOps.Normalize;
    ProperIsUnique(evidence);
    CorrelationGrade(ops, evidence, d);
    var record := TriggerItem(ops, evidence, d);
    CorrelationGradeIff(ops, evidence, d, record);
    DraftIsMade(ops, evidence, d);
    assert forall e :: Raises(ops, d, e) <==> Shows(ops, d, BadReputation, e) by { RaisedBySign(ops, d); }
  }

  lemma RaisedBySign(ops: TextOps, d: Draft)
    requires d.findingType == CorrelatedAttackPattern
    ensures forall e :: Raises(ops, d, e) <==> Shows(ops, d, BadReputation, e)
  {
  }

  lemma DraftGraded(ops: TextOps, evidence: seq<Evidence>, d: Draft)
    requires Proper(evidence) && d in Drafts(ops, evidence)
    ensures Graded(ops, evidence, d)
  {
    hide Drafts, Proper, Graded;
    TypeOfKey(ops, evidence, d);
    match d.key
    case ProcessKey(_) => ProcessGraded(ops, evidence, d);
    case FileKey(_) => FileGraded(ops, evidence, d);
    case NetworkKey(_) => NetworkGraded(ops, evidence, d);
    case IndicatorKey(_) => IndicatorGraded(ops, evidence, d);
    case FlowKey(_) => CorrelationGraded(ops, evidence, d);
    case WriteKey(_) => CorrelationGraded(ops, evidence, d);
  }

  /** Severity and support of every finding are exactly what the items it cites show. */
  lemma GradesAreExact(ops: TextOps, evidence: seq<Evidence>, f: Finding)
    requires Proper(evidence) && f in FindingsOf(ops, evidence)
    ensures forall e :: Cited(evidence, f.evidenceIds, e) <==> Cited(evidence, f.draft.evidenceIds, e)
    ensures SeverityIs(ops, evidence, f.draft) && SupportIs(ops, evidence, f.draft)
  {
    hide Drafts, FindingsFrom, AllKnown, DraftKeys, Proper, SeverityIs, SupportIs;
    ProperIsUnique(evidence);
    FindingsAreGrounded(ops, evidence);
    var k :| 0 <= k < |FindingsOf(ops, evidence)| && FindingsOf(ops, evidence)[k] == f;
    DraftGraded(ops, evidence, f.draft);
  }
}
