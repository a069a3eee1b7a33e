/** Deterministic evidence extraction (app/evidence/extractor.py). */
module Extractor {
  import opened Contracts
  import opened EvidenceContracts
  import opened TextOps
  import opened Dedup

  // ----- dataset records ---------------------------------------------------------------

  datatype EndpointEvent = EndpointEvent(
    eventId: string, host: string, user: Option<string>, eventType: string, processName: Option<string>,
    pid: Option<int>, parentProcessName: Option<string>, commandLine: Option<string>,
    filePath: Option<string>, sha256: Option<string>, metadata: map<string, Value>)

  datatype NetworkEvent = NetworkEvent(
    eventId: string, srcHost: Option<string>, srcIp: string, srcPort: Option<int>, dstIp: string, dstPort: int,
    protocol: string, direction: string, bytesSent: Option<int>, bytesReceived: Option<int>,
    processName: Option<string>, metadata: map<string, Value>)

  datatype DnsEvent = DnsEvent(
    eventId: string, host: string, srcIp: string, query: string, recordType: string,
    response: Option<string>, processName: Option<string>)

  datatype FileRecord = FileRecord(
    fileId: string, host: string, path: string, fileName: string, sha256: Option<string>, size: Option<int>,
    signed: Option<bool>, signer: Option<string>, sourceUrl: Option<string>)

  datatype ReputationRecord = ReputationRecord(
    indicator: string, indicatorType: string, reputation: string, confidence: Value, source: string,
    tags: seq<string>, lastSeen: Option<string>)

  datatype CtiRecord = CtiRecord(
    ctiId: string, title: string, summary: string, indicators: seq<string>, malwareFamilies: seq<string>,
    campaigns: seq<string>, techniqueIds: seq<string>, source: string, publishedAt: string)

  datatype TechniqueRecord = TechniqueRecord(
    techniqueId: string, name: string, description: string, tactics: seq<string>, keywords: seq<string>)

  /** Record validation: an arbitrary answer for every payload entry, and the confidence format. */
  datatype Schemas = Schemas(
    endpoint: Value -> Option<EndpointEvent>, network: Value -> Option<NetworkEvent>,
    dns: Value -> Option<DnsEvent>, file: Value -> Option<FileRecord>,
    reputation: Value -> Option<ReputationRecord>, cti: Value -> Option<CtiRecord>,
    technique: Value -> Option<TechniqueRecord>, fixedPoint: Value -> string)

  /** What is fixed during one extraction. */
  datatype CaseContext = CaseContext(caseId: string, ops: TextOps, schemas: Schemas, indicators: set<string>)

  // ----- content ------------------------------------------------------------------------

  function OptText(o: Option<string>): Option<Value> {
    if o.Some? then Some(Text(o.value)) else None
  }

  function OptNumber(o: Option<int>): Option<Value> {
    if o.Some? then Some(Number(o.value)) else None
  }

  function OptFlag(o: Option<bool>): Option<Value> {
    if o.Some? then Some(Flag(o.value)) else None
  }

  function Texts(xs: seq<string>): Value {
    Items(seq(|xs|, i requires 0 <= i < |xs| => Text(xs[i])))
  }

  /** Keep the facts that exist. */
  function Compact(facts: map<Field, Option<Value>>): Content {
    map f | f in facts && facts[f].Some? :: facts[f].value
  }

  const SELECTED_METADATA_KEYS :=
    {"logon_type", "source_ip", "source_workstation", "status", "auth_package", "service", "sni", "rule", "sensor"}

  function SelectedMetadata(metadata: map<string, Value>): (r: Content)
    ensures forall f :: f in r ==> f.Metadata?
  {
    map k | k in SELECTED_METADATA_KEYS && k in metadata && !metadata[k].Null? :: Metadata(k) := metadata[k]
  }

  /** The content of a record: its class, its id, its own facts and selected metadata. */
  function Facts(recordClass: string, recordId: string, facts: map<Field, Option<Value>>,
                 metadata: Content): (r: Content)
    ensures TextAt(r, RecordClass) == recordClass && TextAt(r, RecordId) == recordId
    ensures forall f :: f in r ==> f in facts || f in metadata || f in {RecordClass, RecordId}
  {
    (Compact(facts) + metadata)[RecordClass := Text(recordClass)][RecordId := Text(recordId)]
  }

  /** The content carries at most one of the two path fields. */
  predicate OnePath(content: Content) {
    !(Path in content && FilePath in content)
  }

  function EndpointFacts(e: EndpointEvent): (r: map<Field, Option<Value>>)
    ensures Path !in r
  {
    map[
      EventType := Some(Text(e.eventType)), Host := Some(Text(e.host)), User := OptText(e.user),
      ProcessName := OptText(e.processName), Pid := OptNumber(e.pid),
      ParentProcessName := OptText(e.parentProcessName), CommandLine := OptText(e.commandLine),
      FilePath := OptText(e.filePath), Sha256 := OptText(e.sha256)]
  }

  function EndpointContent(e: EndpointEvent): (r: Content)
    ensures TextAt(r, RecordClass) == ENDPOINT_CLASS && OnePath(r)
  {
    Facts(ENDPOINT_CLASS, e.eventId, EndpointFacts(e), SelectedMetadata(e.metadata))
  }

  function FlowEnds(e: NetworkEvent): map<Field, Option<Value>> {
    map[
      SrcHost := OptText(e.srcHost), SrcIp := Some(Text(e.srcIp)), SrcPort := OptNumber(e.srcPort),
      DstIp := Some(Text(e.dstIp)), DstPort := Some(Number(e.dstPort))]
  }

  function FlowDetails(e: NetworkEvent): map<Field, Option<Value>> {
    map[
      Protocol := Some(Text(e.protocol)), Direction := Some(Text(e.direction)), BytesSent := OptNumber(e.bytesSent),
      BytesReceived := OptNumber(e.bytesReceived), ProcessName := OptText(e.processName)]
  }

  function NetworkFacts(e: NetworkEvent): (r: map<Field, Option<Value>>)
    ensures Path !in r
  {
    FlowEnds(e) + FlowDetails(e)
  }

  function NetworkContent(e: NetworkEvent): (r: Content)
    ensures TextAt(r, RecordClass) == NETWORK_CLASS && OnePath(r)
  {
    Facts(NETWORK_CLASS, e.eventId, NetworkFacts(e), SelectedMetadata(e.metadata))
  }

  function DnsFacts(e: DnsEvent): map<Field, Option<Value>> {
    map[
      Host := Some(Text(e.host)),
      SrcIp := Some(Text(e.srcIp)), Query := Some(Text(e.query)), QueryType := Some(Text(e.recordType)),
      Response := OptText(e.response), ProcessName := OptText(e.processName)]
  }

  function DnsContent(e: DnsEvent): (r: Content)
    ensures TextAt(r, RecordClass) == DNS_CLASS && OnePath(r)
  {
    Facts(DNS_CLASS, e.eventId, DnsFacts(e), map[])
  }

  function FileFacts(r: FileRecord): map<Field, Option<Value>> {
    map[
      Host := Some(Text(r.host)),
      Path := Some(Text(r.path)), FileName := Some(Text(r.fileName)), Sha256 := OptText(r.sha256),
      Size := OptNumber(r.size), Signed := OptFlag(r.signed),
      Signer := OptText(r.signer), SourceUrl := OptText(r.sourceUrl)]
  }

  function FileContent(r: FileRecord): (content: Content)
    ensures TextAt(content, RecordClass) == FILE_CLASS && OnePath(content)
  {
    Facts(FILE_CLASS, r.fileId, FileFacts(r), map[])
  }

  function ReputationFacts(r: ReputationRecord): map<Field, Option<Value>> {
    map[
      Indicator := Some(Text(r.indicator)), IndicatorType := Some(Text(r.indicatorType)),
      Reputation := Some(Text(r.reputation)), Source := Some(Text(r.source)),
      SourceConfidence := Some(r.confidence), AssertedTags := Some(Texts(r.tags)), LastSeen := OptText(r.lastSeen)]
  }

  function ReputationContent(r: ReputationRecord): (content: Content)
    ensures TextAt(content, RecordClass) == REPUTATION_CLASS && OnePath(content)
  {
    Facts(REPUTATION_CLASS, r.indicator + "|" + r.source, ReputationFacts(r), map[])
  }

  function CtiFacts(r: CtiRecord): map<Field, Option<Value>> {
    map[
      CtiId := Some(Text(r.ctiId)),
      Title := Some(Text(r.title)), Description := Some(Text(r.summary)), Indicators := Some(Texts(r.indicators)),
      MalwareFamilies := Some(Texts(r.malwareFamilies)), Campaigns := Some(Texts(r.campaigns)),
      TechniqueIds := Some(Texts(r.techniqueIds)), Source := Some(Text(r.source)),
      PublishedAt := Some(Text(r.publishedAt))]
  }

  function CtiContent(r: CtiRecord): (content: Content)
    ensures TextAt(content, RecordClass) == CTI_CLASS && OnePath(content)
  {
    Facts(CTI_CLASS, r.ctiId, CtiFacts(r), map[])
  }

  function TechniqueFacts(r: TechniqueRecord): map<Field, Option<Value>> {
    map[
      TechniqueId := Some(Text(r.techniqueId)), Name := Some(Text(r.name)), Description := Some(Text(r.description)),
      Tactics := Some(Texts(r.tactics)), Keywords := Some(Texts(r.keywords))]
  }

  function TechniqueContent(r: TechniqueRecord): (content: Content)
    ensures TextAt(content, RecordClass) == ATTACK_CLASS && OnePath(content)
  {
    Facts(ATTACK_CLASS, r.techniqueId, TechniqueFacts(r), map[])
  }

  function EndpointType(eventType: string): (t: EvidenceType)
    ensures t.ProcessExecution? || t.FileActivity? || t.Authentication? || t.OtherActivity?
  {
    if eventType in {"process_creation", "process_termination", "process_access"} then ProcessExecution
    else if eventType in {"file_creation", "file_modification", "file_deletion"} then FileActivity
    else if eventType in {"authentication_failed", "authentication_success"} then Authentication
    else OtherActivity
  }

  // ----- identities, references and tags -------------------------------------------------

  function RecordIdentity(recordClass: string, recordId: string): string {
    recordClass + ":" + recordId
  }

  /** The content fingerprint of a reputation assertion. */
  function ReputationIdentity(k: CaseContext, r: ReputationRecord): string {
    RecordIdentity(REPUTATION_CLASS,
                   r.indicatorType + ":" + k.ops.casefold(r.indicator) + ":" + k.ops.casefold(r.source) + ":"
                   + r.reputation + ":" + k.schemas.fixedPoint(r.confidence))
  }

  function TelemetryRef(caseId: string, fileName: string, recordId: string): string {
    caseId + "/telemetry/" + fileName + "#" + recordId
  }

  function KnowledgeRef(fileName: string, key: string): string {
    "knowledge/" + fileName + "#" + key
  }

  function Reference(call: ToolCall, result: ToolResult, recordId: string, rawRef: string): SourceReference {
    SourceReference(call.toolName, call.callId, result.resultId, recordId, rawRef)
  }

  function TelemetryTags(toolName: string): seq<string> {
    [TAG_TELEMETRY, "tool:" + toolName]
  }

  function KnowledgeTags(toolName: string, linked: bool, extra: string): seq<string> {
    [TAG_KNOWLEDGE, "tool:" + toolName, extra, if linked then TAG_CASE_LINKED else TAG_UNLINKED]
  }

  predicate IsCaseLinked(k: CaseContext, indicator: string) {
    k.ops.casefold(indicator) in k.indicators
  }

  // ----- one record ------------------------------------------------------------------------

  /** The record lists a payload may carry, with how their records link to the case. */
  datatype Collection =
    | EndpointEvents | NetworkEvents | DnsEvents | Files | FileReputations | IndicatorReputations
    | CtiRecords | AttackTechniques
  {
    function Key(): string {
      match this
      case EndpointEvents => "items"
      case NetworkEvents => "network_events"
      case DnsEvents => "dns_events"
      case Files => "files"
      case FileReputations => "reputations"
      case IndicatorReputations => "records"
      case CtiRecords => "cti_records"
      case AttackTechniques => "attack_techniques"
    }
  }

  /** The lists each handler reads, in order; none for a tool without a handler. */
  function CollectionsOf(toolName: string): Option<seq<Collection>> {
    if toolName == SEARCH_ENDPOINT then Some([EndpointEvents])
    else if toolName == SEARCH_NETWORK then Some([NetworkEvents, DnsEvents])
    else if toolName == LOOKUP_FILE then Some([Files, FileReputations])
    else if toolName == LOOKUP_IOC then Some([IndicatorReputations])
    else if toolName == SEARCH_CTI then Some([CtiRecords, AttackTechniques])
    else None
  }

  /** An accepted record: its occurrence and the techniques it links to the case. */
  datatype Reading = Rejected | Accepted(occurrence: Occurrence, techniques: set<string>)

  function TelemetryOccurrence(call: ToolCall, result: ToolResult, evidenceType: EvidenceType, recordClass: string,
                               recordId: string, rawRef: string, content: Content): Reading
  {
    Accepted(Occurrence(RecordIdentity(recordClass, recordId), evidenceType, content, TelemetryTags(call.toolName),
                        Reference(call, result, recordId, rawRef)), {})
  }

  function ReadReputation(k: CaseContext, byConstruction: bool, call: ToolCall, result: ToolResult, raw: Value): Reading
  {
    match k.schemas.reputation(raw)
    case None => Rejected
    case Some(r) =>
      var requested := "indicator" in call.arguments && call.arguments["indicator"].Text?
                       && k.ops.casefold(call.arguments["indicator"].s) == k.ops.casefold(r.indicator);
      var linked := byConstruction || IsCaseLinked(k, r.indicator) || requested;
      var recordId := r.indicator + "|" + r.source;
      Accepted(Occurrence(ReputationIdentity(k, r), IocReputation, ReputationContent(r),
                          KnowledgeTags(call.toolName, linked, "reputation:" + r.reputation),
                          Reference(call, result, recordId, KnowledgeRef("ioc_reputation.json", recordId))), {})
  }

  function ReadCti(k: CaseContext, call: ToolCall, result: ToolResult, raw: Value): Reading {
    match k.schemas.cti(raw)
    case None => Rejected
    case Some(r) =>
      var linked := exists j :: 0 <= j < |r.indicators| && IsCaseLinked(k, r.indicators[j]);
      Accepted(Occurrence(RecordIdentity(CTI_CLASS, r.ctiId), ThreatIntelligence, CtiContent(r),
                          KnowledgeTags(call.toolName, linked, TAG_KNOWLEDGE_REFERENCE),
                          Reference(call, result, r.ctiId, KnowledgeRef("cti_records.json", r.ctiId))),
               if linked then set t | t in r.techniqueIds else {})
  }

  function ReadTechnique(k: CaseContext, techniques: set<string>, call: ToolCall, result: ToolResult,
                         raw: Value): Reading
  {
    match k.schemas.technique(raw)
    case None => Rejected
    case Some(r) =>
      Accepted(Occurrence(RecordIdentity(ATTACK_CLASS, r.techniqueId), AttackKnowledge, TechniqueContent(r),
                          KnowledgeTags(call.toolName, r.techniqueId in techniques, TAG_KNOWLEDGE_REFERENCE),
                          Reference(call, result, r.techniqueId,
                                    KnowledgeRef("attack_techniques.json", r.techniqueId))), {})
  }

  function ReadRecord(k: CaseContext, c: Collection, techniques: set<string>, call: ToolCall, result: ToolResult,
                      raw: Value): Reading
  {
    match c
    case EndpointEvents =>
      (match k.schemas.endpoint(raw)
       case None => Rejected
       case Some(e) => TelemetryOccurrence(call, result, EndpointType(e.eventType), ENDPOINT_CLASS, e.eventId,
                                           TelemetryRef(k.caseId, "endpoint_events.json", e.eventId),
                                           EndpointContent(e)))
    case NetworkEvents =>
      (match k.schemas.network(raw)
       case None => Rejected
       case Some(e) => TelemetryOccurrence(call, result, NetworkConnection, NETWORK_CLASS, e.eventId,
                                           TelemetryRef(k.caseId, "network_events.json", e.eventId), NetworkContent(e)))
    case DnsEvents =>
      (match k.schemas.dns(raw)
       case None => Rejected
       case Some(e) => TelemetryOccurrence(call, result, DnsQuery, DNS_CLASS, e.eventId,
                                           TelemetryRef(k.caseId, "dns_events.json", e.eventId), DnsContent(e)))
    case Files =>
      (match k.schemas.file(raw)
       case None => Rejected
       case Some(r) => TelemetryOccurrence(call, result, FileActivity, FILE_CLASS, r.fileId,
                                           TelemetryRef(k.caseId, "files.json", r.fileId), FileContent(r)))
    case FileReputations => ReadReputation(k, true, call, result, raw)
    case IndicatorReputations => ReadReputation(k, false, call, result, raw)
    case CtiRecords => ReadCti(k, call, result, raw)
    case AttackTechniques => ReadTechnique(k, techniques, call, result, raw)
  }

  // ----- whole runs ---------------------------------------------------------------------------

  /** What has been taken from a run so far. */
  datatype Intake = Intake(occs: seq<Occurrence>, warnings: seq<Warning>, techniques: set<string>)
  {
    function Warned(w: Warning): Intake {
      this.(warnings := warnings + [w])
    }
  }

  const NOTHING := Intake([], [], {})

  /** Taking more never discards what is already there, here and in the functions below. */
  function TakeRecord(k: CaseContext, c: Collection, i: Intake, call: ToolCall, result: ToolResult,
                      raw: Value): (r: Intake)
    ensures i.occs <= r.occs && i.warnings <= r.warnings && i.techniques <= r.techniques
  {
    match ReadRecord(k, c, i.techniques, call, result, raw)
    case Rejected => i.Warned(InvalidRecord(result.resultId, c.Key()))
    case Accepted(o, techniques) => Intake(i.occs + [o], i.warnings, i.techniques + techniques)
  }

  function TakeRecords(k: CaseContext, c: Collection, i: Intake, call: ToolCall, result: ToolResult,
                       raws: seq<Value>): (r: Intake)
    ensures i.occs <= r.occs && i.warnings <= r.warnings && i.techniques <= r.techniques
  {
    if raws == [] then i
    else TakeRecord(k, c, TakeRecords(k, c, i, call, result, raws[..|raws| - 1]), call, result, raws[|raws| - 1])
  }

  function TakeCollections(k: CaseContext, cs: seq<Collection>, i: Intake, call: ToolCall, result: ToolResult,
                           payload: map<string, Value>): (r: Intake)
    ensures i.occs <= r.occs && i.warnings <= r.warnings && i.techniques <= r.techniques
  {
    if cs == [] then i
    else
      var before := TakeCollections(k, cs[..|cs| - 1], i, call, result, payload);
      var c := cs[|cs| - 1];
      if c.Key() in payload && payload[c.Key()].Items? then TakeRecords(k, c, before, call, result, payload[c.Key()].xs)
      else before.Warned(MissingList(result.resultId, c.Key()))
  }

  /** The call of a result; a later call with the same id hides an earlier one. */
  function CallOf(calls: seq<ToolCall>, callId: string): (r: Option<ToolCall>)
    ensures r.Some? ==> r.value in calls && r.value.callId == callId
  {
    if calls == [] then None
    else if calls[|calls| - 1].callId == callId then Some(calls[|calls| - 1])
    else CallOf(calls[..|calls| - 1], callId)
  }

  function TakeResult(k: CaseContext, i: Intake, found: Option<ToolCall>, result: ToolResult): (r: Intake)
    ensures i.occs <= r.occs && i.warnings <= r.warnings && i.techniques <= r.techniques
  {
    if found.None? then i.Warned(NoCallFound(result.resultId))
    else if !result.success then i
    else match CollectionsOf(found.value.toolName)
      case None => i.Warned(NoEvidenceMapping(result.resultId))
      case Some(cs) =>
        if !result.data.Object? then i.Warned(UnsupportedPayload(result.resultId))
        else TakeCollections(k, cs, i, found.value, result, result.data.fields)
  }

  function TakeResults(k: CaseContext, calls: seq<ToolCall>, results: seq<ToolResult>): Intake {
    if results == [] then NOTHING
    else
      var last := results[|results| - 1];
      TakeResult(k, TakeResults(k, calls, results[..|results| - 1]), CallOf(calls, last.callId), last)
  }

  // ----- case indicators ------------------------------------------------------------------------

  /** The record lists whose entries contribute indicators, and the fields that do. */
  function IndicatorFields(toolName: string): seq<(string, set<string>)> {
    if toolName == SEARCH_ENDPOINT then
      [("items", {"host", "user", "process_name", "parent_process_name", "file_path", "sha256"})]
    else if toolName == SEARCH_NETWORK then
      [("network_events", {"src_ip", "dst_ip", "src_host", "process_name"}),
       ("dns_events", {"query", "host", "src_ip", "response", "process_name"})]
    else if toolName == LOOKUP_FILE then
      [("files", {"file_name", "path", "sha256", "host"})]
    else []
  }

  predicate HasText(raw: Value, key: string) {
    raw.Object? && key in raw.fields && raw.fields[key].Text? && raw.fields[key].s != ""
  }

  function RecordIndicators(ops: TextOps, raw: Value, keys: set<string>): set<string> {
    set key | key in keys && HasText(raw, key) :: ops.casefold(raw.fields[key].s)
  }

  function ListIndicators(ops: TextOps, raws: seq<Value>, keys: set<string>): set<string> {
    if raws == [] then {}
    else ListIndicators(ops, raws[..|raws| - 1], keys) + RecordIndicators(ops, raws[|raws| - 1], keys)
  }

  function PayloadIndicators(ops: TextOps, payload: map<string, Value>, lists: seq<(string, set<string>)>): set<string>
  {
    if lists == [] then {}
    else
      var (key, keys) := lists[|lists| - 1];
      PayloadIndicators(ops, payload, lists[..|lists| - 1])
      + if key in payload && payload[key].Items? then ListIndicators(ops, payload[key].xs, keys) else {}
  }

  function ResultIndicators(ops: TextOps, found: Option<ToolCall>, result: ToolResult): set<string> {
    if found.None? || !result.success || !result.data.Object? then {}
    else PayloadIndicators(ops, result.data.fields, IndicatorFields(found.value.toolName))
  }

  function AlertIndicators(ops: TextOps, alert: Alert): set<string> {
    set o | o in {alert.srcIp, alert.dstIp, alert.host, alert.user, alert.processName} && o.Some? && o.value != ""
          :: ops.casefold(o.value)
  }

  function CaseIndicators(ops: TextOps, alert: Alert, calls: seq<ToolCall>, results: seq<ToolResult>): set<string> {
    if results == [] then AlertIndicators(ops, alert)
    else
      var last := results[|results| - 1];
      CaseIndicators(ops, alert, calls, results[..|results| - 1])
        + ResultIndicators(ops, CallOf(calls, last.callId), last)
  }

  // ----- the extractor ----------------------------------------------------------------------------

  /** The part of an investigation run that the stages after the runtime read: no plan when the planner
      made none, no stop reason while the run goes on. */
  datatype RunRecord = RunRecord(
    alert: Alert, plan: Option<seq<Step>>, calls: seq<ToolCall>, results: seq<ToolResult>, status: RuntimeStatus,
    stopReason: Option<StopReason>)

  class DeterministicEvidenceExtractor {
    const caseId: string
    const ops: TextOps
    const schemas: Schemas

    constructor (caseId: string, ops: TextOps, schemas: Schemas)
      ensures this.caseId == caseId && this.ops == ops && this.schemas == schemas
    {
      this.caseId, this.ops, this.schemas := caseId, ops, schemas;
    }

    function ContextOf(run: RunRecord): CaseContext {
      CaseContext(caseId, ops, schemas, CaseIndicators(ops, run.alert, run.calls, run.results))
    }

    method CollectFromPayload(payload: map<string, Value>, lists: seq<(string, set<string>)>)
      returns (indicators: set<string>)
      ensures indicators == PayloadIndicators(ops, payload, lists)
    {
      hide RecordIndicators;
      indicators := {};
      for l := 0 to |lists|
        invariant indicators == PayloadIndicators(ops, payload, lists[..l])
      {
        var (key, keys) := lists[l];
        assert lists[..l + 1][..l] == lists[..l];
        if key in payload && payload[key].Items? {
          var raws := payload[key].xs;
          for j := 0 to |raws|
            invariant indicators == PayloadIndicators(ops, payload, lists[..l]) + ListIndicators(ops, raws[..j], keys)
          {
            assert raws[..j + 1][..j] == raws[..j];
            indicators := indicators + RecordIndicators(ops, raws[j], keys);
          }
          assert raws[..|raws|] == raws;
        }
      }
      assert lists[..|lists|] == lists;
    }

    /** The alert's fields and every telemetry record of the run, never a knowledge record. */
    method CollectCaseIndicators(run: RunRecord) returns (indicators: set<string>)
      ensures indicators == CaseIndicators(ops, run.alert, run.calls, run.results)
    {
      hide PayloadIndicators, IndicatorFields, CallOf;
      indicators := AlertIndicators(ops, run.alert);
      for n := 0 to |run.results|
        invariant indicators == CaseIndicators(ops, run.alert, run.calls, run.results[..n])
      {
        var result := run.results[n];
        assert run.results[..n + 1][..n] == run.results[..n];
        var found := CallOf(run.calls, result.callId);
        if found.None? || !result.success || !result.data.Object? {
          continue;
        }
        var more := CollectFromPayload(result.data.fields, IndicatorFields(found.value.toolName));
        indicators := indicators + more;
      }
      assert run.results[..|run.results|] == run.results;
    }

    /** One list of one payload: a malformed record adds a warning and nothing else. */
    method ExtractRecords(k: CaseContext, c: Collection, accumulator: EvidenceAccumulator, warned: seq<Warning>,
                          linked: set<string>, call: ToolCall, result: ToolResult, raws: seq<Value>)
      returns (warnings: seq<Warning>, techniques: set<string>)
      requires accumulator.Valid()
      modifies accumulator
      ensures accumulator.Valid()
      ensures Intake(accumulator.occurrences, warnings, techniques)
              == TakeRecords(k, c, Intake(old(accumulator.occurrences), warned, linked), call, result, raws)
    {
      hide ReadRecord, EvidenceAccumulator.Valid;
      warnings, techniques := warned, linked;
      ghost var start := Intake(accumulator.occurrences, warned, linked);
      for n := 0 to |raws|
        invariant accumulator.Valid()
        invariant Intake(accumulator.occurrences, warnings, techniques)
                  == TakeRecords(k, c, start, call, result, raws[..n])
      {
        assert raws[..n + 1][..n] == raws[..n];
        match ReadRecord(k, c, techniques, call, result, raws[n])
        case Rejected =>
          warnings := warnings + [InvalidRecord(result.resultId, c.Key())];
        case Accepted(occurrence, more) =>
          techniques := techniques + more;
          accumulator.Add(occurrence);
      }
      assert raws[..|raws|] == raws;
    }

    /** One handler: its lists in order, a missing list being skipped with a warning. */
    method ExtractPayload(k: CaseContext, cs: seq<Collection>, accumulator: EvidenceAccumulator, warned: seq<Warning>,
                          linked: set<string>, call: ToolCall, result: ToolResult, payload: map<string, Value>)
      returns (warnings: seq<Warning>, techniques: set<string>)
      requires accumulator.Valid()
      modifies accumulator
      ensures accumulator.Valid()
      ensures Intake(accumulator.occurrences, warnings, techniques)
              == TakeCollections(k, cs, Intake(old(accumulator.occurrences), warned, linked), call, result, payload)
    {
      hide TakeRecords, EvidenceAccumulator.Valid;
      warnings, techniques := warned, linked;
      ghost var start := Intake(accumulator.occurrences, warned, linked);
      for n := 0 to |cs|
        invariant accumulator.Valid()
        invariant Intake(accumulator.occurrences, warnings, techniques)
                  == TakeCollections(k, cs[..n], start, call, result, payload)
      {
        assert cs[..n + 1][..n] == cs[..n];
        var key := cs[n].Key();
        if key in payload && payload[key].Items? {
          warnings, techniques := ExtractRecords(k, cs[n], accumulator, warnings, techniques, call, result,
                                                 payload[key].xs);
        } else {
          warnings := warnings + [MissingList(result.resultId, key)];
        }
      }
      assert cs[..|cs|] == cs;
    }

    /** One result: skipped with a warning, skipped as failed, or read by its handler. */
    method ExtractResult(k: CaseContext, accumulator: EvidenceAccumulator, warned: seq<Warning>, linked: set<string>,
                         found: Option<ToolCall>, result: ToolResult)
      returns (warnings: seq<Warning>, techniques: set<string>)
      requires accumulator.Valid()
      modifies accumulator
      ensures accumulator.Valid()
      ensures Intake(accumulator.occurrences, warnings, techniques)
              == TakeResult(k, Intake(old(accumulator.occurrences), warned, linked), found, result)
    {
      hide TakeCollections, CollectionsOf, EvidenceAccumulator.Valid;
      warnings, techniques := warned, linked;
      if found.None? {
        warnings := warnings + [NoCallFound(result.resultId)];
        return;
      }
      if !result.success {
        return;
      }
      var collections := CollectionsOf(found.value.toolName);
      if collections.None? {
        warnings := warnings + [NoEvidenceMapping(result.resultId)];
        return;
      }
      if !result.data.Object? {
        warnings := warnings + [UnsupportedPayload(result.resultId)];
        return;
      }
      warnings, techniques := ExtractPayload(k, collections.value, accumulator, warnings, techniques, found.value,
                                             result, result.data.fields);
    }

    /** Evidence from every successful tool result of the run. */
    method Extract(run: RunRecord) returns (extraction: Extraction)
      ensures Built(extraction, TakeResults(ContextOf(run), run.calls, run.results).occs)
      ensures extraction.warnings == TakeResults(ContextOf(run), run.calls, run.results).warnings
      ensures |extraction.processed| == |run.results|
      ensures forall n :: 0 <= n < |run.results| ==> extraction.processed[n] == run.results[n].resultId
    {
      hide TakeResult, CallOf, EvidenceAccumulator.Valid, EvidenceOf, IsSourceIndex, Identities;
      var accumulator := new EvidenceAccumulator();
      var warnings: seq<Warning>, processed: seq<string>, techniques: set<string> := [], [], {};
      var indicators := CollectCaseIndicators(run);
      var k := CaseContext(caseId, ops, schemas, indicators);
      for n := 0 to |run.results|
        invariant accumulator.Valid()
        invariant |processed| == n && forall m :: 0 <= m < n ==> processed[m] == run.results[m].resultId
        invariant Intake(accumulator.occurrences, warnings, techniques) == TakeResults(k, run.calls, run.results[..n])
      {
        assert run.results[..n + 1][..n] == run.results[..n];
        processed := processed + [run.results[n].resultId];
        warnings, techniques := ExtractResult(k, accumulator, warnings, techniques,
                                              CallOf(run.calls, run.results[n].callId), run.results[n]);
      }
      assert run.results[..|run.results|] == run.results;
      var count := accumulator.Count();
      var evidence, sources := accumulator.Build();
      extraction := Extraction(evidence, sources, processed, count, warnings);
    }
  }
}
