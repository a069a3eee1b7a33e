/** What an evidence item says about the record it was read from (app/evidence/extractor.py). */
module RecordContents {
  import opened Contracts
  import opened Dedup
  import opened EvidenceContracts
  import opened ExtractionLaws
  import opened Extractor

  // ----- the value of each field, record class by record class --------------------------------------

  /** The content has the field exactly when there is a value for it, and then that value. */
  predicate Carries(content: Content, field: Field, value: Option<Value>) {
    (field in content <==> value.Some?) && (value.Some? ==> content[field] == value.value)
  }

  function Selected(metadata: map<string, Value>, key: string): Option<Value> {
    if key in SELECTED_METADATA_KEYS && key in metadata && metadata[key] != Null then Some(metadata[key]) else None
  }

  function EndpointValue(e: EndpointEvent, field: Field): Option<Value> {
    match field
    case RecordClass => Some(Text("endpoint_event"))
    case RecordId => Some(Text(e.eventId))
    case EventType => Some(Text(e.eventType))
    case Host => Some(Text(e.host))
    case User => OptText(e.user)
    case ProcessName => OptText(e.processName)
    case Pid => OptNumber(e.pid)
    case ParentProcessName => OptText(e.parentProcessName)
    case CommandLine => OptText(e.commandLine)
    case FilePath => OptText(e.filePath)
    case Sha256 => OptText(e.sha256)
    case Metadata(key) => Selected(e.metadata, key)
    case _ => None
  }

  function NetworkValue(e: NetworkEvent, field: Field): Option<Value> {
    match field
    case RecordClass => Some(Text("network_event"))
    case RecordId => Some(Text(e.eventId))
    case SrcHost => OptText(e.srcHost)
    case SrcIp => Some(Text(e.srcIp))
    case SrcPort => OptNumber(e.srcPort)
    case DstIp => Some(Text(e.dstIp))
    case DstPort => Some(Number(e.dstPort))
    case Protocol => Some(Text(e.protocol))
    case Direction => Some(Text(e.direction))
    case BytesSent => OptNumber(e.bytesSent)
    case BytesReceived => OptNumber(e.bytesReceived)
    case ProcessName => OptText(e.processName)
    case Metadata(key) => Selected(e.metadata, key)
    case _ => None
  }

  function DnsValue(e: DnsEvent, field: Field): Option<Value> {
    match field
    case RecordClass => Some(Text("dns_event"))
    case RecordId => Some(Text(e.eventId))
    case Host => Some(Text(e.host))
    case SrcIp => Some(Text(e.srcIp))
    case Query => Some(Text(e.query))
    case QueryType => Some(Text(e.recordType))
    case Response => OptText(e.response)
    case ProcessName => OptText(e.processName)
    case _ => None
  }

  function FileValue(r: FileRecord, field: Field): Option<Value> {
    match field
    case RecordClass => Some(Text("file_record"))
    case RecordId => Some(Text(r.fileId))
    case Host => Some(Text(r.host))
    case Path => Some(Text(r.path))
    case FileName => Some(Text(r.fileName))
    case Sha256 => OptText(r.sha256)
    case Size => OptNumber(r.size)
    case Signed => OptFlag(r.signed)
    case Signer => OptText(r.signer)
    case SourceUrl => OptText(r.sourceUrl)
    case _ => None
  }

  function ReputationValue(r: ReputationRecord, field: Field): Option<Value> {
    match field
    case RecordClass => Some(Text("ioc_reputation"))
    case RecordId => Some(Text(r.indicator + "|" + r.source))
    case Indicator => Some(Text(r.indicator))
    case IndicatorType => Some(Text(r.indicatorType))
    case Reputation => Some(Text(r.reputation))
    case Source => Some(Text(r.source))
    case SourceConfidence => Some(r.confidence)
    case AssertedTags => Some(Texts(r.tags))
    case LastSeen => OptText(r.lastSeen)
    case _ => None
  }

  function CtiValue(r: CtiRecord, field: Field): Option<Value> {
    match field
    case RecordClass => Some(Text("cti_record"))
    case RecordId => Some(Text(r.ctiId))
    case CtiId => Some(Text(r.ctiId))
    case Title => Some(Text(r.title))
    case Description => Some(Text(r.summary))
    case Indicators => Some(Texts(r.indicators))
    case MalwareFamilies => Some(Texts(r.malwareFamilies))
    case Campaigns => Some(Texts(r.campaigns))
    case TechniqueIds => Some(Texts(r.techniqueIds))
    case Source => Some(Text(r.source))
    case PublishedAt => Some(Text(r.publishedAt))
    case _ => None
  }

  function TechniqueValue(r: TechniqueRecord, field: Field): Option<Value> {
    match field
    case RecordClass => Some(Text("attack_technique"))
    case RecordId => Some(Text(r.techniqueId))
    case TechniqueId => Some(Text(r.techniqueId))
    case Name => Some(Text(r.name))
    case Description => Some(Text(r.description))
    case Tactics => Some(Texts(r.tactics))
    case Keywords => Some(Texts(r.keywords))
    case _ => None
  }

  // ----- every content carries exactly these values ----------------------------------------------------

  function At(facts: map<Field, Option<Value>>, field: Field): Option<Value> {
    if field in facts then facts[field] else None
  }

  /** A field of the record itself. */
  predicate Own(field: Field) {
    !field.Metadata? && field != RecordClass && field != RecordId
  }

  lemma FactsCarry(recordClass: string, recordId: string, facts: map<Field, Option<Value>>,
                   metadata: map<string, Value>, field: Field)
    ensures var c := Facts(recordClass, recordId, facts, SelectedMetadata(metadata));
            && Carries(c, RecordClass, Some(Text(recordClass))) && Carries(c, RecordId, Some(Text(recordId)))
            && (Own(field) ==> Carries(c, field, At(facts, field)))
            && (field.Metadata? && field !in facts ==> Carries(c, field, Selected(metadata, field.key)))
  {
    if field.Metadata? {
      SelectedAt(metadata, field.key);
    }
  }

  lemma SelectedAt(metadata: map<string, Value>, key: string)
    ensures Carries(SelectedMetadata(metadata), Metadata(key), Selected(metadata, key))
  {
  }

  lemma NoMetadata()
    ensures SelectedMetadata(map[]) == map[]
  {
  }

  lemma EndpointAt(e: EndpointEvent, field: Field)
    requires Own(field)
    ensures At(EndpointFacts(e), field) == EndpointValue(e, field)
  {
    hide Texts, OptText, OptNumber, OptFlag;
  }

  lemma EndpointNamed(e: EndpointEvent, key: string)
    ensures Metadata(key) !in EndpointFacts(e)
  {
  }

  lemma EndpointCarried(e: EndpointEvent, field: Field)
    ensures Carries(EndpointContent(e), field, EndpointValue(e, field))
  {
    hide Facts, EndpointFacts, SelectedMetadata, Carries, At;
    FactsCarry(ENDPOINT_CLASS, e.eventId, EndpointFacts(e), e.metadata, field);
    if Own(field) { EndpointAt(e, field); }
    if field.Metadata? { EndpointNamed(e, field.key); }
  }

  lemma FlowEndsAt(e: NetworkEvent, field: Field)
    ensures if field in {SrcHost, SrcIp, SrcPort, DstIp, DstPort} then At(FlowEnds(e), field) == NetworkValue(e, field)
            else field !in FlowEnds(e)
  {
  }

  lemma FlowDetailsAt(e: NetworkEvent, field: Field)
    ensures if field in {Protocol, Direction, BytesSent, BytesReceived, ProcessName}
            then At(FlowDetails(e), field) == NetworkValue(e, field) else field !in FlowDetails(e)
  {
  }

  lemma NetworkAt(e: NetworkEvent, field: Field)
    requires Own(field)
    ensures At(NetworkFacts(e), field) == NetworkValue(e, field)
  {
    hide FlowEnds, FlowDetails;
    FlowEndsAt(e, field);
    FlowDetailsAt(e, field);
  }

  lemma NetworkNamed(e: NetworkEvent, key: string)
    ensures Metadata(key) !in NetworkFacts(e)
  {
    hide FlowEnds, FlowDetails;
    FlowEndsAt(e, Metadata(key));
    FlowDetailsAt(e, Metadata(key));
  }

  lemma NetworkCarried(e: NetworkEvent, field: Field)
    ensures Carries(NetworkContent(e), field, NetworkValue(e, field))
  {
    hide Facts, NetworkFacts, SelectedMetadata, Carries, At;
    FactsCarry(NETWORK_CLASS, e.eventId, NetworkFacts(e), e.metadata, field);
    if Own(field) { NetworkAt(e, field); }
    if field.Metadata? { NetworkNamed(e, field.key); }
  }

  lemma DnsAt(e: DnsEvent, field: Field)
    requires Own(field)
    ensures At(DnsFacts(e), field) == DnsValue(e, field)
  {
    hide Texts, OptText, OptNumber, OptFlag;
  }

  lemma DnsNamed(e: DnsEvent, key: string)
    ensures Metadata(key) !in DnsFacts(e)
  {
    hide Texts;
  }

  lemma DnsCarried(e: DnsEvent, field: Field)
    ensures Carries(DnsContent(e), field, DnsValue(e, field))
  {
    hide Facts, DnsFacts, SelectedMetadata, Carries, At, Texts;
    NoMetadata();
    FactsCarry(DNS_CLASS, e.eventId, DnsFacts(e), map[], field);
    if Own(field) { DnsAt(e, field); }
    if field.Metadata? { DnsNamed(e, field.key); }
  }

  lemma FileAt(r: FileRecord, field: Field)
    requires Own(field)
    ensures At(FileFacts(r), field) == FileValue(r, field)
  {
    hide Texts, OptText, OptNumber, OptFlag;
  }

  lemma FileNamed(r: FileRecord, key: string)
    ensures Metadata(key) !in FileFacts(r)
  {
    hide Texts;
  }

  lemma FileCarried(r: FileRecord, field: Field)
    ensures Carries(FileContent(r), field, FileValue(r, field))
  {
    hide Facts, FileFacts, SelectedMetadata, Carries, At, Texts;
    NoMetadata();
    FactsCarry(FILE_CLASS, r.fileId, FileFacts(r), map[], field);
    if Own(field) { FileAt(r, field); }
    if field.Metadata? { FileNamed(r, field.key); }
  }

  lemma ReputationAt(r: ReputationRecord, field: Field)
    requires Own(field)
    ensures At(ReputationFacts(r), field) == ReputationValue(r, field)
  {
    hide Texts, OptText, OptNumber, OptFlag;
  }

  lemma ReputationNamed(r: ReputationRecord, key: string)
    ensures Metadata(key) !in ReputationFacts(r)
  {
    hide Texts;
  }

  lemma ReputationCarried(r: ReputationRecord, field: Field)
    ensures Carries(ReputationContent(r), field, ReputationValue(r, field))
  {
    hide Facts, ReputationFacts, SelectedMetadata, Carries, At, Texts;
    NoMetadata();
    FactsCarry(REPUTATION_CLASS, r.indicator + "|" + r.source, ReputationFacts(r), map[], field);
    if Own(field) { ReputationAt(r, field); }
    if field.Metadata? { ReputationNamed(r, field.key); }
  }

  lemma CtiAt(r: CtiRecord, field: Field)
    requires Own(field)
    ensures At(CtiFacts(r), field) == CtiValue(r, field)
  {
    hide Texts, OptText, OptNumber, OptFlag;
  }

  lemma CtiNamed(r: CtiRecord, key: string)
    ensures Metadata(key) !in CtiFacts(r)
  {
    hide Texts;
  }

  lemma CtiCarried(r: CtiRecord, field: Field)
    ensures Carries(CtiContent(r), field, CtiValue(r, field))
  {
    hide Facts, CtiFacts, SelectedMetadata, Carries, At, Texts;
    NoMetadata();
    FactsCarry(CTI_CLASS, r.ctiId, CtiFacts(r), map[], field);
    if Own(field) { CtiAt(r, field); }
    if field.Metadata? { CtiNamed(r, field.key); }
  }

  lemma TechniqueAt(r: TechniqueRecord, field: Field)
    requires Own(field)
    ensures At(TechniqueFacts(r), field) == TechniqueValue(r, field)
  {
    hide Texts, OptText, OptNumber, OptFlag;
  }

  lemma TechniqueNamed(r: TechniqueRecord, key: string)
    ensures Metadata(key) !in TechniqueFacts(r)
  {
    hide Texts;
  }

  lemma TechniqueCarried(r: TechniqueRecord, field: Field)
    ensures Carries(TechniqueContent(r), field, TechniqueValue(r, field))
  {
    hide Facts, TechniqueFacts, SelectedMetadata, Carries, At, Texts;
    NoMetadata();
    FactsCarry(ATTACK_CLASS, r.techniqueId, TechniqueFacts(r), map[], field);
    if Own(field) { TechniqueAt(r, field); }
    if field.Metadata? { TechniqueNamed(r, field.key); }
  }

  // ----- one accepted record ---------------------------------------------------------------------------

  /** What the record behind `raw` says about a field, when it is a record of the list `c`. */
  function ValueOf(schemas: Schemas, c: Collection, raw: Value, field: Field): Option<Value> {
    match c
    case EndpointEvents =>
      (match schemas.endpoint(raw) case None => None case Some(e) => EndpointValue(e, field))
    case NetworkEvents =>
      (match schemas.network(raw) case None => None case Some(e) => NetworkValue(e, field))
    case DnsEvents =>
      (match schemas.dns(raw) case None => None case Some(e) => DnsValue(e, field))
    case Files =>
      (match schemas.file(raw) case None => None case Some(r) => FileValue(r, field))
    case CtiRecords =>
      (match schemas.cti(raw) case None => None case Some(r) => CtiValue(r, field))
    case AttackTechniques =>
      (match schemas.technique(raw) case None => None case Some(r) => TechniqueValue(r, field))
    case _ =>
      (match schemas.reputation(raw) case None => None case Some(r) => ReputationValue(r, field))
  }

  /** A record is accepted exactly when its schema accepts it. */
  predicate Readable(schemas: Schemas, c: Collection, raw: Value) {
    match c
    case EndpointEvents => schemas.endpoint(raw).Some?
    case NetworkEvents => schemas.network(raw).Some?
    case DnsEvents => schemas.dns(raw).Some?
    case Files => schemas.file(raw).Some?
    case CtiRecords => schemas.cti(raw).Some?
    case AttackTechniques => schemas.technique(raw).Some?
    case _ => schemas.reputation(raw).Some?
  }

  /** Every field of the content is that of the record, and no other is there. */
  ghost predicate Agrees(schemas: Schemas, c: Collection, raw: Value, content: Content) {
    forall field :: Carries(content, field, ValueOf(schemas, c, raw, field))
  }

  lemma ReadingAgrees(k: CaseContext, c: Collection, techniques: set<string>, call: ToolCall, result: ToolResult,
                      raw: Value)
    ensures ReadRecord(k, c, techniques, call, result, raw).Accepted? <==> Readable(k.schemas, c, raw)
    ensures ReadRecord(k, c, techniques, call, result, raw).Accepted? ==>
              Agrees(k.schemas, c, raw, ReadRecord(k, c, techniques, call, result, raw).occurrence.content)
  {
    hide EndpointContent, NetworkContent, DnsContent, FileContent, ReputationContent, CtiContent, TechniqueContent;
    hide TelemetryTags, KnowledgeTags, TelemetryRef, KnowledgeRef, EndpointType, Carries, IsCaseLinked;
    hide EndpointValue, NetworkValue, DnsValue, FileValue, ReputationValue, CtiValue, TechniqueValue;
    if Readable(k.schemas, c, raw) {
      var content := ReadRecord(k, c, techniques, call, result, raw).occurrence.content;
      forall field ensures Carries(content, field, ValueOf(k.schemas, c, raw, field)) {
        match c
        case EndpointEvents => EndpointCarried(k.schemas.endpoint(raw).value, field);
        case NetworkEvents => NetworkCarried(k.schemas.network(raw).value, field);
        case DnsEvents => DnsCarried(k.schemas.dns(raw).value, field);
        case Files => FileCarried(k.schemas.file(raw).value, field);
        case CtiRecords => CtiCarried(k.schemas.cti(raw).value, field);
        case AttackTechniques => TechniqueCarried(k.schemas.technique(raw).value, field);
        case _ => ReputationCarried(k.schemas.reputation(raw).value, field);
      }
    }
  }

  /** The evidence type of an accepted record is that of its list; for endpoint events the event type decides. */
  predicate TypeFits(schemas: Schemas, c: Collection, raw: Value, t: EvidenceType) {
    match c
    case EndpointEvents =>
      schemas.endpoint(raw).Some? &&
      var eventType := schemas.endpoint(raw).value.eventType;
      && (t.ProcessExecution? <==> eventType in {"process_creation", "process_termination", "process_access"})
      && (t.FileActivity? <==> eventType in {"file_creation", "file_modification", "file_deletion"})
      && (t.Authentication? <==> eventType in {"authentication_failed", "authentication_success"})
      && (t.ProcessExecution? || t.FileActivity? || t.Authentication? || t.OtherActivity?)
    case NetworkEvents => t.NetworkConnection?
    case DnsEvents => t.DnsQuery?
    case Files => t.FileActivity?
    case CtiRecords => t.ThreatIntelligence?
    case AttackTechniques => t.AttackKnowledge?
    case _ => t.IocReputation?
  }

  lemma EventTypesDiffer()
    ensures {"process_creation", "process_termination", "process_access"}
            !! {"file_creation", "file_modification", "file_deletion",
                "authentication_failed", "authentication_success"}
    ensures {"file_creation", "file_modification", "file_deletion"}
            !! {"authentication_failed", "authentication_success"}
  {
    assert "process_creation"[0] == "process_termination"[0] == "process_access"[0] == 'p';
    assert "file_creation"[0] == "file_modification"[0] == "file_deletion"[0] == 'f';
    assert "authentication_failed"[0] == "authentication_success"[0] == 'a';
  }

  lemma EndpointTypeFits(eventType: string)
    ensures var t := EndpointType(eventType);
            && (t.ProcessExecution? <==> eventType in {"process_creation", "process_termination", "process_access"})
            && (t.FileActivity? <==> eventType in {"file_creation", "file_modification", "file_deletion"})
            && (t.Authentication? <==> eventType in {"authentication_failed", "authentication_success"})
  {
    EventTypesDiffer();
  }

  lemma ReadingTypeFits(k: CaseContext, c: Collection, techniques: set<string>, call: ToolCall, result: ToolResult,
                        raw: Value)
    requires ReadRecord(k, c, techniques, call, result, raw).Accepted?
    ensures TypeFits(k.schemas, c, raw, ReadRecord(k, c, techniques, call, result, raw).occurrence.evidenceType)
  {
    hide EndpointContent, NetworkContent, DnsContent, FileContent, ReputationContent, CtiContent, TechniqueContent;
    hide TelemetryTags, KnowledgeTags, TelemetryRef, KnowledgeRef, EndpointType, IsCaseLinked;
    if c.EndpointEvents? { EndpointTypeFits(k.schemas.endpoint(raw).value.eventType); }
  }

  /** What makes two records of the list the same record: class and id, and for reputations the assertion. */
  function IdentityFor(k: CaseContext, c: Collection, raw: Value): string
    requires Readable(k.schemas, c, raw)
  {
    match c
    case EndpointEvents => ENDPOINT_CLASS + ":" + k.schemas.endpoint(raw).value.eventId
    case NetworkEvents => NETWORK_CLASS + ":" + k.schemas.network(raw).value.eventId
    case DnsEvents => DNS_CLASS + ":" + k.schemas.dns(raw).value.eventId
    case Files => FILE_CLASS + ":" + k.schemas.file(raw).value.fileId
    case CtiRecords => CTI_CLASS + ":" + k.schemas.cti(raw).value.ctiId
    case AttackTechniques => ATTACK_CLASS + ":" + k.schemas.technique(raw).value.techniqueId
    case _ => ReputationIdentity(k, k.schemas.reputation(raw).value)
  }

  lemma ReadingIdentity(k: CaseContext, c: Collection, techniques: set<string>, call: ToolCall, result: ToolResult,
                        raw: Value)
    requires Readable(k.schemas, c, raw) && ReadRecord(k, c, techniques, call, result, raw).Accepted?
    ensures ReadRecord(k, c, techniques, call, result, raw).occurrence.identity == IdentityFor(k, c, raw)
  {
    hide EndpointContent, NetworkContent, DnsContent, FileContent, ReputationContent, CtiContent, TechniqueContent;
    hide TelemetryTags, KnowledgeTags, TelemetryRef, KnowledgeRef, EndpointType, IsCaseLinked, ReputationIdentity;
  }

  /** Where the raw record is to be found. */
  function RawRefFor(k: CaseContext, c: Collection, raw: Value): string
    requires Readable(k.schemas, c, raw)
  {
    match c
    case EndpointEvents => TelemetryRef(k.caseId, "endpoint_events.json", k.schemas.endpoint(raw).value.eventId)
    case NetworkEvents => TelemetryRef(k.caseId, "network_events.json", k.schemas.network(raw).value.eventId)
    case DnsEvents => TelemetryRef(k.caseId, "dns_events.json", k.schemas.dns(raw).value.eventId)
    case Files => TelemetryRef(k.caseId, "files.json", k.schemas.file(raw).value.fileId)
    case CtiRecords => KnowledgeRef("cti_records.json", k.schemas.cti(raw).value.ctiId)
    case AttackTechniques => KnowledgeRef("attack_techniques.json", k.schemas.technique(raw).value.techniqueId)
    case _ =>
      var r := k.schemas.reputation(raw).value;
      KnowledgeRef("ioc_reputation.json", r.indicator + "|" + r.source)
  }

  /** The reference names the tool and the raw record that the content names, too, and a tag names the tool. */
  ghost predicate RefersTo(k: CaseContext, c: Collection, call: ToolCall, raw: Value, o: Occurrence)
    requires Readable(k.schemas, c, raw)
  {
    && o.reference.sourceName == call.toolName && o.reference.rawRef == RawRefFor(k, c, raw)
    && o.reference.recordId == TextAt(o.content, RecordId)
    && ("tool:" + call.toolName) in o.tags
    && (c.FileReputations? || c.IndicatorReputations? ==>
          ("reputation:" + k.schemas.reputation(raw).value.reputation) in o.tags)
  }

  lemma ToolTagged(toolName: string)
    ensures ("tool:" + toolName) in TelemetryTags(toolName)
    ensures forall linked, extra :: ("tool:" + toolName) in KnowledgeTags(toolName, linked, extra)
                                    && extra in KnowledgeTags(toolName, linked, extra)
  {
    assert TelemetryTags(toolName)[1] == "tool:" + toolName;
    forall linked, extra ensures ("tool:" + toolName) in KnowledgeTags(toolName, linked, extra)
                                 && extra in KnowledgeTags(toolName, linked, extra) {
      var tags := KnowledgeTags(toolName, linked, extra);
      assert tags[1] == "tool:" + toolName && tags[2] == extra;
    }
  }

  lemma ReadingRefersTo(k: CaseContext, c: Collection, techniques: set<string>, call: ToolCall, result: ToolResult,
                        raw: Value)
    requires Readable(k.schemas, c, raw) && ReadRecord(k, c, techniques, call, result, raw).Accepted?
    ensures RefersTo(k, c, call, raw, ReadRecord(k, c, techniques, call, result, raw).occurrence)
  {
    ToolTagged(call.toolName);
    hide TelemetryTags, KnowledgeTags, TelemetryRef, KnowledgeRef, EndpointType, IsCaseLinked, ReputationIdentity;
    hide EndpointFacts, NetworkFacts, DnsFacts, FileFacts, ReputationFacts, CtiFacts, TechniqueFacts, SelectedMetadata;
    hide RecordIdentity, Compact, OnePath;
  }

  /** The call asked for this very indicator. */
  predicate AskedFor(k: CaseContext, call: ToolCall, indicator: string) {
    && "indicator" in call.arguments && call.arguments["indicator"].Text?
    && k.ops.casefold(call.arguments["indicator"].s) == k.ops.casefold(indicator)
  }

  /** When a reputation or a report is linked to the case: a reputation of a matched file always, another one if its
      indicator is one of the case's or was asked for, a report if it lists an indicator of the case. */
  ghost predicate LinkFits(k: CaseContext, c: Collection, call: ToolCall, raw: Value, tags: seq<string>)
    requires Readable(k.schemas, c, raw)
  {
    match c
    case FileReputations => TAG_CASE_LINKED in tags
    case IndicatorReputations =>
      var r := k.schemas.reputation(raw).value;
      TAG_CASE_LINKED in tags
      <==> k.ops.casefold(r.indicator) in k.indicators || AskedFor(k, call, r.indicator)
    case CtiRecords =>
      var r := k.schemas.cti(raw).value;
      TAG_CASE_LINKED in tags
      <==> exists j :: 0 <= j < |r.indicators| && k.ops.casefold(r.indicators[j]) in k.indicators
    case _ => true
  }

  lemma ReadingLinks(k: CaseContext, c: Collection, techniques: set<string>, call: ToolCall, result: ToolResult,
                     raw: Value)
    requires Readable(k.schemas, c, raw) && ReadRecord(k, c, techniques, call, result, raw).Accepted?
    ensures LinkFits(k, c, call, raw, ReadRecord(k, c, techniques, call, result, raw).occurrence.tags)
  {
    hide ReputationContent, CtiContent, KnowledgeRef, ReputationIdentity, KnowledgeTags;
    match c
    case CtiRecords =>
      TagsApart(call.toolName, true, TAG_KNOWLEDGE_REFERENCE);
      TagsApart(call.toolName, false, TAG_KNOWLEDGE_REFERENCE);
    case FileReputations =>
      ReputationTags(call.toolName, k.schemas.reputation(raw).value.reputation);
    case IndicatorReputations =>
      ReputationTags(call.toolName, k.schemas.reputation(raw).value.reputation);
    case _ =>
  }

  lemma ReputationTags(toolName: string, reputation: string)
    ensures TAG_CASE_LINKED in KnowledgeTags(toolName, true, "reputation:" + reputation)
    ensures TAG_CASE_LINKED !in KnowledgeTags(toolName, false, "reputation:" + reputation)
  {
    assert ("reputation:" + reputation)[0] == 'r';
    TagsApart(toolName, true, "reputation:" + reputation);
    TagsApart(toolName, false, "reputation:" + reputation);
  }

  // ----- whole extractions -------------------------------------------------------------------------------

  /** `raw` is a record of the list `c` in a successful result of the run, under the tool that returns such lists. */
  predicate ReturnedRecord(calls: seq<ToolCall>, results: seq<ToolResult>, call: ToolCall, result: ToolResult,
                           c: Collection, raw: Value)
  {
    && result in results && result.success && CallOf(calls, result.callId) == Some(call)
    && CollectionsOf(call.toolName).Some? && c in CollectionsOf(call.toolName).value
    && result.data.Object? && c.Key() in result.data.fields && result.data.fields[c.Key()].Items?
    && raw in result.data.fields[c.Key()].xs
  }

  /** The occurrence was read from a record of the run and says what that record says. */
  ghost predicate ReadFrom(k: CaseContext, calls: seq<ToolCall>, results: seq<ToolResult>, o: Occurrence) {
    exists call, result, c, raw :: ReadFromOne(k, calls, results, o, call, result, c, raw)
  }

  ghost predicate ReadFromOne(k: CaseContext, calls: seq<ToolCall>, results: seq<ToolResult>, o: Occurrence,
                              call: ToolCall, result: ToolResult, c: Collection, raw: Value)
  {
    && ReturnedRecord(calls, results, call, result, c, raw) && Readable(k.schemas, c, raw)
    && Agrees(k.schemas, c, raw, o.content) && TypeFits(k.schemas, c, raw, o.evidenceType)
    && o.identity == IdentityFor(k, c, raw) && RefersTo(k, c, call, raw, o) && LinkFits(k, c, call, raw, o.tags)
    && o.reference.callId == call.callId && o.reference.resultId == result.resultId
  }

  ghost predicate AllRead(k: CaseContext, calls: seq<ToolCall>, results: seq<ToolResult>, occs: seq<Occurrence>) {
    forall o :: o in occs ==> ReadFrom(k, calls, results, o)
  }

  lemma OneRecordRead(k: CaseContext, c: Collection, i: Intake, call: ToolCall, result: ToolResult, raw: Value,
                      calls: seq<ToolCall>, results: seq<ToolResult>)
    requires AllRead(k, calls, results, i.occs) && ReturnedRecord(calls, results, call, result, c, raw)
    ensures AllRead(k, calls, results, TakeRecord(k, c, i, call, result, raw).occs)
  {
    hide ReadRecord, ReturnedRecord, Readable, Agrees, TypeFits, IdentityFor, RefersTo, LinkFits;
    ReadingAgrees(k, c, i.techniques, call, result, raw);
    var reading := ReadRecord(k, c, i.techniques, call, result, raw);
    if reading.Accepted? {
      ReadingTypeFits(k, c, i.techniques, call, result, raw);
      ReadingIdentity(k, c, i.techniques, call, result, raw);
      ReadingRefersTo(k, c, i.techniques, call, result, raw);
      ReadingLinks(k, c, i.techniques, call, result, raw);
      ReadingRefers(k, c, i.techniques, call, result, raw);
      CallOfIs(calls, call, result, results, c, raw);
      assert ReadFromOne(k, calls, results, reading.occurrence, call, result, c, raw);
    }
  }

  lemma CallOfIs(calls: seq<ToolCall>, call: ToolCall, result: ToolResult, results: seq<ToolResult>, c: Collection,
                 raw: Value)
    requires ReturnedRecord(calls, results, call, result, c, raw)
    ensures call.callId == result.callId
  {
  }

  lemma {:induction false} RecordsRead(k: CaseContext, c: Collection, i: Intake, call: ToolCall, result: ToolResult,
                                       raws: seq<Value>, calls: seq<ToolCall>, results: seq<ToolResult>)
    requires AllRead(k, calls, results, i.occs)
    requires forall raw :: raw in raws ==> ReturnedRecord(calls, results, call, result, c, raw)
    ensures AllRead(k, calls, results, TakeRecords(k, c, i, call, result, raws).occs)
  {
    hide TakeRecord, ReturnedRecord, AllRead;
    if raws != [] {
      var last := |raws| - 1;
      RecordsRead(k, c, i, call, result, raws[..last], calls, results);
      assert raws[last] in raws;
      OneRecordRead(k, c, TakeRecords(k, c, i, call, result, raws[..last]), call, result, raws[last], calls, results);
    }
  }

  lemma {:induction false} CollectionsRead(k: CaseContext, cs: seq<Collection>, i: Intake, call: ToolCall,
                                           result: ToolResult, calls: seq<ToolCall>, results: seq<ToolResult>)
    requires AllRead(k, calls, results, i.occs)
    requires result in results && result.success && CallOf(calls, result.callId) == Some(call) && result.data.Object?
    requires CollectionsOf(call.toolName).Some? && forall c :: c in cs ==> c in CollectionsOf(call.toolName).value
    ensures AllRead(k, calls, results, TakeCollections(k, cs, i, call, result, result.data.fields).occs)
  {
    hide TakeRecords, AllRead, CollectionsOf, CallOf;
    if cs != [] {
      var last, payload := |cs| - 1, result.data.fields;
      CollectionsRead(k, cs[..last], i, call, result, calls, results);
      assert cs[last] in cs;
      var key := cs[last].Key();
      if key in payload && payload[key].Items? {
        RecordsRead(k, cs[last], TakeCollections(k, cs[..last], i, call, result, payload), call, result,
                    payload[key].xs, calls, results);
      }
    }
  }

  lemma MoreRead(k: CaseContext, calls: seq<ToolCall>, results: seq<ToolResult>, more: seq<ToolResult>,
                 occs: seq<Occurrence>)
    requires AllRead(k, calls, results, occs) && results <= more
    ensures AllRead(k, calls, more, occs)
  {
    hide Readable, Agrees, TypeFits, IdentityFor, RefersTo, LinkFits, CollectionsOf, CallOf;
    forall o | o in occs ensures ReadFrom(k, calls, more, o) {
      var call, result, c, raw :| ReadFromOne(k, calls, results, o, call, result, c, raw);
      assert ReadFromOne(k, calls, more, o, call, result, c, raw);
    }
  }

  lemma {:induction false} ResultsRead(k: CaseContext, calls: seq<ToolCall>, results: seq<ToolResult>)
    ensures AllRead(k, calls, results, TakeResults(k, calls, results).occs)
  {
    hide TakeCollections, AllRead, CollectionsOf, CallOf;
    if results == [] {
      NothingRead(k, calls);
    } else {
      var before, last := results[..|results| - 1], results[|results| - 1];
      ResultsRead(k, calls, before);
      var i := TakeResults(k, calls, before);
      MoreRead(k, calls, before, results, i.occs);
      var found := CallOf(calls, last.callId);
      if found.Some? && last.success && CollectionsOf(found.value.toolName).Some? && last.data.Object? {
        CollectionsRead(k, CollectionsOf(found.value.toolName).value, i, found.value, last, calls, results);
      }
    }
  }

  lemma NothingRead(k: CaseContext, calls: seq<ToolCall>)
    ensures AllRead(k, calls, [], [])
  {
  }

  /** Every item of an extraction says, field by field, what the raw record behind its first occurrence says, and
      nothing else; its type is that of the record. */
  lemma ItemsSayWhatRecordsSay(k: CaseContext, calls: seq<ToolCall>, results: seq<ToolResult>, extraction: Extraction,
                               n: nat) returns (o: Occurrence)
    requires Built(extraction, TakeResults(k, calls, results).occs) && n < |extraction.evidence|
    ensures var occs := TakeResults(k, calls, results).occs;
            n < |Identities(occs)| && Of(occs, Identities(occs)[n]) != [] && o == Of(occs, Identities(occs)[n])[0]
    ensures extraction.evidence[n].content == o.content && extraction.evidence[n].evidenceType == o.evidenceType
    ensures ReadFrom(k, calls, results, o)
  {
    hide ReadFrom, Identities, Of, Item, Sources;
    var occs := TakeResults(k, calls, results).occs;
    ResultsRead(k, calls, results);
    ItemIsFaithful(occs, n);
    OfKnown(occs, Identities(occs)[n]);
    o := Of(occs, Identities(occs)[n])[0];
    assert o in Of(occs, Identities(occs)[n]);
  }

  // ----- nothing readable is lost ----------------------------------------------------------------------------

  ghost predicate Taken(occs: seq<Occurrence>, identity: string) {
    exists o :: o in occs && o.identity == identity
  }

  lemma {:induction false} TakenFromRecords(k: CaseContext, c: Collection, i: Intake, call: ToolCall,
                                            result: ToolResult, raws: seq<Value>, raw: Value)
    requires raw in raws && Readable(k.schemas, c, raw)
    ensures Taken(TakeRecords(k, c, i, call, result, raws).occs, IdentityFor(k, c, raw))
  {
    hide ReadRecord, Readable, IdentityFor;
    var last := |raws| - 1;
    var before := TakeRecords(k, c, i, call, result, raws[..last]);
    if raw in raws[..last] {
      TakenFromRecords(k, c, i, call, result, raws[..last], raw);
      StillTaken(before.occs, TakeRecords(k, c, i, call, result, raws).occs, IdentityFor(k, c, raw));
    } else {
      assert raw == raws[last];
      ReadingAgrees(k, c, before.techniques, call, result, raw);
      ReadingIdentity(k, c, before.techniques, call, result, raw);
    }
  }

  lemma StillTaken(occs: seq<Occurrence>, more: seq<Occurrence>, identity: string)
    requires Taken(occs, identity) && occs <= more
    ensures Taken(more, identity)
  {
    var o :| o in occs && o.identity == identity;
    assert o in more;
  }

  lemma {:induction false} TakenFromCollections(k: CaseContext, cs: seq<Collection>, i: Intake, call: ToolCall,
                                                result: ToolResult, payload: map<string, Value>, c: Collection,
                                                raw: Value)
    requires c in cs && c.Key() in payload && payload[c.Key()].Items? && raw in payload[c.Key()].xs
    requires Readable(k.schemas, c, raw)
    ensures Taken(TakeCollections(k, cs, i, call, result, payload).occs, IdentityFor(k, c, raw))
  {
    hide TakeRecords, Readable, IdentityFor, Taken;
    var last := |cs| - 1;
    var before := TakeCollections(k, cs[..last], i, call, result, payload);
    if c in cs[..last] {
      TakenFromCollections(k, cs[..last], i, call, result, payload, c, raw);
      StillTaken(before.occs, TakeCollections(k, cs, i, call, result, payload).occs, IdentityFor(k, c, raw));
    } else {
      assert c == cs[last];
      TakenFromRecords(k, c, before, call, result, payload[c.Key()].xs, raw);
    }
  }

  /** Every readable record of the run is taken, under its identity. */
  lemma {:induction false} ReadableIsTaken(k: CaseContext, calls: seq<ToolCall>, results: seq<ToolResult>,
                                           call: ToolCall, result: ToolResult, c: Collection, raw: Value)
    requires ReturnedRecord(calls, results, call, result, c, raw) && Readable(k.schemas, c, raw)
    ensures Taken(TakeResults(k, calls, results).occs, IdentityFor(k, c, raw))
  {
    hide TakeCollections, Readable, IdentityFor, Taken, CollectionsOf, CallOf;
    var before, last := results[..|results| - 1], results[|results| - 1];
    var i := TakeResults(k, calls, before);
    if result in before {
      ReadableIsTaken(k, calls, before, call, result, c, raw);
      StillTaken(i.occs, TakeResults(k, calls, results).occs, IdentityFor(k, c, raw));
    } else {
      assert result == last;
      TakenFromCollections(k, CollectionsOf(call.toolName).value, i, call, result, result.data.fields, c, raw);
    }
  }

  /** Every readable record of the run stands behind an item whose first occurrence has the record's identity. */
  lemma ReadableHasItem(k: CaseContext, calls: seq<ToolCall>, results: seq<ToolResult>, extraction: Extraction,
                        call: ToolCall, result: ToolResult, c: Collection, raw: Value) returns (n: nat, o: Occurrence)
    requires Built(extraction, TakeResults(k, calls, results).occs)
    requires ReturnedRecord(calls, results, call, result, c, raw) && Readable(k.schemas, c, raw)
    ensures n < |extraction.evidence| && o.identity == IdentityFor(k, c, raw)
    ensures extraction.evidence[n].content == o.content && extraction.evidence[n].evidenceType == o.evidenceType
    ensures ReadFrom(k, calls, results, o)
  {
    hide ReadFrom, Identities, Of, Item, Sources, IdentityFor, ReturnedRecord, Readable;
    var occs := TakeResults(k, calls, results).occs;
    ReadableIsTaken(k, calls, results, call, result, c, raw);
    var taken :| taken in occs && taken.identity == IdentityFor(k, c, raw);
    OfKnown(occs, taken.identity);
    assert taken in Of(occs, taken.identity);
    n :| 0 <= n < |Identities(occs)| && Identities(occs)[n] == taken.identity;
    o := ItemsSayWhatRecordsSay(k, calls, results, extraction, n);
    assert o in Of(occs, taken.identity);
  }
}
