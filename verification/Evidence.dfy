/** Evidence contracts (app/schemas/evidence.py, app/evidence/contracts.py). */
module EvidenceContracts {
  import opened Contracts

  datatype EvidenceType =
    | ProcessExecution | NetworkConnection | DnsQuery | FileActivity | Authentication
    | IocReputation | ThreatIntelligence | AttackKnowledge | OtherActivity

  /** One raw-record occurrence behind an evidence item. */
  datatype SourceReference = SourceReference(
    sourceName: string, callId: string, resultId: string, recordId: string, rawRef: string)

  /** The keys of evidence content. */
  datatype Field =
    | RecordClass | RecordId
    | EventType | Host | User | ProcessName | Pid | ParentProcessName | CommandLine | FilePath | Sha256
    | SrcHost | SrcIp | SrcPort | DstIp | DstPort | Protocol | Direction | BytesSent | BytesReceived
    | Query | QueryType | Response
    | Path | FileName | Size | Signed | Signer | SourceUrl
    | Indicator | IndicatorType | Reputation | Source | SourceConfidence | AssertedTags | LastSeen
    | CtiId | Title | Description | Indicators | MalwareFamilies | Campaigns | TechniqueIds | PublishedAt
    | TechniqueId | Name | Tactics | Keywords
    | Metadata(key: string)

  type Content = map<Field, Value>

  datatype Evidence = Evidence(
    evidenceId: string, evidenceType: EvidenceType, content: Content,
    provenance: SourceReference, tags: seq<string>)

  const TAG_TELEMETRY := "source-class:telemetry"
  const TAG_KNOWLEDGE := "source-class:knowledge"
  const TAG_KNOWLEDGE_REFERENCE := "knowledge-reference"
  const TAG_CASE_LINKED := "case-linked"
  const TAG_UNLINKED := "unlinked-knowledge"

  const ENDPOINT_CLASS := "endpoint_event"
  const NETWORK_CLASS := "network_event"
  const DNS_CLASS := "dns_event"
  const FILE_CLASS := "file_record"
  const CTI_CLASS := "cti_record"
  const ATTACK_CLASS := "attack_technique"
  const REPUTATION_CLASS := "ioc_reputation"

  const EVIDENCE_PREFIX := "EV"

  /** The text stored under `field`, or nothing when there is no text. */
  function TextAt(content: Content, field: Field): string {
    if field in content && content[field].Text? then content[field].s else ""
  }

  function ClassOf(e: Evidence): string {
    TextAt(e.content, RecordClass)
  }

  function EvidenceIds(evidence: seq<Evidence>): (r: seq<string>)
    ensures |r| == |evidence|
  {
    seq(|evidence|, k requires 0 <= k < |evidence| => evidence[k].evidenceId)
  }

  ghost predicate UniqueIds(evidence: seq<Evidence>) {
    forall j, k :: 0 <= j < k < |evidence| ==> evidence[j].evidenceId != evidence[k].evidenceId
  }

  /** The record class decides the type and the source class of an item, as in all extracted evidence. */
  predicate Shaped(e: Evidence) {
    var observed := TAG_TELEMETRY in e.tags;
    && (observed ==> TAG_UNLINKED !in e.tags)
    && match e.evidenceType
       case ProcessExecution => observed && ClassOf(e) == ENDPOINT_CLASS
       case NetworkConnection => observed && ClassOf(e) == NETWORK_CLASS
       case DnsQuery => observed && ClassOf(e) == DNS_CLASS
       case FileActivity => observed && (ClassOf(e) == ENDPOINT_CLASS || ClassOf(e) == FILE_CLASS)
       case Authentication => observed && ClassOf(e) == ENDPOINT_CLASS
       case IocReputation => !observed && ClassOf(e) == REPUTATION_CLASS
       case ThreatIntelligence => !observed && ClassOf(e) == CTI_CLASS
       case AttackKnowledge => !observed && ClassOf(e) == ATTACK_CLASS
       case OtherActivity => observed && ClassOf(e) == ENDPOINT_CLASS
  }

  /** The first letter already tells the record classes apart. */
  lemma ClassesDiffer()
    ensures ENDPOINT_CLASS[0] == 'e' && NETWORK_CLASS[0] == 'n' && DNS_CLASS[0] == 'd' && FILE_CLASS[0] == 'f'
    ensures CTI_CLASS[0] == 'c' && ATTACK_CLASS[0] == 'a' && REPUTATION_CLASS[0] == 'i'
  {
  }

  /** What the extractor could not use, one entry each. */
  datatype Warning =
    | NoCallFound(resultId: string)
    | NoEvidenceMapping(resultId: string)
    | UnsupportedPayload(resultId: string)
    | MissingList(resultId: string, key: string)
    | InvalidRecord(resultId: string, key: string)

  /** The extraction result; `sources` is the multi-source index. */
  datatype Extraction = Extraction(
    evidence: seq<Evidence>, sources: map<string, seq<SourceReference>>,
    processed: seq<string>, candidateCount: nat, warnings: seq<Warning>)
  {
    /** The contract checked on construction. */
    ghost predicate Valid() {
      && UniqueIds(evidence)
      && (forall id :: id in sources <==> id in EvidenceIds(evidence))
      && (forall id :: id in sources ==> sources[id] != [])
    }

    function DuplicateHitCount(): int {
      if candidateCount < |evidence| then 0 else candidateCount - |evidence|
    }
  }
}
