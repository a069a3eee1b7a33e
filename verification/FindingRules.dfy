/** The finding rules, each as a function of the evidence and of what the rule is keyed by
    (app/findings/engine.py, app/findings/contracts.py). */
module FindingRules {
  import opened Contracts
  import opened EvidenceContracts
  import opened EvidenceIndexing
  import opened Ordering
  import opened Queries
  import opened TextOps
  import Ids

  const DOCUMENT_PROCESSES := {"winword.exe", "excel.exe", "powerpnt.exe", "outlook.exe", "acrord32.exe"}

  const ENCODING_MARKERS :=
    ["-encodedcommand", "-enc ", " -enc", "frombase64string", "downloadstring", "downloadfile", "invoke-expression",
     "iex ", "iex("]

  const HIDDEN_MARKERS := ["-w hidden", "-windowstyle hidden", " windowstyle hidden"]

  const TEMP_PATH_MARKERS :=
    ["\\temp\\", "\\tmp\\", "/tmp/", "\\downloads\\", "\\appdata\\local\\temp", "\\appdata\\roaming\\"]

  datatype Severity = Low | Medium | High | Critical
  {
    function Rank(): nat {
      match this
      case Low => 0
      case Medium => 1
      case High => 2
      case Critical => 3
    }
  }

  datatype SupportLevel = Weak | Moderate | Strong
  {
    function Rank(): nat {
      match this
      case Weak => 0
      case Moderate => 1
      case Strong => 2
    }
  }

  datatype FindingType =
    | SuspiciousProcessExecution | SuspiciousFileArtifact | SuspiciousNetworkActivity
    | MaliciousIndicatorMatch | CorrelatedAttackPattern

  /** What a draft is about: the rule and the group or record it was built from. */
  datatype RuleKey =
    | ProcessKey(group: seq<string>)
    | FileKey(recordEvidence: string)
    | NetworkKey(group: seq<string>)
    | IndicatorKey(group: seq<string>)
    | FlowKey(dnsEvidence: string)
    | WriteKey(recordEvidence: string)

  datatype Draft = Draft(
    key: RuleKey, findingType: FindingType, severity: Severity, support: SupportLevel,
    evidenceIds: seq<string>, relatedIndicators: seq<string>)
  {
    /** A confirmed malicious indicator match. */
    predicate MaliciousGrade() {
      findingType == MaliciousIndicatorMatch && (severity == High || severity == Critical)
    }

    predicate Behaviour() {
      findingType != MaliciousIndicatorMatch
    }
  }

  predicate AnyMarker(s: string, markers: seq<string>) {
    exists m :: m in markers && Contains(s, m)
  }

  /** The path lies in a temporary or user-writable folder. */
  predicate InTempFolder(ops: TextOps, path: string) {
    AnyMarker(ops.casefold(path), TEMP_PATH_MARKERS)
  }

  function NonEmpty(values: seq<string>): seq<string> {
    if values == [] then []
    else NonEmpty(values[..|values| - 1]) + if values[|values| - 1] != "" then [values[|values| - 1]] else []
  }

  function StrippedEach(ops: TextOps, items: seq<Evidence>, field: Field): seq<string> {
    seq(|items|, k requires 0 <= k < |items| => ops.Stripped(items[k].content, field))
  }

  // ----- rule 1: process execution -----------------------------------------------------

  predicate LineHas(ops: TextOps, e: Evidence, markers: seq<string>) {
    AnyMarker(ops.casefold(ops.Stripped(e.content, CommandLine)), markers)
  }

  predicate FromTempFolder(ops: TextOps, e: Evidence) {
    var path := ops.Stripped(e.content, FilePath);
    path != "" && InTempFolder(ops, path)
  }

  function ProcessDraft(ops: TextOps, group: seq<string>, items: seq<Evidence>): Option<Draft> {
    if |group| != 3 || ops.casefold(group[1]) !in SCRIPT_INTERPRETERS then None
    else
      var encoded := exists e :: e in items && LineHas(ops, e, ENCODING_MARKERS);
      var hidden := exists e :: e in items && LineHas(ops, e, HIDDEN_MARKERS);
      var tempPath := exists e :: e in items && FromTempFolder(ops, e);
      var documentParent := ops.casefold(group[2]) in DOCUMENT_PROCESSES;
      var severity := if documentParent || encoded then High else if hidden || tempPath then Medium else Low;
      var support := if documentParent && encoded then Strong else if severity != Low then Moderate else Weak;
      Some(Draft(ProcessKey(group), SuspiciousProcessExecution, severity, support, EvidenceIds(items),
                 NonEmpty([group[1], group[2]] + StrippedEach(ops, items, FilePath))))
  }

  // ----- rule 2: file artifacts -----------------------------------------------------------

  function HashReputations(ops: TextOps, evidence: seq<Evidence>, sha256: string, level: string): seq<Evidence> {
    if sha256 == "" then [] else Select(ops, evidence, HashReputation(sha256, level))
  }

  function EventsAtPath(ops: TextOps, evidence: seq<Evidence>, path: string): seq<Evidence> {
    if path == "" then [] else Select(ops, Hits(ops, ByPath, evidence, ops.Fold(path)), EndpointRecords)
  }

  function FileDraft(ops: TextOps, evidence: seq<Evidence>, record: Evidence): Option<Draft> {
    var path, fileName, sha256 :=
      ops.Stripped(record.content, Path), ops.Stripped(record.content, FileName), ops.Stripped(record.content, Sha256);
    var unsigned := Signed in record.content && record.content[Signed] == Flag(false);
    var malicious := HashReputations(ops, evidence, sha256, "malicious");
    var suspicious := HashReputations(ops, evidence, sha256, "suspicious");
    var related := EventsAtPath(ops, evidence, path);
    if malicious == [] && suspicious == [] && !InTempFolder(ops, path) && !unsigned then None
    else
      var severity := if malicious != [] then High else Medium;
      var support :=
        if malicious != [] && related != [] then Strong
        else if malicious != [] || suspicious != [] then Moderate else Weak;
      Some(Draft(FileKey(record.evidenceId), SuspiciousFileArtifact, severity, support,
                 [record.evidenceId] + EvidenceIds(malicious) + EvidenceIds(suspicious) + EvidenceIds(related),
                 NonEmpty([fileName, path, sha256])))
  }

  // ----- rule 3: network activity ------------------------------------------------------------

  function NetworkDraft(ops: TextOps, evidence: seq<Evidence>, group: seq<string>, items: seq<Evidence>): Option<Draft>
  {
    if |group| != 3 then None
    else
      var script := exists e :: e in items && ByInterpreter(ops, e);
      var answers := Select(ops, evidence, AnswersTo(ops.Normalize(group[0])));
      Some(Draft(NetworkKey(group), SuspiciousNetworkActivity, if script then Medium else Low,
                 if script || answers != [] then Moderate else Weak,
                 EvidenceIds(items) + EvidenceIds(answers), [group[0]]))
  }

  // ----- rule 4: malicious indicators ------------------------------------------------------------

  predicate Targets(ops: TextOps, e: Evidence, field: Field, target: string) {
    ops.Normalize(ops.Stripped(e.content, field)) == target
  }

  predicate HasHash(ops: TextOps, e: Evidence, indicator: string) {
    ops.casefold(ops.Stripped(e.content, Sha256)) == ops.casefold(indicator)
  }

  function IndicatorDraft(ops: TextOps, evidence: seq<Evidence>, group: seq<string>,
                          reputations: seq<Evidence>): Option<Draft>
  {
    if |group| != 1 || Occurrences(ops, evidence, group[0]) == [] then None
    else
      var observed, target := Occurrences(ops, evidence, group[0]), ops.Normalize(group[0]);
      var severity :=
        if exists e :: e in observed && Targets(ops, e, DstIp, target) then Critical
        else if exists e :: e in observed && HasHash(ops, e, group[0]) then High
        else if exists e :: e in observed && Targets(ops, e, Response, target) then High
        else Medium;
      Some(Draft(IndicatorKey(group), MaliciousIndicatorMatch, severity, Strong,
                 EvidenceIds(reputations) + EvidenceIds(observed), [group[0]]))
  }

  // ----- rule 5: correlated patterns --------------------------------------------------------------

  function ReputationsFor(ops: TextOps, evidence: seq<Evidence>, value: string): seq<Evidence> {
    if value == "" then [] else Select(ops, evidence, InGroup(MaliciousIndicators, [ops.Normalize(value)]))
  }

  function FlowDraft(ops: TextOps, evidence: seq<Evidence>, dns: Evidence): Option<Draft> {
    var resolved := ops.Stripped(dns.content, Response);
    var host, process := ops.Stripped(dns.content, Host), ops.Stripped(dns.content, ProcessName);
    var flows := Select(ops, evidence, FlowsFrom(resolved, host, process));
    if resolved == "" || ops.internal(resolved) || flows == [] || |DistinctRecordIds([dns] + flows)| < 2 then None
    else
      var malicious := ReputationsFor(ops, evidence, resolved);
      Some(Draft(FlowKey(dns.evidenceId), CorrelatedAttackPattern, if malicious != [] then High else Medium, Strong,
                 [dns.evidenceId] + EvidenceIds(flows) + EvidenceIds(malicious),
                 NonEmpty([ops.Stripped(dns.content, Query), resolved])))
  }

  function WriteDraft(ops: TextOps, evidence: seq<Evidence>, record: Evidence): Option<Draft> {
    var path, sha256 := ops.Stripped(record.content, Path), ops.Stripped(record.content, Sha256);
    var written := Select(ops, evidence, WritesTo(path));
    if path == "" || !InTempFolder(ops, path) || written == [] then None
    else
      var malicious := ReputationsFor(ops, evidence, sha256);
      Some(Draft(WriteKey(record.evidenceId), CorrelatedAttackPattern, if malicious != [] then High else Medium, Strong,
                 [record.evidenceId] + EvidenceIds(written) + EvidenceIds(malicious),
                 NonEmpty([path, sha256, ops.Stripped(written[0].content, ProcessName)])))
  }

  // ----- all rules ----------------------------------------------------------------------------------

  /** The draft a rule makes for one key, if it makes one. */
  function DraftFor(ops: TextOps, evidence: seq<Evidence>, key: RuleKey): Option<Draft> {
    match key
    case ProcessKey(group) => ProcessDraft(ops, group, Select(ops, evidence, InGroup(ProcessRule, group)))
    case FileKey(id) =>
      (match ItemById(evidence, id) case None => None case Some(record) => FileDraft(ops, evidence, record))
    case NetworkKey(group) => NetworkDraft(ops, evidence, group, Select(ops, evidence, InGroup(FlowRule, group)))
    case IndicatorKey(group) =>
      IndicatorDraft(ops, evidence, group, Select(ops, evidence, InGroup(MaliciousIndicators, group)))
    case FlowKey(id) =>
      (match ItemById(evidence, id) case None => None case Some(dns) => FlowDraft(ops, evidence, dns))
    case WriteKey(id) =>
      (match ItemById(evidence, id) case None => None case Some(record) => WriteDraft(ops, evidence, record))
  }

  datatype Rule = RuleProcess | RuleFile | RuleNetwork | RuleIndicator | RuleFlow | RuleWrite

  function KeyFromGroup(rule: Rule, group: seq<string>): RuleKey {
    if rule.RuleProcess? then ProcessKey(group)
    else if rule.RuleNetwork? then NetworkKey(group)
    else IndicatorKey(group)
  }

  function KeyFromItem(rule: Rule, id: string): RuleKey {
    if rule.RuleFile? then FileKey(id) else if rule.RuleFlow? then FlowKey(id) else WriteKey(id)
  }

  predicate ByGroup(rule: Rule) {
    rule.RuleProcess? || rule.RuleNetwork? || rule.RuleIndicator?
  }

  function GroupingOf(rule: Rule): Grouping {
    if rule.RuleProcess? then ProcessRule else if rule.RuleNetwork? then FlowRule else MaliciousIndicators
  }

  function TriggerOf(rule: Rule): Query {
    if rule.RuleFlow? then ObservedOf(DnsQuery) else FileRecords
  }

  function KeysFromGroups(rule: Rule, groups: seq<seq<string>>): seq<RuleKey> {
    seq(|groups|, k requires 0 <= k < |groups| => KeyFromGroup(rule, groups[k]))
  }

  function KeysFromItems(rule: Rule, items: seq<Evidence>): seq<RuleKey> {
    seq(|items|, k requires 0 <= k < |items| => KeyFromItem(rule, items[k].evidenceId))
  }

  /** What one rule looks at: its groups in key order, or its trigger records in extraction order. */
  function RuleKeys(ops: TextOps, evidence: seq<Evidence>, rule: Rule): seq<RuleKey> {
    if ByGroup(rule) then KeysFromGroups(rule, GroupKeys(ops, GroupingOf(rule), evidence))
    else KeysFromItems(rule, Select(ops, evidence, TriggerOf(rule)))
  }

  function AllKeys(ops: TextOps, evidence: seq<Evidence>): seq<RuleKey> {
    RuleKeys(ops, evidence, RuleProcess) + RuleKeys(ops, evidence, RuleFile) + RuleKeys(ops, evidence, RuleNetwork)
    + RuleKeys(ops, evidence, RuleIndicator) + RuleKeys(ops, evidence, RuleFlow) + RuleKeys(ops, evidence, RuleWrite)
  }

  function Collect(ops: TextOps, evidence: seq<Evidence>, keys: seq<RuleKey>): seq<Draft> {
    if keys == [] then []
    else
      var draft := DraftFor(ops, evidence, keys[|keys| - 1]);
      Collect(ops, evidence, keys[..|keys| - 1]) + if draft.Some? then [draft.value] else []
  }

  /** All drafts, rule by rule in the fixed order. */
  function Drafts(ops: TextOps, evidence: seq<Evidence>): seq<Draft> {
    Collect(ops, evidence, AllKeys(ops, evidence))
  }

  lemma {:induction false} CollectAppend(ops: TextOps, evidence: seq<Evidence>, a: seq<RuleKey>, b: seq<RuleKey>)
    ensures Collect(ops, evidence, a + b) == Collect(ops, evidence, a) + Collect(ops, evidence, b)
  {
    hide DraftFor;
    if b == [] {
      assert a + b == a;
    } else {
      CollectAppend(ops, evidence, a, b[..|b| - 1]);
      assert (a + b)[..|a + b| - 1] == a + b[..|b| - 1];
    }
  }

  // ----- findings -----------------------------------------------------------------------------------

  const FINDING_PREFIX := "FIND"

  datatype Finding = Finding(findingId: string, draft: Draft, evidenceIds: seq<string>, relatedIndicators: seq<string>)
  {
    /** The contract checked on construction. */
    ghost predicate Valid() {
      evidenceIds != [] && Distinct(evidenceIds)
    }
  }

  /** The known ids of a list, each once, in order of first occurrence. */
  function ExistingIds(evidence: seq<Evidence>, ids: seq<string>): seq<string> {
    if ids == [] then []
    else
      var before, last := ExistingIds(evidence, ids[..|ids| - 1]), ids[|ids| - 1];
      if ItemById(evidence, last).Some? && last !in before then before + [last] else before
  }

  /** Each text once, in order of first occurrence. */
  function Unique(texts: seq<string>): seq<string> {
    if texts == [] then []
    else
      var before, last := Unique(texts[..|texts| - 1]), texts[|texts| - 1];
      if last in before then before else before + [last]
  }

  function FindingFrom(position: nat, draft: Draft, ids: seq<string>): Finding {
    Finding(Ids.FormatId(FINDING_PREFIX, position), draft, ids, Unique(draft.relatedIndicators))
  }

  /** One finding a draft at its position, drafts without known evidence being passed over. */
  function FindingsFrom(evidence: seq<Evidence>, drafts: seq<Draft>): seq<Finding> {
    if drafts == [] then []
    else
      var before, last := FindingsFrom(evidence, drafts[..|drafts| - 1]), drafts[|drafts| - 1];
      var ids := ExistingIds(evidence, last.evidenceIds);
      if ids == [] then before else before + [FindingFrom(|drafts|, last, ids)]
  }

  function FindingsOf(ops: TextOps, evidence: seq<Evidence>): seq<Finding> {
    FindingsFrom(evidence, Drafts(ops, evidence))
  }

  /** The malicious indicators that no telemetry observes, in extraction order. */
  function SkippedIndicators(ops: TextOps, evidence: seq<Evidence>, reputations: seq<Evidence>): seq<string> {
    if reputations == [] then []
    else
      var before := SkippedIndicators(ops, evidence, reputations[..|reputations| - 1]);
      var last := reputations[|reputations| - 1];
      var indicator := ops.Stripped(last.content, Indicator);
      if Grouped(ops, MaliciousIndicators, last) && Occurrences(ops, evidence, indicator) == []
      then before + [indicator]
      else before
  }

  // ----- every draft is evidence-grounded ---------------------------------------------------------

  ghost predicate AllKnown(evidence: seq<Evidence>, ids: seq<string>) {
    forall id :: id in ids ==> ItemById(evidence, id).Some?
  }

  ghost predicate Within(items: seq<Evidence>, evidence: seq<Evidence>) {
    forall e :: e in items ==> e in evidence
  }

  lemma SelectedWithin(ops: TextOps, items: seq<Evidence>, evidence: seq<Evidence>, q: Query)
    requires Within(items, evidence)
    ensures Within(Select(ops, items, q), evidence)
  {
    forall e | e in Select(ops, items, q) ensures e in evidence { Selected(ops, items, q, e); }
  }

  lemma HitsWithin(ops: TextOps, t: Table, evidence: seq<Evidence>, key: string)
    ensures Within(Hits(ops, t, evidence, key), evidence)
  {
    forall e | e in Hits(ops, t, evidence, key) ensures e in evidence { HitsBelong(ops, t, evidence, key, e); }
  }

  lemma IdsKnown(evidence: seq<Evidence>, items: seq<Evidence>)
    requires Within(items, evidence)
    ensures AllKnown(evidence, EvidenceIds(items))
  {
    forall id | id in EvidenceIds(items) ensures ItemById(evidence, id).Some? {
      var k :| 0 <= k < |items| && EvidenceIds(items)[k] == id;
      assert items[k] in evidence;
    }
  }

  lemma SelectionKnown(ops: TextOps, evidence: seq<Evidence>, q: Query)
    ensures Within(Select(ops, evidence, q), evidence)
    ensures AllKnown(evidence, EvidenceIds(Select(ops, evidence, q)))
  {
    SelectedWithin(ops, evidence, evidence, q);
    IdsKnown(evidence, Select(ops, evidence, q));
  }

  /** A draft cites existing evidence only. */
  lemma DraftKnown(ops: TextOps, evidence: seq<Evidence>, key: RuleKey)
    requires DraftFor(ops, evidence, key).Some?
    ensures AllKnown(evidence, DraftFor(ops, evidence, key).value.evidenceIds)
    ensures DraftFor(ops, evidence, key).value.key == key
  {
    hide Select, Matches, Hits, AnyMarker, NonEmpty, ItemById, TextOps.Normalize, TextOps.Stripped, ByInterpreter,
         LineHas, FromTempFolder;
    match key
    case ProcessKey(group) =>
      SelectionKnown(ops, evidence, InGroup(ProcessRule, group));
    case NetworkKey(group) =>
      SelectionKnown(ops, evidence, InGroup(FlowRule, group));
      SelectionKnown(ops, evidence, AnswersTo(ops.Normalize(group[0])));
    case IndicatorKey(group) =>
      SelectionKnown(ops, evidence, InGroup(MaliciousIndicators, group));
      SelectionKnown(ops, evidence, ObservedAs(ops.Normalize(group[0])));
    case FileKey(id) =>
      FileDraftKnown(ops, evidence, ItemById(evidence, id).value);
    case FlowKey(id) =>
      var dns := ItemById(evidence, id).value;
      var resolved := ops.Stripped(dns.content, Response);
      SelectionKnown(ops, evidence,
                     FlowsFrom(resolved, ops.Stripped(dns.content, Host), ops.Stripped(dns.content, ProcessName)));
      SelectionKnown(ops, evidence, InGroup(MaliciousIndicators, [ops.Normalize(resolved)]));
    case WriteKey(id) =>
      var record := ItemById(evidence, id).value;
      SelectionKnown(ops, evidence, WritesTo(ops.Stripped(record.content, Path)));
      SelectionKnown(ops, evidence,
                     InGroup(MaliciousIndicators, [ops.Normalize(ops.Stripped(record.content, Sha256))]));
  }

  lemma FileDraftKnown(ops: TextOps, evidence: seq<Evidence>, record: Evidence)
    requires ItemById(evidence, record.evidenceId).Some? && FileDraft(ops, evidence, record).Some?
    ensures AllKnown(evidence, FileDraft(ops, evidence, record).value.evidenceIds)
  {
    hide Select, Matches, Hits, AnyMarker, NonEmpty, ItemById, TextOps.Normalize, TextOps.Stripped, TextOps.Fold;
    var sha256, path := ops.Stripped(record.content, Sha256), ops.Stripped(record.content, Path);
    SelectionKnown(ops, evidence, HashReputation(sha256, "malicious"));
    SelectionKnown(ops, evidence, HashReputation(sha256, "suspicious"));
    HitsWithin(ops, ByPath, evidence, ops.Fold(path));
    SelectedWithin(ops, Hits(ops, ByPath, evidence, ops.Fold(path)), evidence, EndpointRecords);
    IdsKnown(evidence, Select(ops, Hits(ops, ByPath, evidence, ops.Fold(path)), EndpointRecords));
  }
}
