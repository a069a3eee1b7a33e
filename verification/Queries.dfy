/** Every selection and grouping of evidence that the finding rules, the verdict and the summary make,
    as data, with one meaning for all of them (app/findings/index.py, app/findings/engine.py,
    app/reporting/summary.py). */
module Queries {
  import opened Contracts
  import opened EvidenceContracts
  import opened Ordering
  import opened TextOps

  const SCRIPT_INTERPRETERS :=
    {"powershell.exe", "pwsh.exe", "wscript.exe", "cscript.exe", "mshta.exe", "cmd.exe"}

  // ----- index tables ----------------------------------------------------------------------

  datatype Table = ByRecord | ByIndicator | ByHash | ByPath | ByHost | ByProcess | ByDomain

  function FoldedKey(ops: TextOps, e: Evidence, field: Field): seq<string> {
    var value := TextAt(e.content, field);
    if value == "" then [] else [ops.Fold(value)]
  }

  /** The keys under which one table files one item. The path table has two source fields. */
  function KeysOf(ops: TextOps, t: Table, e: Evidence): seq<string> {
    match t
    case ByRecord => var id := TextAt(e.content, RecordId); if id == "" then [] else [id]
    case ByIndicator => var value := TextAt(e.content, Indicator); if value == "" then [] else [ops.Normalize(value)]
    case ByHash => FoldedKey(ops, e, Sha256)
    case ByPath => FoldedKey(ops, e, Path) + FoldedKey(ops, e, FilePath)
    case ByHost => FoldedKey(ops, e, Host)
    case ByProcess => FoldedKey(ops, e, ProcessName)
    case ByDomain => FoldedKey(ops, e, Query)
  }

  // ----- predicates on one item ---------------------------------------------------------------

  /** Observed telemetry, never a knowledge record. */
  predicate Telemetry(e: Evidence) {
    TAG_TELEMETRY in e.tags && ClassOf(e) in {ENDPOINT_CLASS, NETWORK_CLASS, DNS_CLASS, FILE_CLASS}
  }

  predicate TelemetryOf(e: Evidence, evidenceType: EvidenceType) {
    Telemetry(e) && e.evidenceType == evidenceType
  }

  /** The item observes `target` in one of its address, name or hash fields. */
  predicate Observes(ops: TextOps, e: Evidence, target: string) {
    exists f :: f in {SrcIp, DstIp, Response, Query, Sha256}
                && TextAt(e.content, f) != "" && ops.Normalize(TextAt(e.content, f)) == target
  }

  predicate HasReputation(e: Evidence, level: string) {
    e.evidenceType == IocReputation && Reputation in e.content && e.content[Reputation] == Text(level)
  }

  predicate ByInterpreter(ops: TextOps, e: Evidence) {
    ops.casefold(ops.Stripped(e.content, ProcessName)) in SCRIPT_INTERPRETERS
  }

  // ----- groupings -------------------------------------------------------------------------------

  datatype Grouping =
    // finding rules
    | ProcessRule | FlowRule | MaliciousIndicators
    // summary observations
    | ProcessActivity | EndpointOther | NetworkFlows | DnsQueries | FileArtifacts | FileEvents | Authentications
    | Reputations | CtiReferences | AttackReferences

  predicate LinkedOf(e: Evidence, evidenceType: EvidenceType) {
    e.evidenceType == evidenceType && TAG_UNLINKED !in e.tags
  }

  predicate ClassedOf(e: Evidence, evidenceType: EvidenceType, recordClass: string) {
    e.evidenceType == evidenceType && ClassOf(e) == recordClass
  }

  /** Which items a grouping takes. */
  predicate Grouped(ops: TextOps, g: Grouping, e: Evidence) {
    match g
    case ProcessRule => TelemetryOf(e, ProcessExecution)
    case FlowRule =>
      var destination := ops.Stripped(e.content, DstIp);
      TelemetryOf(e, NetworkConnection) && destination != "" && !ops.internal(destination)
    case MaliciousIndicators => HasReputation(e, "malicious") && ops.Stripped(e.content, Indicator) != ""
    case ProcessActivity => ClassedOf(e, ProcessExecution, ENDPOINT_CLASS)
    case EndpointOther => ClassedOf(e, OtherActivity, ENDPOINT_CLASS)
    case NetworkFlows => e.evidenceType == NetworkConnection
    case DnsQueries => e.evidenceType == DnsQuery
    case FileArtifacts => ClassedOf(e, FileActivity, FILE_CLASS)
    case FileEvents => ClassedOf(e, FileActivity, ENDPOINT_CLASS)
    case Authentications => e.evidenceType == Authentication
    case Reputations => LinkedOf(e, IocReputation)
    case CtiReferences => LinkedOf(e, ThreatIntelligence)
    case AttackReferences => LinkedOf(e, AttackKnowledge)
  }

  function OrElse(s: string, other: string): string {
    if s == "" then other else s
  }

  /** The key an item is grouped by. */
  function GroupKey(ops: TextOps, g: Grouping, e: Evidence): seq<string> {
    var c := e.content;
    match g
    case ProcessRule => [ops.Stripped(c, Host), ops.Stripped(c, ProcessName), ops.Stripped(c, ParentProcessName)]
    case FlowRule => [ops.Stripped(c, DstIp), ops.Rendered(c, DstPort), OrElse(ops.Stripped(c, Direction), "outbound")]
    case MaliciousIndicators => [ops.Normalize(ops.Stripped(c, Indicator))]
    case ProcessActivity => [TextAt(c, Host), TextAt(c, ProcessName), TextAt(c, ParentProcessName)]
    case EndpointOther => [TextAt(c, Host), TextAt(c, EventType)]
    case NetworkFlows =>
      [TextAt(c, DstIp), if DstPort in c then ops.render(c[DstPort]) else "", TextAt(c, Protocol), TextAt(c, Direction)]
    case DnsQueries => [TextAt(c, Query), TextAt(c, QueryType)]
    case FileArtifacts => [TextAt(c, Host), TextAt(c, FileName)]
    case FileEvents => [TextAt(c, Host), TextAt(c, EventType), TextAt(c, FilePath)]
    case Authentications => [TextAt(c, Host), TextAt(c, User), TextAt(c, EventType)]
    case Reputations => [TextAt(c, Indicator), TextAt(c, Reputation), TextAt(c, Source)]
    case CtiReferences => [OrElse(TextAt(c, CtiId), TextAt(c, RecordId))]
    case AttackReferences => [TextAt(c, TechniqueId)]
  }

  // ----- queries ------------------------------------------------------------------------------------

  datatype Query =
    | Observed
    | ObservedOf(evidenceType: EvidenceType)
    | OfType(evidenceType: EvidenceType)
    | ObservedAs(target: string)
    | FiledUnder(table: Table, key: string)
    | InGroup(grouping: Grouping, group: seq<string>)
    | FileRecords
    | EndpointRecords
    | AnswersTo(target: string)
    | HashReputation(sha256: string, level: string)
    | WithReputation(level: string)
    | FlowsFrom(resolved: string, host: string, process: string)
    | WritesTo(path: string)
    | UnlinkedKnowledge

  predicate Matches(ops: TextOps, q: Query, e: Evidence) {
    match q
    case Observed => Telemetry(e)
    case ObservedOf(t) => TelemetryOf(e, t)
    case OfType(t) => e.evidenceType == t
    case ObservedAs(target) => Telemetry(e) && Observes(ops, e, target)
    case FiledUnder(t, key) => key in KeysOf(ops, t, e)
    case InGroup(g, group) => Grouped(ops, g, e) && GroupKey(ops, g, e) == group
    case FileRecords => TelemetryOf(e, FileActivity) && ClassOf(e) == FILE_CLASS
    case EndpointRecords => ClassOf(e) == ENDPOINT_CLASS
    case AnswersTo(target) =>
      TelemetryOf(e, DnsQuery) && ops.Normalize(ops.Stripped(e.content, Response)) == target
    case HashReputation(sha256, level) => ops.Normalize(sha256) in KeysOf(ops, ByIndicator, e)
      && HasReputation(e, level)
    case WithReputation(level) => HasReputation(e, level)
    case FlowsFrom(resolved, host, process) =>
      && TelemetryOf(e, NetworkConnection)
      && ops.Normalize(ops.Stripped(e.content, DstIp)) == ops.Normalize(resolved)
      && ((host != "" && ops.Stripped(e.content, SrcHost) == host)
          || (process != "" && ops.Stripped(e.content, ProcessName) == process))
    case WritesTo(path) =>
      && TelemetryOf(e, FileActivity) && ClassOf(e) == ENDPOINT_CLASS
      && ops.casefold(ops.Stripped(e.content, FilePath)) == ops.casefold(path)
      && ByInterpreter(ops, e)
    case UnlinkedKnowledge => TAG_UNLINKED in e.tags
  }

  /** The matching items in extraction order. */
  function Select(ops: TextOps, evidence: seq<Evidence>, q: Query): seq<Evidence> {
    if evidence == [] then []
    else
      var last := evidence[|evidence| - 1];
      Select(ops, evidence[..|evidence| - 1], q) + if Matches(ops, q, last) then [last] else []
  }

  lemma {:induction false} Selected(ops: TextOps, evidence: seq<Evidence>, q: Query, e: Evidence)
    ensures e in Select(ops, evidence, q) <==> e in evidence && Matches(ops, q, e)
  {
    hide Matches;
    if evidence != [] {
      Selected(ops, evidence[..|evidence| - 1], q, e);
      assert evidence == evidence[..|evidence| - 1] + [evidence[|evidence| - 1]];
    }
  }

  lemma {:induction false} SelectWithin(ops: TextOps, evidence: seq<Evidence>, wide: Query, narrow: Query)
    requires forall e :: e in evidence && Matches(ops, narrow, e) ==> Matches(ops, wide, e)
    ensures Select(ops, Select(ops, evidence, wide), narrow) == Select(ops, evidence, narrow)
  {
    hide Matches;
    if evidence != [] {
      var before, last := evidence[..|evidence| - 1], evidence[|evidence| - 1];
      assert evidence == before + [last];
      SelectWithin(ops, before, wide, narrow);
      SelectNext(ops, before, last, wide);
      SelectNext(ops, before, last, narrow);
      SelectNext(ops, Select(ops, before, wide), last, narrow);
      hide Select;
      assert last in evidence;
    }
  }

  lemma SelectNext(ops: TextOps, items: seq<Evidence>, e: Evidence, q: Query)
    ensures Select(ops, items + [e], q)
            == if Matches(ops, q, e) then Select(ops, items, q) + [e] else Select(ops, items, q)
  {
    hide Matches;
    assert (items + [e])[..|items|] == items;
  }

  /** Scan a list for the items that match; every selection of the source is such a comprehension. */
  method Scan(ops: TextOps, items: seq<Evidence>, q: Query) returns (found: seq<Evidence>)
    ensures found == Select(ops, items, q)
  {
    hide Matches;
    found := [];
    for n := 0 to |items|
      invariant found == Select(ops, items[..n], q)
    {
      assert items[..n + 1][..n] == items[..n];
      if Matches(ops, q, items[n]) {
        found := found + [items[n]];
      }
    }
    assert items[..|items|] == items;
  }

  // ----- groups ------------------------------------------------------------------------------------

  /** The distinct group keys in order of first occurrence. */
  function KeysSeen(ops: TextOps, g: Grouping, evidence: seq<Evidence>): seq<seq<string>> {
    if evidence == [] then []
    else
      var before, last := KeysSeen(ops, g, evidence[..|evidence| - 1]), evidence[|evidence| - 1];
      if !Grouped(ops, g, last) || GroupKey(ops, g, last) in before then before
      else before + [GroupKey(ops, g, last)]
  }

  function GroupKeys(ops: TextOps, g: Grouping, evidence: seq<Evidence>): seq<seq<string>> {
    SortBy(SelfKey, KeysSeen(ops, g, evidence))
  }

  datatype Group = Group(key: seq<string>, items: seq<Evidence>)

  /** The groups in key order, each with its items in extraction order. */
  function Groups(ops: TextOps, g: Grouping, evidence: seq<Evidence>): (r: seq<Group>)
    ensures |r| == |GroupKeys(ops, g, evidence)|
  {
    var keys := GroupKeys(ops, g, evidence);
    seq(|keys|, k requires 0 <= k < |keys| => Group(keys[k], Select(ops, evidence, InGroup(g, keys[k]))))
  }

  lemma {:induction false} KeysSeenAre(ops: TextOps, g: Grouping, evidence: seq<Evidence>)
    ensures Distinct(KeysSeen(ops, g, evidence))
    ensures forall key :: key in KeysSeen(ops, g, evidence)
                          <==> exists e :: e in evidence && Matches(ops, InGroup(g, key), e)
  {
    hide Grouped, GroupKey;
    if evidence != [] {
      var before, last := evidence[..|evidence| - 1], evidence[|evidence| - 1];
      assert evidence == before + [last];
      KeysSeenAre(ops, g, before);
      forall key ensures key in KeysSeen(ops, g, evidence)
                         <==> exists e :: e in evidence && Matches(ops, InGroup(g, key), e)
      {
        if key in KeysSeen(ops, g, before) {
          var e :| e in before && Matches(ops, InGroup(g, key), e);
          assert e in evidence;
        } else if Grouped(ops, g, last) && key == GroupKey(ops, g, last) {
          assert last in evidence && Matches(ops, InGroup(g, key), last);
        }
      }
    }
  }

  /** Group keys are distinct, and they are the keys of the grouped items. */
  lemma GroupKeysAre(ops: TextOps, g: Grouping, evidence: seq<Evidence>)
    ensures Distinct(GroupKeys(ops, g, evidence))
    ensures Sorted(SelfKey, GroupKeys(ops, g, evidence))
    ensures forall key :: key in GroupKeys(ops, g, evidence)
                          <==> exists e :: e in evidence && Matches(ops, InGroup(g, key), e)
  {
    hide Matches;
    KeysSeenAre(ops, g, evidence);
    SortByDistinct(SelfKey, KeysSeen(ops, g, evidence));
    SortBySorts(SelfKey, KeysSeen(ops, g, evidence));
    forall key ensures key in GroupKeys(ops, g, evidence) <==> key in KeysSeen(ops, g, evidence) {
      SortByMembers(SelfKey, KeysSeen(ops, g, evidence), key);
    }
  }

  lemma OneMoreItem(ops: TextOps, g: Grouping, evidence: seq<Evidence>, n: nat)
    requires n < |evidence|
    ensures var item := evidence[n];
            var seen := KeysSeen(ops, g, evidence[..n]);
            && KeysSeen(ops, g, evidence[..n + 1])
               == (if !Grouped(ops, g, item) || GroupKey(ops, g, item) in seen then seen
                   else seen + [GroupKey(ops, g, item)])
            && forall key :: Select(ops, evidence[..n + 1], InGroup(g, key))
                             == if Grouped(ops, g, item) && GroupKey(ops, g, item) == key
                                then Select(ops, evidence[..n], InGroup(g, key)) + [item]
                                else Select(ops, evidence[..n], InGroup(g, key))
  {
    hide Grouped, GroupKey;
    assert evidence[..n + 1][..n] == evidence[..n];
  }

  lemma NoItems(ops: TextOps, g: Grouping, evidence: seq<Evidence>)
    ensures KeysSeen(ops, g, evidence[..0]) == []
    ensures forall q :: Select(ops, evidence[..0], q) == []
  {
  }

  /** A dictionary of groups: its keys in insertion order, and its entries. */
  datatype GroupTable = GroupTable(order: seq<seq<string>>, entries: map<seq<string>, seq<Evidence>>)
  {
    ghost predicate Describes(ops: TextOps, g: Grouping, evidence: seq<Evidence>) {
      && order == KeysSeen(ops, g, evidence)
      && (forall key :: key in entries <==> key in order)
      && (forall key :: Entry(key) == Select(ops, evidence, InGroup(g, key)))
    }

    /** `groups.setdefault(key, []).append(item)`. */
    function Add(key: seq<string>, item: Evidence): GroupTable {
      if key in entries then this.(entries := entries[key := entries[key] + [item]])
      else GroupTable(order + [key], entries[key := [item]])
    }

    function Entry(key: seq<string>): seq<Evidence> {
      if key in entries then entries[key] else []
    }
  }

  lemma TableOneMore(ops: TextOps, g: Grouping, table: GroupTable, evidence: seq<Evidence>, n: nat)
    requires n < |evidence| && table.Describes(ops, g, evidence[..n])
    ensures (if Grouped(ops, g, evidence[n]) then table.Add(GroupKey(ops, g, evidence[n]), evidence[n]) else table)
            .Describes(ops, g, evidence[..n + 1])
  {
    hide Select, Grouped, GroupKey, KeysSeen;
    OneMoreItem(ops, g, evidence, n);
    if Grouped(ops, g, evidence[n]) {
      var key, item := GroupKey(ops, g, evidence[n]), evidence[n];
      var added := table.Add(key, item);
      assert table.Entry(key) == Select(ops, evidence[..n], InGroup(g, key));
      assert added.Entry(key) == table.Entry(key) + [item];
      forall other | other != key ensures added.Entry(other) == table.Entry(other) {
      }
    }
  }

  lemma EmptyTable(ops: TextOps, g: Grouping, evidence: seq<Evidence>)
    ensures GroupTable([], map[]).Describes(ops, g, evidence[..0])
  {
    hide Select, KeysSeen;
    NoItems(ops, g, evidence);
  }

  /** Fill a dictionary of groups item by item and list it in key order. */
  method GroupItems(ops: TextOps, g: Grouping, evidence: seq<Evidence>) returns (listed: seq<Group>)
    ensures listed == Groups(ops, g, evidence)
  {
    hide Grouped, GroupKey, SortBy, Select, KeysSeen, GroupTable.Describes, GroupTable.Add;
    var table := GroupTable([], map[]);
    EmptyTable(ops, g, evidence);
    for n := 0 to |evidence|
      invariant table.Describes(ops, g, evidence[..n])
    {
      TableOneMore(ops, g, table, evidence, n);
      if Grouped(ops, g, evidence[n]) {
        table := table.Add(GroupKey(ops, g, evidence[n]), evidence[n]);
      }
    }
    assert evidence[..|evidence|] == evidence;
    listed := ListTable(ops, g, evidence, table);
  }

  /** The entries of a dictionary of groups in key order. */
  method ListTable(ops: TextOps, g: Grouping, evidence: seq<Evidence>, table: GroupTable) returns (listed: seq<Group>)
    requires table.Describes(ops, g, evidence)
    ensures listed == Groups(ops, g, evidence)
  {
    hide SortBy, Select, KeysSeen;
    var keys := SortBy(SelfKey, table.order);
    listed := [];
    for n := 0 to |keys|
      invariant |listed| == n
      invariant forall k :: 0 <= k < n ==> listed[k] == Group(keys[k], Select(ops, evidence, InGroup(g, keys[k])))
    {
      listed := listed + [Group(keys[n], table.Entry(keys[n]))];
    }
  }
}
