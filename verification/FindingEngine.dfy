/** The finding engine: rule loops over the index, proved against the rules
    (app/findings/engine.py). */
module Findings {
  import opened Contracts
  import opened EvidenceContracts
  import opened EvidenceIndexing
  import opened FindingRules
  import opened Ordering
  import opened Queries
  import opened TextOps

  lemma {:induction false} KeysSeenWithin(ops: TextOps, evidence: seq<Evidence>)
    ensures KeysSeen(ops, MaliciousIndicators, Select(ops, evidence, OfType(IocReputation)))
            == KeysSeen(ops, MaliciousIndicators, evidence)
  {
    hide GroupKey;
    if evidence != [] {
      var before, last := evidence[..|evidence| - 1], evidence[|evidence| - 1];
      KeysSeenWithin(ops, before);
      var inner := Select(ops, before, OfType(IocReputation));
      if last.evidenceType == IocReputation {
        assert (inner + [last])[..|inner|] == inner;
      } else {
        assert inner + [] == inner;
      }
    }
  }

  lemma GroupArity(ops: TextOps, g: Grouping, evidence: seq<Evidence>, n: nat)
    requires n < |GroupKeys(ops, g, evidence)|
    ensures var key := GroupKeys(ops, g, evidence)[n];
            exists e :: e in evidence && Grouped(ops, g, e) && key == GroupKey(ops, g, e)
    ensures var key := GroupKeys(ops, g, evidence)[n];
            && (g.ProcessRule? || g.FlowRule? ==> |key| == 3)
            && (g.MaliciousIndicators? ==> |key| == 1)
  {
    hide Select;
    var key := GroupKeys(ops, g, evidence)[n];
    GroupKeysAre(ops, g, evidence);
    assert key in GroupKeys(ops, g, evidence);
    var e :| e in evidence && Matches(ops, InGroup(g, key), e);
  }

  lemma CollectNext(ops: TextOps, evidence: seq<Evidence>, keys: seq<RuleKey>, n: nat)
    requires n < |keys|
    ensures Collect(ops, evidence, keys[..n + 1])
            == match DraftFor(ops, evidence, keys[n])
               case None => Collect(ops, evidence, keys[..n])
               case Some(draft) => Collect(ops, evidence, keys[..n]) + [draft]
  {
    hide DraftFor;
    assert keys[..n + 1][..n] == keys[..n];
    assert Collect(ops, evidence, keys[..n]) + [] == Collect(ops, evidence, keys[..n]);
  }

  class FindingEngine {
    const ops: TextOps
    var skippedMaliciousIndicators: seq<string>

    constructor (ops: TextOps)
      ensures this.ops == ops && skippedMaliciousIndicators == []
    {
      this.ops, skippedMaliciousIndicators := ops, [];
    }

    method ProcessDrafts(index: EvidenceIndex) returns (drafts: seq<Draft>)
      requires index.Valid() && index.ops == ops
      ensures drafts == Collect(ops, index.evidence, RuleKeys(ops, index.evidence, RuleProcess))
    {
      hide Select, Matches, GroupKeys, LineHas, FromTempFolder, NonEmpty, EvidenceIndex.Valid, Collect;
      var groups := GroupItems(ops, ProcessRule, index.evidence);
      ghost var keys := RuleKeys(ops, index.evidence, RuleProcess);
      drafts := [];
      NoDrafts(keys, index.evidence);
      for n := 0 to |groups|
        invariant drafts == Collect(ops, index.evidence, keys[..n])
      {
        var group, items := groups[n].key, groups[n].items;
        GroupArity(ops, ProcessRule, index.evidence, n);
        CollectNext(ops, index.evidence, keys, n);
        var process, parent := group[1], group[2];
        if ops.casefold(process) !in SCRIPT_INTERPRETERS {
          continue;
        }
        var encoded := exists e :: e in items && LineHas(ops, e, ENCODING_MARKERS);
        var hidden := exists e :: e in items && LineHas(ops, e, HIDDEN_MARKERS);
        var tempPath := exists e :: e in items && FromTempFolder(ops, e);
        var documentParent := ops.casefold(parent) in DOCUMENT_PROCESSES;
        var severity := Low;
        if documentParent || encoded {
          severity := High;
        } else if hidden || tempPath {
          severity := Medium;
        }
        var support := if documentParent && encoded then Strong else if severity != Low then Moderate else Weak;
        drafts := drafts + [Draft(ProcessKey(group), SuspiciousProcessExecution, severity, support, EvidenceIds(items),
                                  NonEmpty([process, parent] + StrippedEach(ops, items, FilePath)))];
      }
      assert keys[..|keys|] == keys;
    }

    lemma NoDrafts(keys: seq<RuleKey>, evidence: seq<Evidence>)
      ensures Collect(ops, evidence, keys[..0]) == []
    {
    }

    method FileDrafts(index: EvidenceIndex) returns (drafts: seq<Draft>)
      requires index.Valid() && index.ops == ops
      ensures drafts == Collect(ops, index.evidence, RuleKeys(ops, index.evidence, RuleFile))
    {
      hide Select, Matches, AnyMarker, NonEmpty, Hits, EvidenceIndex.Valid, Collect, TextOps.Stripped,
           TextOps.Normalize;
      hide TextOps.Fold;
      var observed := Scan(ops, index.evidence, ObservedOf(FileActivity));
      var records := Scan(ops, observed, FileRecords);
      FileRecordsWithin(index.evidence);
      ghost var keys := RuleKeys(ops, index.evidence, RuleFile);
      drafts := [];
      NoDrafts(keys, index.evidence);
      for n := 0 to |records|
        invariant drafts == Collect(ops, index.evidence, keys[..n])
      {
        var record := records[n];
        CollectNext(ops, index.evidence, keys, n);
        TriggerFound(index, FileRecords, n);
        var path, fileName, sha256 :=
          ops.Stripped(record.content, Path), ops.Stripped(record.content, FileName),
          ops.Stripped(record.content, Sha256);
        var malicious := ReputationsByHash(index, sha256, "malicious");
        var suspicious := ReputationsByHash(index, sha256, "suspicious");
        var related := RelatedEvents(index, path);
        var unsigned := Signed in record.content && record.content[Signed] == Flag(false);
        var severity := Medium;
        if malicious != [] {
          severity := High;
        } else if suspicious == [] && !InTempFolder(ops, path) && !unsigned {
          continue;
        }
        var support :=
          if malicious != [] && related != [] then Strong
          else if malicious != [] || suspicious != [] then Moderate else Weak;
        drafts := drafts + [Draft(FileKey(record.evidenceId), SuspiciousFileArtifact, severity, support,
                                  [record.evidenceId] + EvidenceIds(malicious) + EvidenceIds(suspicious)
                                  + EvidenceIds(related), NonEmpty([fileName, path, sha256]))];
      }
      assert keys[..|keys|] == keys;
    }

    lemma FileRecordsWithin(evidence: seq<Evidence>)
      ensures Select(ops, Select(ops, evidence, ObservedOf(FileActivity)), FileRecords)
              == Select(ops, evidence, FileRecords)
    {
      SelectWithin(ops, evidence, ObservedOf(FileActivity), FileRecords);
    }

    lemma TriggerFound(index: EvidenceIndex, q: Query, n: nat)
      requires index.Valid() && n < |Select(ops, index.evidence, q)|
      ensures var e := Select(ops, index.evidence, q)[n];
              ItemById(index.evidence, e.evidenceId) == Some(e)
    {
      var e := Select(ops, index.evidence, q)[n];
      Selected(ops, index.evidence, q, e);
      ItemByItsId(index.evidence, e);
    }

    /** The reputation records of a file hash, found through the indicator table. */
    method ReputationsByHash(index: EvidenceIndex, sha256: string, level: string) returns (found: seq<Evidence>)
      requires index.Valid() && index.ops == ops
      ensures found == HashReputations(ops, index.evidence, sha256, level)
    {
      hide EvidenceIndex.Valid, Hits;
      if sha256 == "" {
        return [];
      }
      var hits := index.Lookup(ByIndicator, sha256);
      LookupIsFilterIff(ops, ByIndicator, index.evidence, ops.Normalize(sha256));
      found := Scan(ops, hits, HashReputation(sha256, level));
      SelectWithin(ops, index.evidence, FiledUnder(ByIndicator, ops.Normalize(sha256)), HashReputation(sha256, level));
    }

    /** The endpoint events at a path, found through the path table. */
    method RelatedEvents(index: EvidenceIndex, path: string) returns (events: seq<Evidence>)
      requires index.Valid() && index.ops == ops
      ensures events == EventsAtPath(ops, index.evidence, path)
    {
      if path == "" {
        return [];
      }
      var hits := index.Lookup(ByPath, path);
      events := Scan(ops, hits, EndpointRecords);
    }

    method NetworkDrafts(index: EvidenceIndex) returns (drafts: seq<Draft>)
      requires index.Valid() && index.ops == ops
      ensures drafts == Collect(ops, index.evidence, RuleKeys(ops, index.evidence, RuleNetwork))
    {
      hide Select, Matches, GroupKeys, ByInterpreter, EvidenceIndex.Valid, Collect, TextOps.Normalize;
      var groups := GroupItems(ops, FlowRule, index.evidence);
      ghost var keys := RuleKeys(ops, index.evidence, RuleNetwork);
      drafts := [];
      NoDrafts(keys, index.evidence);
      for n := 0 to |groups|
        invariant drafts == Collect(ops, index.evidence, keys[..n])
      {
        var group, items := groups[n].key, groups[n].items;
        GroupArity(ops, FlowRule, index.evidence, n);
        CollectNext(ops, index.evidence, keys, n);
        var script := exists e :: e in items && ByInterpreter(ops, e);
        var queries := Scan(ops, index.evidence, ObservedOf(DnsQuery));
        var answers := Scan(ops, queries, AnswersTo(ops.Normalize(group[0])));
        AnswersWithin(index.evidence, ops.Normalize(group[0]));
        var severity := if script then Medium else Low;
        var support := if script || answers != [] then Moderate else Weak;
        drafts := drafts + [Draft(NetworkKey(group), SuspiciousNetworkActivity, severity, support,
                                  EvidenceIds(items) + EvidenceIds(answers), [group[0]])];
      }
      assert keys[..|keys|] == keys;
    }

    lemma AnswersWithin(evidence: seq<Evidence>, target: string)
      ensures Select(ops, Select(ops, evidence, ObservedOf(DnsQuery)), AnswersTo(target))
              == Select(ops, evidence, AnswersTo(target))
    {
      SelectWithin(ops, evidence, ObservedOf(DnsQuery), AnswersTo(target));
    }

    /** Group the malicious reputation records by indicator, and note the indicators nobody observed. */
    method CollectIndicators(index: EvidenceIndex) returns (table: GroupTable)
      requires index.Valid() && index.ops == ops
      modifies this
      ensures table.Describes(ops, MaliciousIndicators, index.evidence)
      ensures skippedMaliciousIndicators
              == old(skippedMaliciousIndicators)
                 + SkippedIndicators(ops, index.evidence, Select(ops, index.evidence, OfType(IocReputation)))
    {
      hide Select, Grouped, GroupKey, KeysSeen, Occurrences, EvidenceIndex.Valid, TextOps.Stripped,
           GroupTable.Describes;
      var items := index.ItemsOfType(IocReputation);
      table := GroupTable([], map[]);
      EmptyTable(ops, MaliciousIndicators, items);
      for n := 0 to |items|
        invariant table.Describes(ops, MaliciousIndicators, items[..n])
        invariant skippedMaliciousIndicators
                  == old(skippedMaliciousIndicators) + SkippedIndicators(ops, index.evidence, items[..n])
      {
        var item := items[n];
        TableOneMore(ops, MaliciousIndicators, table, items, n);
        assert items[..n + 1][..n] == items[..n];
        if Grouped(ops, MaliciousIndicators, item) {
          var indicator := ops.Stripped(item.content, Indicator);
          table := table.Add(GroupKey(ops, MaliciousIndicators, item), item);
          var observed := index.ObservedOccurrences(indicator);
          if observed == [] {
            skippedMaliciousIndicators := skippedMaliciousIndicators + [indicator];
          }
        }
      }
      assert items[..|items|] == items;
      TableOfAll(index.evidence, table);
    }

    lemma TableOfAll(evidence: seq<Evidence>, table: GroupTable)
      requires table.Describes(ops, MaliciousIndicators, Select(ops, evidence, OfType(IocReputation)))
      ensures table.Describes(ops, MaliciousIndicators, evidence)
    {
      hide Select, KeysSeen;
      IndicatorsWithin(evidence);
    }

    lemma IndicatorsWithin(evidence: seq<Evidence>)
      ensures var items := Select(ops, evidence, OfType(IocReputation));
              && KeysSeen(ops, MaliciousIndicators, items) == KeysSeen(ops, MaliciousIndicators, evidence)
              && forall key :: Select(ops, items, InGroup(MaliciousIndicators, key))
                               == Select(ops, evidence, InGroup(MaliciousIndicators, key))
    {
      hide KeysSeen;
      KeysSeenWithin(ops, evidence);
      forall key ensures Select(ops, Select(ops, evidence, OfType(IocReputation)), InGroup(MaliciousIndicators, key))
                         == Select(ops, evidence, InGroup(MaliciousIndicators, key))
      {
        SelectWithin(ops, evidence, OfType(IocReputation), InGroup(MaliciousIndicators, key));
      }
    }

    method IndicatorDrafts(index: EvidenceIndex, table: GroupTable) returns (drafts: seq<Draft>)
      requires index.Valid() && index.ops == ops && table.Describes(ops, MaliciousIndicators, index.evidence)
      ensures drafts == Collect(ops, index.evidence, RuleKeys(ops, index.evidence, RuleIndicator))
    {
      hide Select, Matches, KeysSeen, SortBy, Occurrences, EvidenceIndex.Valid, Collect, TextOps.Normalize,
           TextOps.Stripped;
      hide Targets, HasHash;
      var groups := SortBy(SelfKey, table.order);
      ghost var keys := RuleKeys(ops, index.evidence, RuleIndicator);
      drafts := [];
      NoDrafts(keys, index.evidence);
      for n := 0 to |groups|
        invariant drafts == Collect(ops, index.evidence, keys[..n])
      {
        var group := groups[n];
        GroupArity(ops, MaliciousIndicators, index.evidence, n);
        CollectNext(ops, index.evidence, keys, n);
        var observed := index.ObservedOccurrences(group[0]);
        if observed == [] {
          continue;
        }
        var target := ops.Normalize(group[0]);
        var severity := Medium;
        if exists e :: e in observed && Targets(ops, e, DstIp, target) {
          severity := Critical;
        } else if exists e :: e in observed && HasHash(ops, e, group[0]) {
          severity := High;
        } else if exists e :: e in observed && Targets(ops, e, Response, target) {
          severity := High;
        }
        drafts := drafts + [Draft(IndicatorKey(group), MaliciousIndicatorMatch, severity, Strong,
                                  EvidenceIds(table.Entry(group)) + EvidenceIds(observed), [group[0]])];
      }
      assert keys[..|keys|] == keys;
    }

    method ReputationEntries(table: GroupTable, evidence: seq<Evidence>, value: string) returns (found: seq<Evidence>)
      requires table.Describes(ops, MaliciousIndicators, evidence)
      ensures found == ReputationsFor(ops, evidence, value)
    {
      hide Select, KeysSeen;
      found := if value == "" then [] else table.Entry([ops.Normalize(value)]);
    }

    method DnsToFlowDrafts(index: EvidenceIndex, table: GroupTable) returns (drafts: seq<Draft>)
      requires index.Valid() && index.ops == ops && table.Describes(ops, MaliciousIndicators, index.evidence)
      ensures drafts == Collect(ops, index.evidence, RuleKeys(ops, index.evidence, RuleFlow))
    {
      hide Select, Matches, NonEmpty, EvidenceIndex.Valid, Collect, TextOps.Stripped, TextOps.Normalize,
           DistinctRecordIds;
      hide GroupTable.Describes;
      var flows := Scan(ops, index.evidence, ObservedOf(NetworkConnection));
      var queries := Scan(ops, index.evidence, ObservedOf(DnsQuery));
      ghost var keys := RuleKeys(ops, index.evidence, RuleFlow);
      drafts := [];
      NoDrafts(keys, index.evidence);
      for n := 0 to |queries|
        invariant drafts == Collect(ops, index.evidence, keys[..n])
      {
        var dns := queries[n];
        CollectNext(ops, index.evidence, keys, n);
        TriggerFound(index, ObservedOf(DnsQuery), n);
        var resolved := ops.Stripped(dns.content, Response);
        if resolved == "" || ops.internal(resolved) {
          continue;
        }
        var host, process := ops.Stripped(dns.content, Host), ops.Stripped(dns.content, ProcessName);
        var matches := Scan(ops, flows, FlowsFrom(resolved, host, process));
        FlowsWithin(index.evidence, resolved, host, process);
        if matches == [] {
          continue;
        }
        var recordIds := index.RecordIds([dns] + matches);
        if |recordIds| < 2 {
          continue;
        }
        var malicious := ReputationEntries(table, index.evidence, resolved);
        var severity := if malicious != [] then High else Medium;
        drafts := drafts + [Draft(FlowKey(dns.evidenceId), CorrelatedAttackPattern, severity, Strong,
                                  [dns.evidenceId] + EvidenceIds(matches) + EvidenceIds(malicious),
                                  NonEmpty([ops.Stripped(dns.content, Query), resolved]))];
      }
      assert keys[..|keys|] == keys;
    }

    lemma FlowsWithin(evidence: seq<Evidence>, resolved: string, host: string, process: string)
      ensures Select(ops, Select(ops, evidence, ObservedOf(NetworkConnection)), FlowsFrom(resolved, host, process))
              == Select(ops, evidence, FlowsFrom(resolved, host, process))
    {
      SelectWithin(ops, evidence, ObservedOf(NetworkConnection), FlowsFrom(resolved, host, process));
    }

    method FileWriteDrafts(index: EvidenceIndex, table: GroupTable) returns (drafts: seq<Draft>)
      requires index.Valid() && index.ops == ops && table.Describes(ops, MaliciousIndicators, index.evidence)
      ensures drafts == Collect(ops, index.evidence, RuleKeys(ops, index.evidence, RuleWrite))
    {
      hide Select, Matches, AnyMarker, NonEmpty, EvidenceIndex.Valid, Collect, TextOps.Stripped, TextOps.Normalize;
      hide GroupTable.Describes;
      var observed := Scan(ops, index.evidence, ObservedOf(FileActivity));
      var records := Scan(ops, observed, FileRecords);
      var events := Scan(ops, observed, EndpointRecords);
      FileRecordsWithin(index.evidence);
      ghost var keys := RuleKeys(ops, index.evidence, RuleWrite);
      drafts := [];
      NoDrafts(keys, index.evidence);
      for n := 0 to |records|
        invariant drafts == Collect(ops, index.evidence, keys[..n])
      {
        var record := records[n];
        CollectNext(ops, index.evidence, keys, n);
        TriggerFound(index, FileRecords, n);
        var path := ops.Stripped(record.content, Path);
        if path == "" || !InTempFolder(ops, path) {
          continue;
        }
        var written := Scan(ops, events, WritesTo(path));
        WritesWithin(index.evidence, path);
        if written == [] {
          continue;
        }
        var sha256 := ops.Stripped(record.content, Sha256);
        var malicious := ReputationEntries(table, index.evidence, sha256);
        var severity := if malicious != [] then High else Medium;
        drafts := drafts + [Draft(WriteKey(record.evidenceId), CorrelatedAttackPattern, severity, Strong,
                                  [record.evidenceId] + EvidenceIds(written) + EvidenceIds(malicious),
                                  NonEmpty([path, sha256, ops.Stripped(written[0].content, ProcessName)]))];
      }
      assert keys[..|keys|] == keys;
    }

    lemma WritesWithin(evidence: seq<Evidence>, path: string)
      ensures Select(ops, Select(ops, Select(ops, evidence, ObservedOf(FileActivity)), EndpointRecords), WritesTo(path))
              == Select(ops, evidence, WritesTo(path))
    {
      SelectWithin(ops, Select(ops, evidence, ObservedOf(FileActivity)), EndpointRecords, WritesTo(path));
      SelectWithin(ops, evidence, ObservedOf(FileActivity), WritesTo(path));
    }

    /** The known ids of a draft, each once. */
    method KeepExisting(evidence: seq<Evidence>, ids: seq<string>) returns (ordered: seq<string>)
      ensures ordered == ExistingIds(evidence, ids)
    {
      ordered := [];
      for n := 0 to |ids|
        invariant ordered == ExistingIds(evidence, ids[..n])
      {
        assert ids[..n + 1][..n] == ids[..n];
        if ItemById(evidence, ids[n]).Some? && ids[n] !in ordered {
          ordered := ordered + [ids[n]];
        }
      }
      assert ids[..|ids|] == ids;
    }

    method NumberFindings(evidence: seq<Evidence>, drafts: seq<Draft>) returns (findings: seq<Finding>)
      ensures findings == FindingsFrom(evidence, drafts)
    {
      hide ExistingIds;
      findings := [];
      for n := 0 to |drafts|
        invariant findings == FindingsFrom(evidence, drafts[..n])
      {
        assert drafts[..n + 1][..n] == drafts[..n];
        var ids := KeepExisting(evidence, drafts[n].evidenceIds);
        if ids == [] {
          continue;
        }
        findings := findings + [FindingFrom(n + 1, drafts[n], ids)];
      }
      assert drafts[..|drafts|] == drafts;
    }

    method AllDrafts(index: EvidenceIndex, table: GroupTable) returns (drafts: seq<Draft>)
      requires index.Valid() && index.ops == ops && table.Describes(ops, MaliciousIndicators, index.evidence)
      ensures drafts == Drafts(ops, index.evidence)
    {
      hide Collect, RuleKeys, GroupTable.Describes, EvidenceIndex.Valid;
      var processes := ProcessDrafts(index);
      var files := FileDrafts(index);
      var networks := NetworkDrafts(index);
      var indicators := IndicatorDrafts(index, table);
      var flows := DnsToFlowDrafts(index, table);
      var writes := FileWriteDrafts(index, table);
      drafts := processes + files + networks + indicators + flows + writes;
      DraftsByRule(index.evidence);
    }

    /** The findings of one extraction, numbered by draft position. */
    method Build(extraction: Extraction) returns (findings: seq<Finding>)
      requires extraction.Valid()
      modifies this
      ensures findings == FindingsOf(ops, extraction.evidence)
      ensures skippedMaliciousIndicators
              == SkippedIndicators(ops, extraction.evidence, Select(ops, extraction.evidence, OfType(IocReputation)))
    {
      hide Select, Drafts, FindingsFrom, SkippedIndicators, GroupTable.Describes, EvidenceIndex.Valid;
      skippedMaliciousIndicators := [];
      var index := new EvidenceIndex(ops, extraction.evidence);
      var table := CollectIndicators(index);
      var drafts := AllDrafts(index, table);
      findings := NumberFindings(extraction.evidence, drafts);
    }

    lemma DraftsByRule(evidence: seq<Evidence>)
      ensures Drafts(ops, evidence)
              == Collect(ops, evidence, RuleKeys(ops, evidence, RuleProcess))
                 + Collect(ops, evidence, RuleKeys(ops, evidence, RuleFile))
                 + Collect(ops, evidence, RuleKeys(ops, evidence, RuleNetwork))
                 + Collect(ops, evidence, RuleKeys(ops, evidence, RuleIndicator))
                 + Collect(ops, evidence, RuleKeys(ops, evidence, RuleFlow))
                 + Collect(ops, evidence, RuleKeys(ops, evidence, RuleWrite))
    {
      hide RuleKeys, Collect;
      var p, f, n, i, d, w := RuleKeys(ops, evidence, RuleProcess), RuleKeys(ops, evidence, RuleFile),
        RuleKeys(ops, evidence, RuleNetwork), RuleKeys(ops, evidence, RuleIndicator),
        RuleKeys(ops, evidence, RuleFlow), RuleKeys(ops, evidence, RuleWrite);
      CollectAppend(ops, evidence, p, f);
      CollectAppend(ops, evidence, p + f, n);
      CollectAppend(ops, evidence, p + f + n, i);
      CollectAppend(ops, evidence, p + f + n + i, d);
      CollectAppend(ops, evidence, p + f + n + i + d, w);
    }
  }
}
