/** Threat-intelligence and ATT&CK records decide nothing (app/findings/engine.py, app/findings/index.py,
    app/verdict/engine.py). */
module Noninterference {
  import opened Contracts
  import opened EvidenceContracts
  import opened EvidenceIndexing
  import opened FindingRules
  import opened FindingLaws
  import opened Ordering
  import opened Queries
  import opened TextOps
  import opened Verdicts

  /** A knowledge record that is only a reference. */
  predicate IsReference(e: Evidence) {
    e.evidenceType == ThreatIntelligence || e.evidenceType == AttackKnowledge
  }

  function WithoutReferences(evidence: seq<Evidence>): seq<Evidence> {
    if evidence == [] then []
    else
      var last := evidence[|evidence| - 1];
      WithoutReferences(evidence[..|evidence| - 1]) + if IsReference(last) then [] else [last]
  }

  /** Evidence as extraction emits it: unique ids, and type, tags and record class that agree. */
  ghost predicate Proper(evidence: seq<Evidence>) {
    UniqueIds(evidence) && forall e :: e in evidence ==> Shaped(e)
  }

  /** The selections the finding rules and the verdict make. */
  predicate Relevant(q: Query) {
    match q
    case OfType(t) => t != ThreatIntelligence && t != AttackKnowledge
    case FiledUnder(_, _) => false
    case InGroup(g, _) => g.ProcessRule? || g.FlowRule? || g.MaliciousIndicators?
    case UnlinkedKnowledge => false
    case _ => true
  }

  lemma ReferencesNeverMatch(ops: TextOps, q: Query, e: Evidence)
    requires Shaped(e) && IsReference(e) && Relevant(q)
    ensures !Matches(ops, q, e)
  {
    ClassesDiffer();
  }

  lemma {:induction false} RemainingAre(evidence: seq<Evidence>, e: Evidence)
    ensures e in WithoutReferences(evidence) <==> e in evidence && !IsReference(e)
  {
    if evidence != [] {
      RemainingAre(evidence[..|evidence| - 1], e);
      assert evidence == evidence[..|evidence| - 1] + [evidence[|evidence| - 1]];
    }
  }

  lemma FrontIsProper(evidence: seq<Evidence>)
    requires Proper(evidence) && evidence != []
    ensures Proper(evidence[..|evidence| - 1]) && Shaped(evidence[|evidence| - 1])
  {
    hide Shaped;
    var front := evidence[..|evidence| - 1];
    assert evidence[|evidence| - 1] in evidence;
    forall e | e in front ensures Shaped(e) { assert e in evidence; }
  }

  lemma {:induction false} RemainderIsProper(evidence: seq<Evidence>)
    requires Proper(evidence)
    ensures Proper(WithoutReferences(evidence))
  {
    hide Shaped;
    if evidence != [] {
      FrontIsProper(evidence);
      var front, last := evidence[..|evidence| - 1], evidence[|evidence| - 1];
      RemainderIsProper(front);
      var inner := WithoutReferences(front);
      forall j | 0 <= j < |inner| ensures inner[j].evidenceId != last.evidenceId {
        RemainingAre(front, inner[j]);
        var i :| 0 <= i < |front| && front[i] == inner[j];
        assert evidence[i] == inner[j];
      }
    }
  }

  lemma {:induction false} SelectUnaffected(ops: TextOps, evidence: seq<Evidence>, q: Query)
    requires Proper(evidence) && Relevant(q)
    ensures Select(ops, WithoutReferences(evidence), q) == Select(ops, evidence, q)
  {
    hide Matches, Shaped;
    if evidence != [] {
      FrontIsProper(evidence);
      var front, last := evidence[..|evidence| - 1], evidence[|evidence| - 1];
      SelectUnaffected(ops, front, q);
      var inner := WithoutReferences(front);
      if IsReference(last) {
        ReferencesNeverMatch(ops, q, last);
        assert WithoutReferences(evidence) == inner;
      } else {
        assert (inner + [last])[..|inner|] == inner;
      }
    }
  }

  lemma {:induction false} KeysUnaffected(ops: TextOps, evidence: seq<Evidence>, g: Grouping)
    requires Proper(evidence) && (g.ProcessRule? || g.FlowRule? || g.MaliciousIndicators?)
    ensures KeysSeen(ops, g, WithoutReferences(evidence)) == KeysSeen(ops, g, evidence)
  {
    hide Grouped, GroupKey, Shaped;
    if evidence != [] {
      FrontIsProper(evidence);
      var front, last := evidence[..|evidence| - 1], evidence[|evidence| - 1];
      KeysUnaffected(ops, front, g);
      var inner := WithoutReferences(front);
      if IsReference(last) {
        ReferencesNeverMatch(ops, InGroup(g, GroupKey(ops, g, last)), last);
        assert WithoutReferences(evidence) == inner;
      } else {
        assert (inner + [last])[..|inner|] == inner;
      }
    }
  }

  lemma {:induction false} SelectAppend(ops: TextOps, a: seq<Evidence>, b: seq<Evidence>, q: Query)
    ensures Select(ops, a + b, q) == Select(ops, a, q) + Select(ops, b, q)
  {
    hide Matches;
    if b == [] {
      assert a + b == a;
    } else {
      SelectAppend(ops, a, b[..|b| - 1], q);
      assert (a + b)[..|a + b| - 1] == a + b[..|b| - 1];
    }
  }

  lemma {:induction false} CopiesNeverMatch(ops: TextOps, e: Evidence, n: nat, q: Query)
    requires !Matches(ops, q, e)
    ensures Select(ops, Copies(e, n), q) == []
  {
    hide Matches;
    if n > 0 { CopiesNeverMatch(ops, e, n - 1, q); }
  }

  lemma {:induction false} PathEventsUnaffected(ops: TextOps, evidence: seq<Evidence>, key: string)
    requires Proper(evidence)
    ensures Select(ops, Hits(ops, ByPath, WithoutReferences(evidence), key), EndpointRecords)
            == Select(ops, Hits(ops, ByPath, evidence, key), EndpointRecords)
  {
    hide Matches, Shaped, KeysOf, Filing, Copies;
    if evidence != [] {
      FrontIsProper(evidence);
      var front, last := evidence[..|evidence| - 1], evidence[|evidence| - 1];
      PathEventsUnaffected(ops, front, key);
      var inner, copies := WithoutReferences(front), Copies(last, Filing(KeysOf(ops, ByPath, last), key));
      SelectAppend(ops, Hits(ops, ByPath, front, key), copies, EndpointRecords);
      SelectAppend(ops, Hits(ops, ByPath, inner, key), copies, EndpointRecords);
      if IsReference(last) {
        ReferencesNeverMatch(ops, EndpointRecords, last);
        CopiesNeverMatch(ops, last, Filing(KeysOf(ops, ByPath, last), key), EndpointRecords);
        assert WithoutReferences(evidence) == inner;
      } else {
        assert (inner + [last])[..|inner|] == inner;
      }
    }
  }

  lemma ItemUnaffected(evidence: seq<Evidence>, id: string)
    requires Proper(evidence) && ItemById(WithoutReferences(evidence), id).Some?
    ensures ItemById(evidence, id) == ItemById(WithoutReferences(evidence), id)
  {
    hide Shaped;
    var e := ItemById(WithoutReferences(evidence), id).value;
    RemainingAre(evidence, e);
    ItemByItsId(evidence, e);
  }

  // ----- findings -----------------------------------------------------------------------------

  lemma RuleKeysUnaffected(ops: TextOps, evidence: seq<Evidence>, rule: Rule)
    requires Proper(evidence)
    ensures RuleKeys(ops, WithoutReferences(evidence), rule) == RuleKeys(ops, evidence, rule)
  {
    hide Select, KeysSeen, SortBy, WithoutReferences;
    if ByGroup(rule) {
      KeysUnaffected(ops, evidence, GroupingOf(rule));
    } else {
      SelectUnaffected(ops, evidence, TriggerOf(rule));
    }
  }

  lemma OccurrencesUnaffected(ops: TextOps, evidence: seq<Evidence>, indicator: string)
    requires Proper(evidence)
    ensures Occurrences(ops, WithoutReferences(evidence), indicator) == Occurrences(ops, evidence, indicator)
  {
    SelectUnaffected(ops, evidence, ObservedAs(ops.Normalize(indicator)));
  }

  lemma FileDraftUnaffected(ops: TextOps, evidence: seq<Evidence>, record: Evidence)
    requires Proper(evidence)
    ensures FileDraft(ops, WithoutReferences(evidence), record) == FileDraft(ops, evidence, record)
  {
    hide Select, Hits, AnyMarker, NonEmpty, EvidenceIds, Proper, WithoutReferences, TextOps.Stripped, TextOps.Fold;
    var sha256, path := ops.Stripped(record.content, Sha256), ops.Stripped(record.content, Path);
    SelectUnaffected(ops, evidence, HashReputation(sha256, "malicious"));
    SelectUnaffected(ops, evidence, HashReputation(sha256, "suspicious"));
    PathEventsUnaffected(ops, evidence, ops.Fold(path));
  }

  lemma RecordDraftUnaffected(ops: TextOps, evidence: seq<Evidence>, record: Evidence)
    requires Proper(evidence)
    ensures FlowDraft(ops, WithoutReferences(evidence), record) == FlowDraft(ops, evidence, record)
    ensures WriteDraft(ops, WithoutReferences(evidence), record) == WriteDraft(ops, evidence, record)
  {
    hide Select, AnyMarker, NonEmpty, EvidenceIds, Proper, WithoutReferences, DistinctRecordIds;
    hide TextOps.Stripped, TextOps.Normalize;
    var resolved := ops.Stripped(record.content, Response);
    SelectUnaffected(ops, evidence,
                     FlowsFrom(resolved, ops.Stripped(record.content, Host),
                               ops.Stripped(record.content, ProcessName)));
    SelectUnaffected(ops, evidence, WritesTo(ops.Stripped(record.content, Path)));
    SelectUnaffected(ops, evidence, InGroup(MaliciousIndicators, [ops.Normalize(resolved)]));
    SelectUnaffected(ops, evidence,
                     InGroup(MaliciousIndicators, [ops.Normalize(ops.Stripped(record.content, Sha256))]));
  }

  lemma GroupDraftUnaffected(ops: TextOps, evidence: seq<Evidence>, key: RuleKey)
    requires Proper(evidence) && (key.ProcessKey? || key.NetworkKey? || key.IndicatorKey?)
    ensures DraftFor(ops, WithoutReferences(evidence), key) == DraftFor(ops, evidence, key)
  {
    hide Select, ProcessDraft, Proper, WithoutReferences, Occurrences, EvidenceIds, ByInterpreter, Targets, HasHash;
    hide TextOps.Normalize;
    match key
    case ProcessKey(group) =>
      SelectUnaffected(ops, evidence, InGroup(ProcessRule, group));
    case NetworkKey(group) =>
      SelectUnaffected(ops, evidence, InGroup(FlowRule, group));
      if |group| == 3 { SelectUnaffected(ops, evidence, AnswersTo(ops.Normalize(group[0]))); }
    case IndicatorKey(group) =>
      SelectUnaffected(ops, evidence, InGroup(MaliciousIndicators, group));
      if |group| == 1 { OccurrencesUnaffected(ops, evidence, group[0]); }
  }

  /** For every key a rule looks at, the draft is the same. */
  lemma DraftUnaffected(ops: TextOps, evidence: seq<Evidence>, key: RuleKey)
    requires Proper(evidence) && key in AllKeys(ops, WithoutReferences(evidence))
    ensures DraftFor(ops, WithoutReferences(evidence), key) == DraftFor(ops, evidence, key)
  {
    hide Select, AllKeys, FileDraft, FlowDraft, WriteDraft, ProcessDraft, NetworkDraft, IndicatorDraft, Matches, Proper;
    hide WithoutReferences, ItemById, Grouped, GroupKey;
    var rest := WithoutReferences(evidence);
    if key.ProcessKey? || key.NetworkKey? || key.IndicatorKey? {
      GroupDraftUnaffected(ops, evidence, key);
    } else {
      AllKeysAre(ops, rest, key);
      var rule :| Triggers(ops, rest, rule, key);
      var e :| e in rest && Matches(ops, TriggerOf(rule), e) && key == KeyFromItem(rule, e.evidenceId);
      assert ItemById(rest, e.evidenceId).Some?;
      ItemUnaffected(evidence, e.evidenceId);
      var record := ItemById(rest, e.evidenceId).value;
      FileDraftUnaffected(ops, evidence, record);
      RecordDraftUnaffected(ops, evidence, record);
    }
  }

  lemma {:induction false} CollectUnaffected(ops: TextOps, evidence: seq<Evidence>, keys: seq<RuleKey>)
    requires Proper(evidence) && forall key :: key in keys ==> key in AllKeys(ops, WithoutReferences(evidence))
    ensures Collect(ops, WithoutReferences(evidence), keys) == Collect(ops, evidence, keys)
  {
    hide AllKeys, DraftFor, Proper, WithoutReferences;
    if keys != [] {
      CollectUnaffected(ops, evidence, keys[..|keys| - 1]);
      assert keys[|keys| - 1] in keys;
      DraftUnaffected(ops, evidence, keys[|keys| - 1]);
    }
  }

  lemma DraftsUnaffected(ops: TextOps, evidence: seq<Evidence>)
    requires Proper(evidence)
    ensures Drafts(ops, WithoutReferences(evidence)) == Drafts(ops, evidence)
  {
    hide RuleKeys, Collect, Proper, WithoutReferences;
    forall rule ensures RuleKeys(ops, WithoutReferences(evidence), rule) == RuleKeys(ops, evidence, rule) {
      RuleKeysUnaffected(ops, evidence, rule);
    }
    CollectUnaffected(ops, evidence, AllKeys(ops, WithoutReferences(evidence)));
  }

  lemma {:induction false} ExistingUnaffected(evidence: seq<Evidence>, other: seq<Evidence>, ids: seq<string>)
    requires AllKnown(evidence, ids) && AllKnown(other, ids)
    ensures ExistingIds(evidence, ids) == ExistingIds(other, ids)
  {
    hide ItemById;
    if ids != [] {
      assert ids[|ids| - 1] in ids;
      ExistingUnaffected(evidence, other, ids[..|ids| - 1]);
    }
  }

  lemma {:induction false} NumberingUnaffected(evidence: seq<Evidence>, other: seq<Evidence>, drafts: seq<Draft>)
    requires Grounded(evidence, drafts) && Grounded(other, drafts)
    ensures FindingsFrom(evidence, drafts) == FindingsFrom(other, drafts)
  {
    hide AllKnown, ExistingIds, FindingFrom;
    if drafts != [] {
      assert drafts[|drafts| - 1] in drafts;
      NumberingUnaffected(evidence, other, drafts[..|drafts| - 1]);
      ExistingUnaffected(evidence, other, drafts[|drafts| - 1].evidenceIds);
    }
  }

  /** Leaving out every reference leaves the finding list exactly as it is. */
  lemma FindingsUnaffected(ops: TextOps, evidence: seq<Evidence>)
    requires Proper(evidence)
    ensures FindingsOf(ops, WithoutReferences(evidence)) == FindingsOf(ops, evidence)
  {
    hide Drafts, FindingsFrom, Grounded, Proper, WithoutReferences;
    DraftsUnaffected(ops, evidence);
    DraftsGrounded(ops, evidence);
    DraftsGrounded(ops, WithoutReferences(evidence));
    NumberingUnaffected(evidence, WithoutReferences(evidence), Drafts(ops, evidence));
  }

  /** No finding cites a threat-intelligence or ATT&CK record. */
  lemma FindingsCiteNoReference(ops: TextOps, evidence: seq<Evidence>, f: Finding, id: string)
    requires Proper(evidence) && f in FindingsOf(ops, evidence) && id in f.evidenceIds
    ensures ItemById(evidence, id).Some? && !IsReference(ItemById(evidence, id).value)
  {
    hide FindingsFrom, Drafts, Proper, WithoutReferences, ItemById, DraftKeys;
    var rest := WithoutReferences(evidence);
    CitedRemain(ops, evidence, f);
    ItemUnaffected(evidence, id);
    RemainingAre(evidence, ItemById(rest, id).value);
  }

  lemma CitedRemain(ops: TextOps, evidence: seq<Evidence>, f: Finding)
    requires Proper(evidence) && f in FindingsOf(ops, evidence)
    ensures AllKnown(WithoutReferences(evidence), f.evidenceIds)
  {
    hide FindingsFrom, Drafts, WithoutReferences, AllKnown, DraftKeys, Shaped;
    RemainderIsProper(evidence);
    FindingsUnaffected(ops, evidence);
    var rest := WithoutReferences(evidence);
    FindingsAreGrounded(ops, rest);
    var k :| 0 <= k < |FindingsOf(ops, rest)| && FindingsOf(ops, rest)[k] == f;
  }

  // ----- the verdict ----------------------------------------------------------------------------

  lemma LinkUnaffected(ops: TextOps, evidence: seq<Evidence>, f: Finding, target: string, raw: string)
    requires Proper(evidence) && AllKnown(WithoutReferences(evidence), f.evidenceIds)
    ensures CitesLink(ops, WithoutReferences(evidence), f, target, raw) <==> CitesLink(ops, evidence, f, target, raw)
  {
    hide Proper, WithoutReferences, ItemById, ItemLinks;
    forall id | id in f.evidenceIds ensures ItemById(evidence, id) == ItemById(WithoutReferences(evidence), id) {
      ItemUnaffected(evidence, id);
    }
  }

  lemma {:induction false} LinkedUnaffected(ops: TextOps, evidence: seq<Evidence>, m: Finding, behaviours: seq<Finding>,
                                            raw: string)
    requires Proper(evidence) && Resolvable(WithoutReferences(evidence), behaviours)
    ensures LinkedBehaviours(ops, WithoutReferences(evidence), m, behaviours, raw)
            == LinkedBehaviours(ops, evidence, m, behaviours, raw)
  {
    hide Proper, WithoutReferences, CitesLink, AllKnown, TextOps.Normalize;
    if behaviours != [] {
      var last := behaviours[|behaviours| - 1];
      assert last in behaviours;
      LinkedUnaffected(ops, evidence, m, behaviours[..|behaviours| - 1], raw);
      LinkUnaffected(ops, evidence, last, ops.Normalize(raw), raw);
    }
  }

  lemma {:induction false} IndicatorPairsUnaffected(ops: TextOps, evidence: seq<Evidence>, m: Finding,
                                                    behaviours: seq<Finding>, indicators: seq<string>)
    requires Proper(evidence) && Resolvable(WithoutReferences(evidence), behaviours)
    ensures IndicatorPairs(ops, WithoutReferences(evidence), m, behaviours, indicators)
            == IndicatorPairs(ops, evidence, m, behaviours, indicators)
  {
    hide Proper, WithoutReferences, LinkedBehaviours, Resolvable, TextOps.Normalize;
    if indicators != [] {
      IndicatorPairsUnaffected(ops, evidence, m, behaviours, indicators[..|indicators| - 1]);
      LinkedUnaffected(ops, evidence, m, behaviours, indicators[|indicators| - 1]);
    }
  }

  lemma {:induction false} PairsUnaffected(ops: TextOps, evidence: seq<Evidence>, malicious: seq<Finding>,
                                           behaviours: seq<Finding>)
    requires Proper(evidence) && Resolvable(WithoutReferences(evidence), behaviours)
    ensures CrossSourcePairs(ops, WithoutReferences(evidence), malicious, behaviours)
            == CrossSourcePairs(ops, evidence, malicious, behaviours)
  {
    hide Proper, WithoutReferences, IndicatorPairs, Resolvable;
    if malicious != [] {
      var last := malicious[|malicious| - 1];
      PairsUnaffected(ops, evidence, malicious[..|malicious| - 1], behaviours);
      IndicatorPairsUnaffected(ops, evidence, last, behaviours, last.relatedIndicators);
    }
  }

  lemma {:induction false} BenignUnaffected(ops: TextOps, evidence: seq<Evidence>, items: seq<Evidence>)
    requires Proper(evidence)
    ensures BenignAmong(ops, WithoutReferences(evidence), items) == BenignAmong(ops, evidence, items)
  {
    hide Proper, WithoutReferences, Occurrences;
    if items != [] {
      var last := items[|items| - 1];
      BenignUnaffected(ops, evidence, items[..|items| - 1]);
      if Indicator in last.content && last.content[Indicator].Text? {
        OccurrencesUnaffected(ops, evidence, last.content[Indicator].s);
      }
    }
  }

  lemma DecisionUnaffected(ops: TextOps, evidence: seq<Evidence>, completed: bool, noGaps: bool)
    requires Proper(evidence)
    ensures var rest, findings := WithoutReferences(evidence), FindingsOf(ops, evidence);
            && FindingsOf(ops, rest) == findings
            && Decide(ops, rest, findings, completed, noGaps) == Decide(ops, evidence, findings, completed, noGaps)
  {
    hide Proper, WithoutReferences, FindingsOf, Picked, CrossSourcePairs, BenignAmong, DecideFrom, AllKnown, Select;
    var rest, findings := WithoutReferences(evidence), FindingsOf(ops, evidence);
    FindingsUnaffected(ops, evidence);
    forall f | f in Picked(Behaviour, findings) ensures AllKnown(rest, f.evidenceIds) {
      PickedAre(Behaviour, findings, f);
      CitedRemain(ops, evidence, f);
    }
    PairsUnaffected(ops, evidence, Picked(MaliciousGrade, findings), Picked(Behaviour, findings));
    SelectUnaffected(ops, evidence, OfType(IocReputation));
    BenignUnaffected(ops, evidence, Select(ops, evidence, OfType(IocReputation)));
  }

  /** Two bodies of evidence that differ only in threat-intelligence and ATT&CK records have the same
      findings and the same verdict; only a benign verdict's confidence may follow the gaps reported. */
  lemma ReferencesDoNotInterfere(ops: TextOps, evidence: seq<Evidence>, other: seq<Evidence>, completed: bool,
                                 noGaps: bool, otherNoGaps: bool)
    requires Proper(evidence) && Proper(other) && WithoutReferences(evidence) == WithoutReferences(other)
    ensures FindingsOf(ops, evidence) == FindingsOf(ops, other)
    ensures var v := Decide(ops, evidence, FindingsOf(ops, evidence), completed, noGaps);
            var u := Decide(ops, other, FindingsOf(ops, other), completed, otherNoGaps);
            && u == v.(confidence := u.confidence)
            && (noGaps == otherNoGaps || !v.disposition.Benign? ==> u == v)
  {
    hide Proper, WithoutReferences, FindingsOf, PairsOf, BenignEvidence, Picked, OrderedIds;
    DecisionUnaffected(ops, evidence, completed, noGaps);
    DecisionUnaffected(ops, other, completed, noGaps);
    DecisionUnaffected(ops, other, completed, otherNoGaps);
  }
}
