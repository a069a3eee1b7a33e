/** What every finding list satisfies (app/findings/engine.py, app/findings/contracts.py). */
module FindingLaws {
  import opened Contracts
  import opened EvidenceContracts
  import opened EvidenceIndexing
  import opened FindingRules
  import opened Ordering
  import opened Queries
  import opened TextOps
  import Ids

  // ----- keys and drafts ------------------------------------------------------------------

  ghost predicate Triggers(ops: TextOps, evidence: seq<Evidence>, rule: Rule, key: RuleKey) {
    if ByGroup(rule) then
      exists e :: e in evidence && Grouped(ops, GroupingOf(rule), e)
                  && key == KeyFromGroup(rule, GroupKey(ops, GroupingOf(rule), e))
    else
      exists e :: e in evidence && Matches(ops, TriggerOf(rule), e) && key == KeyFromItem(rule, e.evidenceId)
  }

  /** A rule looks at a key exactly when some item triggers it. */
  lemma RuleKeysAre(ops: TextOps, evidence: seq<Evidence>, rule: Rule, key: RuleKey)
    ensures key in RuleKeys(ops, evidence, rule) <==> Triggers(ops, evidence, rule, key)
  {
    hide Select, GroupKeys, Grouped, GroupKey;
    if ByGroup(rule) {
      var g := GroupingOf(rule);
      GroupKeysAre(ops, g, evidence);
      var groups := GroupKeys(ops, g, evidence);
      if key in RuleKeys(ops, evidence, rule) {
        var k :| 0 <= k < |groups| && KeysFromGroups(rule, groups)[k] == key;
        assert groups[k] in groups;
        var e :| e in evidence && Matches(ops, InGroup(g, groups[k]), e);
      }
      if Triggers(ops, evidence, rule, key) {
        var e :| e in evidence && Grouped(ops, g, e) && key == KeyFromGroup(rule, GroupKey(ops, g, e));
        assert Matches(ops, InGroup(g, GroupKey(ops, g, e)), e);
        assert GroupKey(ops, g, e) in groups;
        var k :| 0 <= k < |groups| && groups[k] == GroupKey(ops, g, e);
        assert KeysFromGroups(rule, groups)[k] == key;
      }
    } else {
      ItemKeysAre(ops, evidence, rule, key);
    }
  }

  lemma ItemKeysAre(ops: TextOps, evidence: seq<Evidence>, rule: Rule, key: RuleKey)
    requires !ByGroup(rule)
    ensures key in RuleKeys(ops, evidence, rule) <==> Triggers(ops, evidence, rule, key)
  {
    hide Select, Matches;
    var items := Select(ops, evidence, TriggerOf(rule));
    if key in RuleKeys(ops, evidence, rule) {
      var k :| 0 <= k < |items| && KeysFromItems(rule, items)[k] == key;
      Selected(ops, evidence, TriggerOf(rule), items[k]);
    }
    if Triggers(ops, evidence, rule, key) {
      var e :| e in evidence && Matches(ops, TriggerOf(rule), e) && key == KeyFromItem(rule, e.evidenceId);
      Selected(ops, evidence, TriggerOf(rule), e);
      var k :| 0 <= k < |items| && items[k] == e;
      assert KeysFromItems(rule, items)[k] == key;
    }
  }

  lemma {:induction false} SelectUnique(ops: TextOps, evidence: seq<Evidence>, q: Query)
    requires UniqueIds(evidence)
    ensures UniqueIds(Select(ops, evidence, q))
  {
    hide Matches;
    if evidence != [] {
      var before, last := evidence[..|evidence| - 1], evidence[|evidence| - 1];
      SelectUnique(ops, before, q);
      var inner := Select(ops, before, q);
      forall j | 0 <= j < |inner| ensures inner[j].evidenceId != last.evidenceId {
        Selected(ops, before, q, inner[j]);
        var i :| 0 <= i < |before| && before[i] == inner[j];
        assert evidence[i] == inner[j];
      }
    }
  }

  lemma RuleKeysDistinct(ops: TextOps, evidence: seq<Evidence>, rule: Rule)
    requires UniqueIds(evidence)
    ensures Distinct(RuleKeys(ops, evidence, rule))
  {
    hide Select, GroupKeys;
    GroupKeysAre(ops, GroupingOf(rule), evidence);
    SelectUnique(ops, evidence, TriggerOf(rule));
  }

  predicate KeyOfRule(key: RuleKey, rule: Rule) {
    match rule
    case RuleProcess => key.ProcessKey?
    case RuleFile => key.FileKey?
    case RuleNetwork => key.NetworkKey?
    case RuleIndicator => key.IndicatorKey?
    case RuleFlow => key.FlowKey?
    case RuleWrite => key.WriteKey?
  }

  lemma RuleKeysOfRule(ops: TextOps, evidence: seq<Evidence>, rule: Rule)
    ensures forall key :: key in RuleKeys(ops, evidence, rule) ==> KeyOfRule(key, rule)
  {
    hide Select, GroupKeys;
  }

  lemma AppendDistinct<T>(a: seq<T>, b: seq<T>)
    requires Distinct(a) && Distinct(b) && forall x :: x in a ==> x !in b
    ensures Distinct(a + b)
  {
    forall j, k | 0 <= j < k < |a + b| ensures (a + b)[j] != (a + b)[k] {
      if j < |a| <= k {
        assert a[j] in a && b[k - |a|] in b;
      }
    }
  }

  /** No two keys coincide, within one rule or across rules. */
  lemma AllKeysDistinct(ops: TextOps, evidence: seq<Evidence>)
    requires UniqueIds(evidence)
    ensures Distinct(AllKeys(ops, evidence))
  {
    hide RuleKeys;
    var p, f, n, i, d, w := RuleKeys(ops, evidence, RuleProcess), RuleKeys(ops, evidence, RuleFile),
      RuleKeys(ops, evidence, RuleNetwork), RuleKeys(ops, evidence, RuleIndicator),
      RuleKeys(ops, evidence, RuleFlow), RuleKeys(ops, evidence, RuleWrite);
    forall rule ensures Distinct(RuleKeys(ops, evidence, rule))
                        && forall key :: key in RuleKeys(ops, evidence, rule) ==> KeyOfRule(key, rule) {
      RuleKeysDistinct(ops, evidence, rule);
      RuleKeysOfRule(ops, evidence, rule);
    }
    AppendDistinct(p, f);
    AppendDistinct(p + f, n);
    AppendDistinct(p + f + n, i);
    AppendDistinct(p + f + n + i, d);
    AppendDistinct(p + f + n + i + d, w);
  }

  lemma AllKeysAre(ops: TextOps, evidence: seq<Evidence>, key: RuleKey)
    ensures key in AllKeys(ops, evidence) <==> exists rule :: Triggers(ops, evidence, rule, key)
  {
    hide RuleKeys, Triggers;
    forall rule ensures key in RuleKeys(ops, evidence, rule) <==> Triggers(ops, evidence, rule, key) {
      RuleKeysAre(ops, evidence, rule, key);
    }
    if exists rule :: Triggers(ops, evidence, rule, key) {
      var rule :| Triggers(ops, evidence, rule, key);
      assert key in RuleKeys(ops, evidence, rule);
      match rule {
        case RuleProcess =>
        case RuleFile =>
        case RuleNetwork =>
        case RuleIndicator =>
        case RuleFlow =>
        case RuleWrite =>
      }
    } else if key in AllKeys(ops, evidence) {
      assert exists rule :: key in RuleKeys(ops, evidence, rule);
    }
  }

  function DraftKeys(drafts: seq<Draft>): seq<RuleKey> {
    seq(|drafts|, k requires 0 <= k < |drafts| => drafts[k].key)
  }

  lemma {:induction false} CollectedAre(ops: TextOps, evidence: seq<Evidence>, keys: seq<RuleKey>, draft: Draft)
    ensures draft in Collect(ops, evidence, keys)
            <==> draft.key in keys && DraftFor(ops, evidence, draft.key) == Some(draft)
  {
    hide DraftFor;
    if keys != [] {
      var before, last := keys[..|keys| - 1], keys[|keys| - 1];
      CollectedAre(ops, evidence, before, draft);
      assert keys == before + [last];
      if DraftFor(ops, evidence, last).Some? {
        DraftKnown(ops, evidence, last);
      }
    }
  }

  /** A draft in the list is the one its rule makes for its key. */
  lemma DraftIsMade(ops: TextOps, evidence: seq<Evidence>, d: Draft)
    requires d in Drafts(ops, evidence)
    ensures DraftFor(ops, evidence, d.key) == Some(d)
  {
    hide AllKeys, DraftFor;
    CollectedAre(ops, evidence, AllKeys(ops, evidence), d);
  }

  lemma DraftTriggered(ops: TextOps, evidence: seq<Evidence>, d: Draft) returns (rule: Rule)
    requires d in Drafts(ops, evidence)
    ensures Triggers(ops, evidence, rule, d.key)
  {
    hide AllKeys, DraftFor, Triggers;
    CollectedAre(ops, evidence, AllKeys(ops, evidence), d);
    AllKeysAre(ops, evidence, d.key);
    rule :| Triggers(ops, evidence, rule, d.key);
  }

  lemma {:induction false} CollectedDistinct(ops: TextOps, evidence: seq<Evidence>, keys: seq<RuleKey>)
    requires Distinct(keys)
    ensures Distinct(DraftKeys(Collect(ops, evidence, keys)))
  {
    hide DraftFor;
    if keys != [] {
      var before, last := keys[..|keys| - 1], keys[|keys| - 1];
      CollectedDistinct(ops, evidence, before);
      if DraftFor(ops, evidence, last).Some? {
        DraftKnown(ops, evidence, last);
        var inner := Collect(ops, evidence, before);
        forall j | 0 <= j < |inner| ensures inner[j].key != last {
          CollectedAre(ops, evidence, before, inner[j]);
        }
        assert DraftKeys(Collect(ops, evidence, keys)) == DraftKeys(inner) + [last];
      } else {
        assert Collect(ops, evidence, keys) == Collect(ops, evidence, before);
      }
    }
  }

  // ----- every draft becomes a finding ------------------------------------------------------

  lemma DraftCitesEvidence(ops: TextOps, evidence: seq<Evidence>, rule: Rule, key: RuleKey)
    requires Triggers(ops, evidence, rule, key) && DraftFor(ops, evidence, key).Some?
    ensures DraftFor(ops, evidence, key).value.evidenceIds != []
  {
    hide Select, Matches, Hits, AnyMarker, NonEmpty, TextOps.Normalize, TextOps.Stripped, ByInterpreter, LineHas,
         FromTempFolder;
    hide Occurrences, DistinctRecordIds, ItemById;
    if rule.RuleProcess? {
      GroupIsPopulated(ops, evidence, rule, key);
    } else if rule.RuleNetwork? {
      GroupIsPopulated(ops, evidence, rule, key);
    }
  }

  lemma GroupIsPopulated(ops: TextOps, evidence: seq<Evidence>, rule: Rule, key: RuleKey)
    requires Triggers(ops, evidence, rule, key) && ByGroup(rule)
    ensures Select(ops, evidence, InGroup(GroupingOf(rule), key.group)) != []
  {
    hide Grouped, GroupKey;
    var g := GroupingOf(rule);
    var e :| e in evidence && Grouped(ops, g, e) && key == KeyFromGroup(rule, GroupKey(ops, g, e));
    Selected(ops, evidence, InGroup(g, key.group), e);
  }

  lemma {:induction false} ExistingIdsAre(evidence: seq<Evidence>, ids: seq<string>)
    requires AllKnown(evidence, ids)
    ensures Distinct(ExistingIds(evidence, ids))
    ensures forall id :: id in ExistingIds(evidence, ids) <==> id in ids
  {
    hide ItemById;
    if ids != [] {
      var before, last := ids[..|ids| - 1], ids[|ids| - 1];
      assert ids == before + [last];
      ExistingIdsAre(evidence, before);
    }
  }

  ghost predicate Grounded(evidence: seq<Evidence>, drafts: seq<Draft>) {
    forall d :: d in drafts ==> d.evidenceIds != [] && AllKnown(evidence, d.evidenceIds)
  }

  lemma {:induction false} NothingPassedOver(evidence: seq<Evidence>, drafts: seq<Draft>)
    requires Grounded(evidence, drafts)
    ensures |FindingsFrom(evidence, drafts)| == |drafts|
    ensures forall k :: 0 <= k < |drafts| ==>
              FindingsFrom(evidence, drafts)[k]
              == FindingFrom(k + 1, drafts[k], ExistingIds(evidence, drafts[k].evidenceIds))
  {
    hide ExistingIds, FindingFrom, AllKnown;
    if drafts != [] {
      var before, last := drafts[..|drafts| - 1], drafts[|drafts| - 1];
      NothingPassedOver(evidence, before);
      assert last in drafts;
      ExistingIdsAre(evidence, last.evidenceIds);
      assert last.evidenceIds[0] in ExistingIds(evidence, last.evidenceIds);
    }
  }

  lemma DraftsGrounded(ops: TextOps, evidence: seq<Evidence>)
    ensures Grounded(evidence, Drafts(ops, evidence))
  {
    hide DraftFor, AllKeys, Triggers, AllKnown;
    forall d | d in Drafts(ops, evidence) ensures d.evidenceIds != [] && AllKnown(evidence, d.evidenceIds) {
      CollectedAre(ops, evidence, AllKeys(ops, evidence), d);
      var rule := DraftTriggered(ops, evidence, d);
      DraftCitesEvidence(ops, evidence, rule, d.key);
      DraftKnown(ops, evidence, d.key);
    }
  }

  /** Every draft becomes a finding, at its own position: its evidence exists, is non-empty and listed once,
      and is what the draft cites. Finding ids and rule keys are distinct, so both validators hold. */
  lemma FindingsAreGrounded(ops: TextOps, evidence: seq<Evidence>)
    requires UniqueIds(evidence)
    ensures var drafts, findings := Drafts(ops, evidence), FindingsOf(ops, evidence);
            && |findings| == |drafts|
            && Distinct(DraftKeys(drafts))
            && (forall j, k :: 0 <= j < k < |findings| ==> findings[j].findingId != findings[k].findingId)
            && forall k :: 0 <= k < |findings| ==>
                 && findings[k].findingId == Ids.FormatId(FINDING_PREFIX, k + 1)
                 && findings[k].draft == drafts[k]
                 && findings[k].Valid()
                 && AllKnown(evidence, findings[k].evidenceIds)
                 && (forall id :: id in findings[k].evidenceIds <==> id in drafts[k].evidenceIds)
  {
    hide DraftFor, AllKeys, AllKnown, ExistingIds, Ids.FormatId, Unique, FindingsFrom;
    var drafts, findings := Drafts(ops, evidence), FindingsOf(ops, evidence);
    DraftsGrounded(ops, evidence);
    NothingPassedOver(evidence, drafts);
    AllKeysDistinct(ops, evidence);
    CollectedDistinct(ops, evidence, AllKeys(ops, evidence));
    forall k | 0 <= k < |findings|
      ensures findings[k].Valid() && AllKnown(evidence, findings[k].evidenceIds)
              && (forall id :: id in findings[k].evidenceIds <==> id in drafts[k].evidenceIds)
    {
      FindingFaithful(evidence, drafts, k);
    }
    forall j, k | 0 <= j < k < |findings| ensures findings[j].findingId != findings[k].findingId {
      if Ids.FormatId(FINDING_PREFIX, j + 1) == Ids.FormatId(FINDING_PREFIX, k + 1) {
        Ids.FormatIdInjective(FINDING_PREFIX, j + 1, k + 1);
      }
    }
  }

  lemma FindingFaithful(evidence: seq<Evidence>, drafts: seq<Draft>, k: nat)
    requires Grounded(evidence, drafts) && k < |drafts|
    ensures var ids := ExistingIds(evidence, drafts[k].evidenceIds);
            && ids != [] && Distinct(ids) && AllKnown(evidence, ids)
            && forall id :: id in ids <==> id in drafts[k].evidenceIds
  {
    hide ExistingIds, ItemById;
    assert drafts[k] in drafts;
    ExistingIdsAre(evidence, drafts[k].evidenceIds);
    assert drafts[k].evidenceIds[0] in ExistingIds(evidence, drafts[k].evidenceIds);
  }

  // ----- malicious indicators are matched or skipped ------------------------------------------

  lemma {:induction false} SkippedAre(ops: TextOps, evidence: seq<Evidence>, items: seq<Evidence>, indicator: string)
    ensures indicator in SkippedIndicators(ops, evidence, items)
            <==> Occurrences(ops, evidence, indicator) == []
                 && exists e :: e in items && Grouped(ops, MaliciousIndicators, e)
                                && ops.Stripped(e.content, Indicator) == indicator
  {
    hide Grouped, Occurrences, TextOps.Stripped;
    if items != [] {
      var before, last := items[..|items| - 1], items[|items| - 1];
      assert items == before + [last];
      SkippedAre(ops, evidence, before, indicator);
      if indicator in SkippedIndicators(ops, evidence, before) {
        var e :| e in before && Grouped(ops, MaliciousIndicators, e) && ops.Stripped(e.content, Indicator) == indicator;
        assert e in items;
      } else if Grouped(ops, MaliciousIndicators, last) && ops.Stripped(last.content, Indicator) == indicator {
        assert last in items;
      }
    }
  }

  /** A malicious indicator that normalises stably either yields a finding or is reported as skipped,
      never both: a knowledge-only indicator produces no finding. */
  lemma MatchedXorSkipped(ops: TextOps, evidence: seq<Evidence>, e: Evidence)
    requires e in evidence && Grouped(ops, MaliciousIndicators, e)
    requires var target := ops.Normalize(ops.Stripped(e.content, Indicator)); ops.Normalize(target) == target
    ensures var indicator := ops.Stripped(e.content, Indicator);
            (exists d :: d in Drafts(ops, evidence) && d.key == IndicatorKey([ops.Normalize(indicator)]))
            <==> indicator !in SkippedIndicators(ops, evidence, Select(ops, evidence, OfType(IocReputation)))
  {
    hide Select, TextOps.Stripped, TextOps.Normalize, AllKeys;
    var indicator := ops.Stripped(e.content, Indicator);
    var group := [ops.Normalize(indicator)];
    var items := Select(ops, evidence, OfType(IocReputation));
    Selected(ops, evidence, OfType(IocReputation), e);
    SkippedAre(ops, evidence, items, indicator);
    assert Occurrences(ops, evidence, indicator) == Occurrences(ops, evidence, group[0]);
    assert Triggers(ops, evidence, RuleIndicator, IndicatorKey(group));
    AllKeysAre(ops, evidence, IndicatorKey(group));
    var draft := DraftFor(ops, evidence, IndicatorKey(group));
    assert draft.Some? <==> Occurrences(ops, evidence, indicator) != [];
    if draft.Some? {
      DraftKnown(ops, evidence, IndicatorKey(group));
      CollectedAre(ops, evidence, AllKeys(ops, evidence), draft.value);
    } else {
      forall d | d in Drafts(ops, evidence) ensures d.key != IndicatorKey(group) {
        CollectedAre(ops, evidence, AllKeys(ops, evidence), d);
      }
    }
  }
}
