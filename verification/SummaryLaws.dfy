/** What every summary satisfies: its observations and its unlinked list partition the evidence
    (app/reporting/summary.py). */
module SummaryLaws {
  import opened Contracts
  import opened EvidenceContracts
  import opened Extractor
  import opened InformationGaps
  import opened Noninterference
  import opened Ordering
  import opened Queries
  import opened Summaries
  import opened TextOps

  // ----- the partition ---------------------------------------------------------------------------

  /** The section an item belongs to; none for unlinked knowledge. */
  function SectionOf(e: Evidence): Option<Grouping> {
    if TAG_UNLINKED in e.tags then None
    else match e.evidenceType
      case ProcessExecution => Some(ProcessActivity)
      case NetworkConnection => Some(NetworkFlows)
      case DnsQuery => Some(DnsQueries)
      case FileActivity => Some(if ClassOf(e) == FILE_CLASS then FileArtifacts else FileEvents)
      case Authentication => Some(Authentications)
      case IocReputation => Some(Reputations)
      case ThreatIntelligence => Some(CtiReferences)
      case AttackKnowledge => Some(AttackReferences)
      case OtherActivity => Some(EndpointOther)
  }

  predicate Listed(g: Grouping) {
    g in SECTIONS
  }

  lemma SectionTakes(ops: TextOps, g: Grouping, e: Evidence)
    requires Shaped(e) && Listed(g)
    ensures Grouped(ops, g, e) <==> SectionOf(e) == Some(g)
  {
    ClassesDiffer();
  }

  lemma SectionsDiffer()
    ensures Distinct(SECTIONS)
  {
  }

  lemma EverySectionListed(e: Evidence)
    ensures SectionOf(e).Some? ==> SectionOf(e).value in SECTIONS
  {
    assert SECTIONS[0] == ProcessActivity && SECTIONS[1] == EndpointOther && SECTIONS[2] == NetworkFlows
           && SECTIONS[3] == DnsQueries && SECTIONS[4] == FileArtifacts && SECTIONS[5] == FileEvents
           && SECTIONS[6] == Authentications && SECTIONS[7] == Reputations && SECTIONS[8] == CtiReferences
           && SECTIONS[9] == AttackReferences;
  }

  function ObservedIds(observations: seq<Observation>): seq<string> {
    if observations == [] then []
    else ObservedIds(observations[..|observations| - 1]) + observations[|observations| - 1].evidenceIds
  }

  lemma {:induction false} ObservedAppend(a: seq<Observation>, b: seq<Observation>)
    ensures ObservedIds(a + b) == ObservedIds(a) + ObservedIds(b)
  {
    if b == [] {
      assert a + b == a;
    } else {
      var front, last := b[..|b| - 1], b[|b| - 1];
      ObservedAppend(a, front);
      ObservedNext(a + front, last);
      ObservedNext(front, last);
      hide ObservedIds;
      assert b == front + [last];
      Reassociate(a, front, [last]);
      Reassociate(ObservedIds(a), ObservedIds(front), last.evidenceIds);
    }
  }

  lemma Reassociate<T>(a: seq<T>, b: seq<T>, c: seq<T>)
    ensures a + (b + c) == a + b + c
  {
  }

  lemma ObservedNext(observations: seq<Observation>, o: Observation)
    ensures ObservedIds(observations + [o]) == ObservedIds(observations) + o.evidenceIds
  {
    assert (observations + [o])[..|observations|] == observations;
  }

  /** The ids in the groups of some keys. */
  ghost function KeyedIds(ops: TextOps, g: Grouping, evidence: seq<Evidence>, keys: seq<seq<string>>): multiset<string>
  {
    if keys == [] then multiset{}
    else
      KeyedIds(ops, g, evidence, keys[..|keys| - 1])
      + multiset(EvidenceIds(Select(ops, evidence, InGroup(g, keys[|keys| - 1]))))
  }

  /** The ids of the items of some sections. */
  ghost function SectionIds(evidence: seq<Evidence>, sections: seq<Grouping>): multiset<string> {
    if evidence == [] then multiset{}
    else
      var last := evidence[|evidence| - 1];
      SectionIds(evidence[..|evidence| - 1], sections)
      + if SectionOf(last).Some? && SectionOf(last).value in sections then multiset{last.evidenceId} else multiset{}
  }

  function OneId(e: Evidence, taken: bool): multiset<string> {
    if taken then multiset{e.evidenceId} else multiset{}
  }

  lemma SelectedIdsNext(ops: TextOps, evidence: seq<Evidence>, q: Query)
    requires evidence != []
    ensures var last := evidence[|evidence| - 1];
            multiset(EvidenceIds(Select(ops, evidence, q)))
            == multiset(EvidenceIds(Select(ops, evidence[..|evidence| - 1], q))) + OneId(last, Matches(ops, q, last))
  {
    hide Matches;
    var last, inner := evidence[|evidence| - 1], Select(ops, evidence[..|evidence| - 1], q);
    if Matches(ops, q, last) {
      assert EvidenceIds(inner + [last]) == EvidenceIds(inner) + [last.evidenceId];
    } else {
      assert Select(ops, evidence, q) == inner;
    }
  }

  lemma {:induction false} KeyedIdsNext(ops: TextOps, g: Grouping, evidence: seq<Evidence>, keys: seq<seq<string>>)
    requires evidence != [] && Distinct(keys)
    ensures var last := evidence[|evidence| - 1];
            KeyedIds(ops, g, evidence, keys)
            == KeyedIds(ops, g, evidence[..|evidence| - 1], keys)
               + OneId(last, Grouped(ops, g, last) && GroupKey(ops, g, last) in keys)
  {
    hide Grouped, GroupKey, Select, EvidenceIds;
    if keys != [] {
      var before, key := keys[..|keys| - 1], keys[|keys| - 1];
      KeyedIdsNext(ops, g, evidence, before);
      SelectedIdsNext(ops, evidence, InGroup(g, key));
      assert keys == before + [key];
      assert key !in before;
    }
  }

  ghost predicate SectionDecided(ops: TextOps, g: Grouping, e: Evidence) {
    Grouped(ops, g, e) <==> SectionOf(e) == Some(g)
  }

  lemma {:induction false} KeyedIdsAll(ops: TextOps, g: Grouping, evidence: seq<Evidence>, keys: seq<seq<string>>)
    requires Distinct(keys) && forall e :: e in evidence ==> SectionDecided(ops, g, e)
    requires forall e :: e in evidence && Grouped(ops, g, e) ==> GroupKey(ops, g, e) in keys
    ensures KeyedIds(ops, g, evidence, keys) == SectionIds(evidence, [g])
  {
    hide Grouped, GroupKey, SectionOf, KeyedIds;
    if evidence == [] {
      NoKeyedIds(ops, g, keys);
    } else {
      var front, last := evidence[..|evidence| - 1], evidence[|evidence| - 1];
      forall e | e in front ensures e in evidence {
      }
      KeyedIdsAll(ops, g, front, keys);
      KeyedIdsNext(ops, g, evidence, keys);
      assert last in evidence && SectionDecided(ops, g, last);
      assert SectionIds(evidence, [g]) == SectionIds(front, [g]) + OneId(last, SectionOf(last) == Some(g));
    }
  }

  lemma {:induction false} NoKeyedIds(ops: TextOps, g: Grouping, keys: seq<seq<string>>)
    ensures KeyedIds(ops, g, [], keys) == multiset{}
  {
    if keys != [] { NoKeyedIds(ops, g, keys[..|keys| - 1]); }
  }

  lemma {:induction false} GroupsIds(ops: TextOps, g: Grouping, evidence: seq<Evidence>, keys: seq<seq<string>>, n: nat)
    requires n <= |GroupKeys(ops, g, evidence)| && keys == GroupKeys(ops, g, evidence)[..n]
    ensures multiset(ObservedIds(ObservationsFrom(g, Groups(ops, g, evidence)[..n])))
            == KeyedIds(ops, g, evidence, keys)
  {
    hide Select, GroupKeys, ObservedIds, EvidenceIds;
    if n == 0 {
      NothingGrouped(g, Groups(ops, g, evidence));
    } else {
      var groups := Groups(ops, g, evidence);
      var key := GroupKeys(ops, g, evidence)[n - 1];
      assert keys[..n - 1] == GroupKeys(ops, g, evidence)[..n - 1] && keys[n - 1] == key;
      GroupsIds(ops, g, evidence, keys[..n - 1], n - 1);
      var o := Observation(CategoryOf(g), EvidenceIds(Select(ops, evidence, InGroup(g, key))));
      assert ObservationsFrom(g, groups[..n]) == ObservationsFrom(g, groups[..n - 1]) + [o];
      ObservedNext(ObservationsFrom(g, groups[..n - 1]), o);
    }
  }

  lemma NothingGrouped(g: Grouping, groups: seq<Group>)
    ensures ObservedIds(ObservationsFrom(g, groups[..0])) == []
  {
  }

  /** One section lists exactly the ids of its items. */
  lemma SectionListed(ops: TextOps, g: Grouping, evidence: seq<Evidence>)
    requires Proper(evidence) && Listed(g)
    ensures multiset(ObservedIds(ObservationsFrom(g, Groups(ops, g, evidence)))) == SectionIds(evidence, [g])
  {
    hide Shaped, Select, GroupKeys, SectionIds, KeyedIds, ObservedIds, Listed;
    var keys, groups := GroupKeys(ops, g, evidence), Groups(ops, g, evidence);
    GroupKeysAre(ops, g, evidence);
    forall e | e in evidence && Grouped(ops, g, e) ensures GroupKey(ops, g, e) in keys {
      assert Matches(ops, InGroup(g, GroupKey(ops, g, e)), e);
    }
    forall e | e in evidence ensures SectionDecided(ops, g, e) {
      SectionTakes(ops, g, e);
    }
    KeyedIdsAll(ops, g, evidence, keys);
    assert keys[..|keys|] == keys && groups[..|keys|] == groups;
    GroupsIds(ops, g, evidence, keys, |keys|);
  }

  lemma {:induction false} SectionIdsAppend(evidence: seq<Evidence>, sections: seq<Grouping>, g: Grouping)
    requires g !in sections
    ensures SectionIds(evidence, sections + [g]) == SectionIds(evidence, sections) + SectionIds(evidence, [g])
  {
    hide SectionOf;
    if evidence != [] {
      SectionIdsAppend(evidence[..|evidence| - 1], sections, g);
    }
  }

  lemma {:induction false} NoSectionIds(evidence: seq<Evidence>)
    ensures SectionIds(evidence, []) == multiset{}
  {
    if evidence != [] { NoSectionIds(evidence[..|evidence| - 1]); }
  }

  lemma NothingObservedYet(ops: TextOps, evidence: seq<Evidence>)
    ensures ObservedIds(ObservationsOf(ops, evidence, [])) == []
  {
  }

  lemma ObservationsNext(ops: TextOps, evidence: seq<Evidence>, before: seq<Grouping>, g: Grouping)
    ensures multiset(ObservedIds(ObservationsOf(ops, evidence, before + [g])))
            == multiset(ObservedIds(ObservationsOf(ops, evidence, before)))
               + multiset(ObservedIds(ObservationsFrom(g, Groups(ops, g, evidence))))
  {
    hide Groups, ObservationsFrom;
    var sections := before + [g];
    assert sections[..|sections| - 1] == before;
    ObservedAppend(ObservationsOf(ops, evidence, before), ObservationsFrom(g, Groups(ops, g, evidence)));
  }

  lemma {:induction false} SectionsListed(ops: TextOps, evidence: seq<Evidence>, sections: seq<Grouping>)
    requires Proper(evidence) && Distinct(sections) && forall g :: g in sections ==> Listed(g)
    ensures multiset(ObservedIds(ObservationsOf(ops, evidence, sections))) == SectionIds(evidence, sections)
  {
    hide Proper, Groups, ObservationsFrom, ObservationsOf, SectionIds, Listed, ObservedIds;
    if sections == [] {
      NothingObservedYet(ops, evidence);
      NoSectionIds(evidence);
    } else {
      var g, before := sections[|sections| - 1], sections[..|sections| - 1];
      assert g in sections && g !in before;
      assert sections == before + [g];
      SectionsListed(ops, evidence, before);
      SectionListed(ops, g, evidence);
      ObservationsNext(ops, evidence, before, g);
      SectionIdsAppend(evidence, before, g);
    }
  }

  lemma SectionIdsNext(evidence: seq<Evidence>, sections: seq<Grouping>)
    requires evidence != []
    requires var last := evidence[|evidence| - 1]; SectionOf(last).Some? ==> SectionOf(last).value in sections
    ensures var last := evidence[|evidence| - 1];
            SectionIds(evidence, sections)
              == SectionIds(evidence[..|evidence| - 1], sections) + OneId(last, SectionOf(last).Some?)
  {
    hide SectionOf;
  }

  lemma EvidenceIdsNext(evidence: seq<Evidence>)
    requires evidence != []
    ensures multiset(EvidenceIds(evidence))
            == multiset(EvidenceIds(evidence[..|evidence| - 1])) + OneId(evidence[|evidence| - 1], true)
  {
    assert EvidenceIds(evidence) == EvidenceIds(evidence[..|evidence| - 1]) + [evidence[|evidence| - 1].evidenceId];
  }

  lemma {:induction false} EveryItemPlaced(ops: TextOps, evidence: seq<Evidence>)
    ensures SectionIds(evidence, SECTIONS) + multiset(EvidenceIds(Select(ops, evidence, UnlinkedKnowledge)))
            == multiset(EvidenceIds(evidence))
  {
    if evidence == [] {
    } else {
      hide Select, SectionIds, EvidenceIds;
      var front, last := evidence[..|evidence| - 1], evidence[|evidence| - 1];
      EveryItemPlaced(ops, front);
      EverySectionListed(last);
      SectionIdsNext(evidence, SECTIONS);
      EvidenceIdsNext(evidence);
      assert SectionOf(last).None? <==> TAG_UNLINKED in last.tags;
      SelectedIdsNext(ops, evidence, UnlinkedKnowledge);
      assert Matches(ops, UnlinkedKnowledge, last) <==> TAG_UNLINKED in last.tags;
    }
  }

  /** The observations together with the unlinked list contain every extracted id exactly once. */
  lemma SummaryPartitionsEvidence(ops: TextOps, run: RunRecord, evidence: seq<Evidence>)
    requires Proper(evidence)
    ensures var summary := SummaryOf(ops, run, evidence);
            multiset(ObservedIds(summary.observations)) + multiset(summary.unlinked) == multiset(summary.evidenceIds)
    ensures forall e :: e in evidence ==> multiset(SummaryOf(ops, run, evidence).evidenceIds)[e.evidenceId] == 1
  {
    hide Shaped, Select, ObservationsOf, SectionIds, ObservedIds, SectionOf, GapsOf, TypeCounts;
    SectionsDiffer();
    forall g | g in SECTIONS ensures Listed(g) {
    }
    SectionsListed(ops, evidence, SECTIONS);
    EveryItemPlaced(ops, evidence);
    DistinctCounts(EvidenceIds(evidence));
    forall e | e in evidence ensures multiset(EvidenceIds(evidence))[e.evidenceId] == 1 {
      var k :| 0 <= k < |evidence| && evidence[k] == e;
      assert EvidenceIds(evidence)[k] == e.evidenceId;
      assert e.evidenceId in multiset(EvidenceIds(evidence));
    }
  }

  // ----- what is observed together -----------------------------------------------------------------

  lemma {:induction false} ObservationsAre(ops: TextOps, evidence: seq<Evidence>, sections: seq<Grouping>,
                                           o: Observation)
    ensures o in ObservationsOf(ops, evidence, sections)
            <==> exists g :: g in sections && o in ObservationsFrom(g, Groups(ops, g, evidence))
  {
    hide ObservationsFrom, Groups;
    if sections != [] {
      var before, last := sections[..|sections| - 1], sections[|sections| - 1];
      assert sections == before + [last];
      ObservationsAre(ops, evidence, before, o);
      assert last in sections;
    }
  }

  /** The group an observation lists. */
  ghost predicate ListsGroup(ops: TextOps, evidence: seq<Evidence>, g: Grouping, key: seq<string>, o: Observation) {
    o == Observation(CategoryOf(g), EvidenceIds(Select(ops, evidence, InGroup(g, key))))
  }

  lemma SectionObservationsAre(ops: TextOps, evidence: seq<Evidence>, g: Grouping, o: Observation)
    ensures o in ObservationsFrom(g, Groups(ops, g, evidence))
            <==> exists key :: key in GroupKeys(ops, g, evidence) && ListsGroup(ops, evidence, g, key, o)
  {
    hide Select, GroupKeys, EvidenceIds;
    var keys, all := GroupKeys(ops, g, evidence), ObservationsFrom(g, Groups(ops, g, evidence));
    if o in all {
      var k :| 0 <= k < |all| && all[k] == o;
      assert keys[k] in keys && ListsGroup(ops, evidence, g, keys[k], o);
    }
    if key :| key in keys && ListsGroup(ops, evidence, g, key, o) {
      var k :| 0 <= k < |keys| && keys[k] == key;
      assert all[k] == o;
    }
  }

  lemma GroupIds(ops: TextOps, evidence: seq<Evidence>, g: Grouping, key: seq<string>, e: Evidence)
    requires UniqueIds(evidence) && e in evidence
    ensures e.evidenceId in EvidenceIds(Select(ops, evidence, InGroup(g, key)))
            <==> Grouped(ops, g, e) && GroupKey(ops, g, e) == key
  {
    hide Select, Grouped, GroupKey;
    var items := Select(ops, evidence, InGroup(g, key));
    Selected(ops, evidence, InGroup(g, key), e);
    if e in items {
      var k :| 0 <= k < |items| && items[k] == e;
      assert EvidenceIds(items)[k] == e.evidenceId;
    }
    if e.evidenceId in EvidenceIds(items) {
      var k :| 0 <= k < |items| && EvidenceIds(items)[k] == e.evidenceId;
      Selected(ops, evidence, InGroup(g, key), items[k]);
      var i :| 0 <= i < |evidence| && evidence[i] == e;
      var j :| 0 <= j < |evidence| && evidence[j] == items[k];
    }
  }

  /** The facts that the items of one observation share, section by section. */
  predicate SameFacts(ops: TextOps, g: Grouping, e: Evidence, f: Evidence) {
    var a, b := e.content, f.content;
    match g
    case ProcessActivity => SameTexts(a, b, {Host, ProcessName, ParentProcessName})
    case EndpointOther => SameTexts(a, b, {Host, EventType})
    case NetworkFlows => SameTexts(a, b, {DstIp, Protocol, Direction}) && PortText(ops, a) == PortText(ops, b)
    case DnsQueries => SameTexts(a, b, {Field.Query, QueryType})
    case FileArtifacts => SameTexts(a, b, {Host, FileName})
    case FileEvents => SameTexts(a, b, {Host, EventType, FilePath})
    case Authentications => SameTexts(a, b, {Host, User, EventType})
    case Reputations => SameTexts(a, b, {Indicator, Reputation, Source})
    case CtiReferences => ReportName(a) == ReportName(b)
    case AttackReferences => SameTexts(a, b, {TechniqueId})
    case _ => false
  }

  predicate SameTexts(a: Content, b: Content, fields: set<Field>) {
    forall field :: field in fields ==> TextAt(a, field) == TextAt(b, field)
  }

  function PortText(ops: TextOps, c: Content): string {
    if DstPort in c then ops.render(c[DstPort]) else ""
  }

  function ReportName(c: Content): string {
    if TextAt(c, CtiId) == "" then TextAt(c, RecordId) else TextAt(c, CtiId)
  }

  lemma SameKeyIff(ops: TextOps, g: Grouping, e: Evidence, f: Evidence)
    requires Listed(g)
    ensures GroupKey(ops, g, e) == GroupKey(ops, g, f) <==> SameFacts(ops, g, e, f)
  {
    hide TextAt;
  }

  /** Two items are listed in one observation. */
  ghost predicate ObservedTogether(ops: TextOps, evidence: seq<Evidence>, e: Evidence, f: Evidence) {
    exists o :: o in ObservationsOf(ops, evidence, SECTIONS)
                && e.evidenceId in o.evidenceIds && f.evidenceId in o.evidenceIds
  }

  /** Two items stand in one observation exactly when they belong to the same section and share its facts. */
  lemma ObservedTogetherIff(ops: TextOps, evidence: seq<Evidence>, e: Evidence, f: Evidence)
    requires Proper(evidence) && e in evidence && f in evidence
    ensures ObservedTogether(ops, evidence, e, f)
            <==> SectionOf(e).Some? && SectionOf(e) == SectionOf(f) && SameFacts(ops, SectionOf(e).value, e, f)
  {
    hide Shaped, ObservationsOf, ObservationsFrom, Groups, GroupKeys, Select, SectionOf, Grouped, GroupKey, SameFacts,
         Listed;
    if o :| o in ObservationsOf(ops, evidence, SECTIONS)
            && e.evidenceId in o.evidenceIds && f.evidenceId in o.evidenceIds {
      var g, key := ListedGroup(ops, evidence, o);
      InSection(ops, evidence, g, key, e);
      InSection(ops, evidence, g, key, f);
      SameKeyIff(ops, g, e, f);
    }
    if SectionOf(e).Some? && SectionOf(e) == SectionOf(f) && SameFacts(ops, SectionOf(e).value, e, f) {
      var g := SectionOf(e).value;
      EverySectionListed(e);
      SectionIsListed(g);
      var key := GroupKey(ops, g, e);
      SameKeyIff(ops, g, e, f);
      InSection(ops, evidence, g, key, e);
      InSection(ops, evidence, g, key, f);
      var o := GroupIsObserved(ops, evidence, g, e);
    }
  }

  lemma SectionIsListed(g: Grouping)
    requires g in SECTIONS
    ensures Listed(g)
  {
  }

  lemma ListedGroup(ops: TextOps, evidence: seq<Evidence>, o: Observation) returns (g: Grouping, key: seq<string>)
    requires o in ObservationsOf(ops, evidence, SECTIONS)
    ensures Listed(g) && ListsGroup(ops, evidence, g, key, o)
  {
    hide ObservationsOf, ObservationsFrom, Groups, GroupKeys, ListsGroup;
    ObservationsAre(ops, evidence, SECTIONS, o);
    g :| g in SECTIONS && o in ObservationsFrom(g, Groups(ops, g, evidence));
    SectionObservationsAre(ops, evidence, g, o);
    key :| key in GroupKeys(ops, g, evidence) && ListsGroup(ops, evidence, g, key, o);
  }

  lemma InSection(ops: TextOps, evidence: seq<Evidence>, g: Grouping, key: seq<string>, e: Evidence)
    requires Proper(evidence) && e in evidence && Listed(g)
    ensures e.evidenceId in EvidenceIds(Select(ops, evidence, InGroup(g, key)))
            <==> SectionOf(e) == Some(g) && GroupKey(ops, g, e) == key
  {
    hide Shaped, Select, SectionOf, Grouped, GroupKey, Listed, EvidenceIds;
    GroupIds(ops, evidence, g, key, e);
    SectionTakes(ops, g, e);
  }

  lemma GroupIsObserved(ops: TextOps, evidence: seq<Evidence>, g: Grouping, e: Evidence) returns (o: Observation)
    requires Proper(evidence) && e in evidence && Listed(g) && SectionOf(e) == Some(g)
    ensures o in ObservationsOf(ops, evidence, SECTIONS) && ListsGroup(ops, evidence, g, GroupKey(ops, g, e), o)
  {
    hide Shaped, Select, SectionOf, Grouped, GroupKey, EvidenceIds, ObservationsOf, ObservationsFrom, Groups, GroupKeys;
    var key := GroupKey(ops, g, e);
    SectionTakes(ops, g, e);
    assert Matches(ops, InGroup(g, key), e);
    GroupKeysAre(ops, g, evidence);
    o := Observation(CategoryOf(g), EvidenceIds(Select(ops, evidence, InGroup(g, key))));
    assert ListsGroup(ops, evidence, g, key, o);
    SectionObservationsAre(ops, evidence, g, o);
    ObservationsAre(ops, evidence, SECTIONS, o);
  }

  /** The category of an observation is that of the items it lists: reputations, reports and techniques are knowledge,
      everything else is activity. */
  lemma CategoriesMean(ops: TextOps, evidence: seq<Evidence>, o: Observation, e: Evidence)
    requires Proper(evidence) && e in evidence
    requires o in ObservationsOf(ops, evidence, SECTIONS) && e.evidenceId in o.evidenceIds
    ensures o.category.ReputationIntelligence? <==> e.evidenceType.IocReputation?
    ensures o.category.CtiKnowledgeReference? <==> e.evidenceType.ThreatIntelligence?
    ensures o.category.AttackKnowledgeReference? <==> e.evidenceType.AttackKnowledge?
  {
    hide Shaped, ObservationsOf, Select, Grouped, GroupKey, Listed, EvidenceIds;
    var g, key := ListedGroup(ops, evidence, o);
    InSection(ops, evidence, g, key, e);
  }

  // ----- the counts ------------------------------------------------------------------------------

  const TYPES: seq<EvidenceType> :=
    [ProcessExecution, NetworkConnection, DnsQuery, FileActivity, Authentication, IocReputation, ThreatIntelligence,
     AttackKnowledge, OtherActivity]

  function TotalOf(counts: map<EvidenceType, nat>, types: seq<EvidenceType>): nat {
    if types == [] then 0
    else
      var last := types[|types| - 1];
      TotalOf(counts, types[..|types| - 1]) + if last in counts then counts[last] else 0
  }

  lemma {:induction false} CountIsSelected(ops: TextOps, evidence: seq<Evidence>, t: EvidenceType)
    ensures CountOf(evidence, t) == |Select(ops, evidence, OfType(t))|
  {
    if evidence != [] { CountIsSelected(ops, evidence[..|evidence| - 1], t); }
  }

  /** The number of items of some types. */
  function CountAll(evidence: seq<Evidence>, types: seq<EvidenceType>): nat {
    if types == [] then 0 else CountAll(evidence, types[..|types| - 1]) + CountOf(evidence, types[|types| - 1])
  }

  lemma {:induction false} TotalIsSum(evidence: seq<Evidence>, types: seq<EvidenceType>)
    ensures TotalOf(TypeCounts(evidence), types) == CountAll(evidence, types)
  {
    if types != [] { TotalIsSum(evidence, types[..|types| - 1]); }
  }

  lemma {:induction false} NothingCounted(types: seq<EvidenceType>)
    ensures CountAll([], types) == 0
  {
    if types != [] { NothingCounted(types[..|types| - 1]); }
  }

  lemma {:induction false} CountsNext(evidence: seq<Evidence>, types: seq<EvidenceType>)
    requires evidence != [] && Distinct(types)
    ensures CountAll(evidence, types)
            == CountAll(evidence[..|evidence| - 1], types)
              + if evidence[|evidence| - 1].evidenceType in types then 1 else 0
  {
    if types != [] {
      var before, t := types[..|types| - 1], types[|types| - 1];
      CountsNext(evidence, before);
      assert types == before + [t] && t !in before;
    }
  }

  lemma EveryTypeOnce(t: EvidenceType)
    ensures Distinct(TYPES) && t in TYPES
  {
    assert TYPES[0] == ProcessExecution && TYPES[1] == NetworkConnection && TYPES[2] == DnsQuery
           && TYPES[3] == FileActivity && TYPES[4] == Authentication && TYPES[5] == IocReputation
           && TYPES[6] == ThreatIntelligence && TYPES[7] == AttackKnowledge && TYPES[8] == OtherActivity;
  }

  lemma {:induction false} EveryItemCounted(evidence: seq<Evidence>)
    ensures CountAll(evidence, TYPES) == |evidence|
  {
    hide CountAll;
    if evidence == [] {
      NothingCounted(TYPES);
    } else {
      EveryTypeOnce(evidence[|evidence| - 1].evidenceType);
      EveryItemCounted(evidence[..|evidence| - 1]);
      CountsNext(evidence, TYPES);
    }
  }

  /** The type counts of a summary are exact, list no type that does not occur, and add up to the evidence. */
  lemma TypeCountsAddUp(ops: TextOps, evidence: seq<Evidence>)
    ensures forall t :: t in TypeCounts(evidence) <==> Select(ops, evidence, OfType(t)) != []
    ensures forall t :: t in TypeCounts(evidence) ==> TypeCounts(evidence)[t] == |Select(ops, evidence, OfType(t))|
    ensures TotalOf(TypeCounts(evidence), TYPES) == |evidence|
  {
    hide Select, CountOf, TotalOf, CountAll;
    forall t ensures CountOf(evidence, t) == |Select(ops, evidence, OfType(t))| {
      CountIsSelected(ops, evidence, t);
    }
    TotalIsSum(evidence, TYPES);
    EveryItemCounted(evidence);
  }
}
