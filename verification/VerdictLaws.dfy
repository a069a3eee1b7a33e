/** What every verdict satisfies, and where its confidence departs from the documented cap
    (app/verdict/engine.py, app/verdict/contracts.py). */
module VerdictLaws {
  import opened Contracts
  import opened EvidenceContracts
  import opened EvidenceIndexing
  import opened FindingRules
  import opened FindingLaws
  import opened FindingMeanings
  import opened Monotonicity
  import opened Ordering
  import opened Queries
  import opened TextOps
  import opened Verdicts

  // ----- validators --------------------------------------------------------------------------

  lemma {:induction false} UniqueAre(texts: seq<string>)
    ensures Distinct(Unique(texts))
    ensures forall t :: t in Unique(texts) <==> t in texts
  {
    if texts != [] {
      UniqueAre(texts[..|texts| - 1]);
      assert texts == texts[..|texts| - 1] + [texts[|texts| - 1]];
    }
  }

  lemma {:induction false} FlattenedAre(pairs: seq<Pair>, f: Finding)
    ensures |Flattened(pairs)| == 2 * |pairs|
    ensures f in Flattened(pairs) <==> exists p :: p in pairs && (f == p.malicious || f == p.behaviour)
  {
    if pairs != [] {
      var before, last := pairs[..|pairs| - 1], pairs[|pairs| - 1];
      assert pairs == before + [last];
      FlattenedAre(before, f);
      if f in Flattened(before) {
        var p :| p in before && (f == p.malicious || f == p.behaviour);
        assert p in pairs;
      } else if f == last.malicious || f == last.behaviour {
        assert last in pairs;
      }
    }
  }

  ghost predicate DistinctIds(findings: seq<Finding>) {
    Distinct(FindingIds(findings))
  }

  /** The supporting ids of a malicious verdict: sorted, each once, each of a finding of one of the pairs. */
  lemma OrderedIdsAre(findings: seq<Finding>)
    ensures Distinct(OrderedIds(findings)) && Sorted(StringKey, OrderedIds(findings))
    ensures forall id :: id in OrderedIds(findings) <==> id in FindingIds(findings)
  {
    var ids := Unique(FindingIds(findings));
    UniqueAre(FindingIds(findings));
    SortByDistinct(StringKey, ids);
    SortBySorts(StringKey, ids);
    forall id ensures id in OrderedIds(findings) <==> id in ids { SortByMembers(StringKey, ids, id); }
  }

  lemma InFindingIds(findings: seq<Finding>, f: Finding)
    requires f in findings
    ensures f.findingId in FindingIds(findings)
  {
    var k :| 0 <= k < |findings| && findings[k] == f;
    assert FindingIds(findings)[k] == f.findingId;
  }

  lemma SubsetOfIds(some: seq<Finding>, findings: seq<Finding>)
    requires forall f :: f in some ==> f in findings
    ensures Subset(FindingIds(some), FindingIds(findings))
  {
    forall id | id in FindingIds(some) ensures id in FindingIds(findings) {
      var k :| 0 <= k < |some| && FindingIds(some)[k] == id;
      InFindingIds(findings, some[k]);
    }
  }

  lemma {:induction false} PickedIds(p: Pick, findings: seq<Finding>)
    requires DistinctIds(findings)
    ensures DistinctIds(Picked(p, findings)) && Subset(FindingIds(Picked(p, findings)), FindingIds(findings))
  {
    hide Picks;
    forall f | f in Picked(p, findings) ensures f in findings { PickedAre(p, findings, f); }
    SubsetOfIds(Picked(p, findings), findings);
    if findings != [] {
      var before, last := findings[..|findings| - 1], findings[|findings| - 1];
      var ids := FindingIds(findings);
      assert forall k :: 0 <= k < |before| ==> FindingIds(before)[k] == ids[k];
      PickedIds(p, before);
      var inner := Picked(p, before);
      forall j | 0 <= j < |inner| ensures inner[j].findingId != last.findingId {
        PickedAre(p, before, inner[j]);
        var i :| 0 <= i < |before| && before[i] == inner[j];
        assert ids[i] != ids[|findings| - 1];
      }
      assert FindingIds(inner + [last]) == FindingIds(inner) + [last.findingId];
      assert Picked(p, findings) == inner || Picked(p, findings) == inner + [last];
    }
  }

  lemma PairIds(ops: TextOps, evidence: seq<Evidence>, findings: seq<Finding>)
    ensures Subset(OrderedIds(Flattened(PairsOf(ops, evidence, findings))), FindingIds(findings))
    ensures PairsOf(ops, evidence, findings) != [] ==> OrderedIds(Flattened(PairsOf(ops, evidence, findings))) != []
  {
    hide CrossSourcePairs, Picked, Flattened, OrderedIds;
    var pairs := PairsOf(ops, evidence, findings);
    var all := Flattened(pairs);
    forall f | f in all ensures f in findings {
      FlattenedAre(pairs, f);
      var p :| p in pairs && (f == p.malicious || f == p.behaviour);
      CrossSourcePairsAre(ops, evidence, Picked(MaliciousGrade, findings), Picked(Behaviour, findings), p);
      PickedAre(MaliciousGrade, findings, p.malicious);
      PickedAre(Behaviour, findings, p.behaviour);
    }
    SubsetOfIds(all, findings);
    OrderedIdsAre(all);
    if pairs != [] {
      FlattenedAre(pairs, pairs[0].malicious);
      InFindingIds(all, all[0]);
    }
  }

  lemma CounterIds(ops: TextOps, evidence: seq<Evidence>)
    ensures Subset(EvidenceIds(BenignEvidence(ops, evidence)), EvidenceIds(evidence))
  {
    hide Select, BenignAmong, BenignMatch;
    var benign := BenignEvidence(ops, evidence);
    forall id | id in EvidenceIds(benign) ensures id in EvidenceIds(evidence) {
      var k :| 0 <= k < |benign| && EvidenceIds(benign)[k] == id;
      BenignAre(ops, evidence, Select(ops, evidence, OfType(IocReputation)), benign[k]);
      Selected(ops, evidence, OfType(IocReputation), benign[k]);
      var j :| 0 <= j < |evidence| && evidence[j] == benign[k];
      assert EvidenceIds(evidence)[j] == id;
    }
  }

  /** Every verdict passes its validator and points at findings and evidence that exist. */
  lemma VerdictIsValid(ops: TextOps, evidence: seq<Evidence>, findings: seq<Finding>, completed: bool, noGaps: bool)
    requires DistinctIds(findings)
    ensures var v := Decide(ops, evidence, findings, completed, noGaps);
            v.Valid() && Subset(v.supporting, FindingIds(findings)) && Subset(v.counter, EvidenceIds(evidence))
  {
    hide CrossSourcePairs, Picked, Flattened, OrderedIds, BenignEvidence, EvidenceIds;
    PickedIds(MaliciousGrade, findings);
    PickedIds(Escalated, findings);
    PickedIds(LowSeverity, findings);
    PairIds(ops, evidence, findings);
    OrderedIdsAre(Flattened(PairsOf(ops, evidence, findings)));
    CounterIds(ops, evidence);
  }

  // ----- what each disposition means -----------------------------------------------------------

  /** Some malicious finding and some behaviour finding are structurally linked. */
  ghost predicate Linked(ops: TextOps, evidence: seq<Evidence>, findings: seq<Finding>, p: Pair) {
    && p.malicious in findings && p.malicious.draft.MaliciousGrade()
    && p.behaviour in findings && p.behaviour.draft.Behaviour()
    && exists raw :: IsPair(ops, evidence, p, raw)
  }

  ghost predicate AtLeastMedium(f: Finding) {
    f.draft.severity.Rank() >= MEDIUM_RANK
  }

  /** The allow-list names an indicator that telemetry observes. */
  ghost predicate AllowListed(ops: TextOps, evidence: seq<Evidence>) {
    exists e :: e in evidence && BenignMatch(ops, evidence, e)
  }

  lemma PairsAreLinks(ops: TextOps, evidence: seq<Evidence>, findings: seq<Finding>)
    ensures forall p :: p in PairsOf(ops, evidence, findings) <==> Linked(ops, evidence, findings, p)
  {
    hide CrossSourcePairs, Picked, IsPair;
    forall p ensures p in PairsOf(ops, evidence, findings) <==> Linked(ops, evidence, findings, p) {
      CrossSourcePairsAre(ops, evidence, Picked(MaliciousGrade, findings), Picked(Behaviour, findings), p);
      PickedAre(MaliciousGrade, findings, p.malicious);
      PickedAre(Behaviour, findings, p.behaviour);
    }
  }

  lemma PicksExist(p: Pick, findings: seq<Finding>)
    ensures Picked(p, findings) != [] <==> exists f :: f in findings && Picks(p, f)
  {
    hide Picked, Picks;
    if Picked(p, findings) != [] {
      assert Picked(p, findings)[0] in Picked(p, findings);
      PickedAre(p, findings, Picked(p, findings)[0]);
    }
    if f :| f in findings && Picks(p, f) {
      PickedAre(p, findings, f);
    }
  }

  lemma BenignExists(ops: TextOps, evidence: seq<Evidence>)
    ensures BenignEvidence(ops, evidence) != [] <==> AllowListed(ops, evidence)
  {
    hide Select, BenignAmong, Occurrences;
    var items := Select(ops, evidence, OfType(IocReputation));
    var benign := BenignEvidence(ops, evidence);
    if benign != [] {
      assert benign[0] in benign;
      BenignAre(ops, evidence, items, benign[0]);
      Selected(ops, evidence, OfType(IocReputation), benign[0]);
    }
    if e :| e in evidence && BenignMatch(ops, evidence, e) {
      Selected(ops, evidence, OfType(IocReputation), e);
      BenignAre(ops, evidence, items, e);
    }
  }

  /** The documented rules, each disposition from the findings alone: malicious needs a linked pair, and a
      second one when the run is unfinished; suspicious a malicious match or a finding of medium severity;
      benign an allow-list match, a finished run and no such finding; everything else is inconclusive. */
  lemma DispositionsMean(ops: TextOps, evidence: seq<Evidence>, findings: seq<Finding>, completed: bool, noGaps: bool)
    ensures var v := Decide(ops, evidence, findings, completed, noGaps);
            var malicious := exists p :: Linked(ops, evidence, findings, p)
                                         && (completed || |PairsOf(ops, evidence, findings)| >= 2);
            var raised := exists f :: f in findings && (f.draft.MaliciousGrade() || AtLeastMedium(f));
            && (v.disposition.Malicious? <==> malicious)
            && (v.disposition.Suspicious? <==> !malicious && raised)
            && (v.disposition.Benign? <==> !raised && completed && AllowListed(ops, evidence))
            && (v.disposition.Inconclusive? <==> !raised && !(completed && AllowListed(ops, evidence)))
  {
    hide CrossSourcePairs, Picked, OrderedIds, Flattened, BenignEvidence, AllowListed;
    PairsAreLinks(ops, evidence, findings);
    PicksExist(MaliciousGrade, findings);
    PicksExist(Escalated, findings);
    BenignExists(ops, evidence);
    var pairs := PairsOf(ops, evidence, findings);
    if pairs != [] {
      assert pairs[0] in pairs;
      assert Linked(ops, evidence, findings, pairs[0]);
    }
  }

  lemma {:induction false} IdOfFinding(findings: seq<Finding>, id: string)
    ensures id in FindingIds(findings) <==> exists f :: f in findings && f.findingId == id
  {
    if id in FindingIds(findings) {
      var k :| 0 <= k < |findings| && FindingIds(findings)[k] == id;
      assert findings[k] in findings;
    }
    if f :| f in findings && f.findingId == id {
      InFindingIds(findings, f);
    }
  }

  lemma PickedIdsAre(p: Pick, findings: seq<Finding>, id: string)
    ensures id in FindingIds(Picked(p, findings)) <==> exists f :: f in findings && Picks(p, f) && f.findingId == id
  {
    hide Picked, Picks, FindingIds;
    IdOfFinding(Picked(p, findings), id);
    forall f ensures f in Picked(p, findings) <==> f in findings && Picks(p, f) { PickedAre(p, findings, f); }
  }

  lemma PairedIdsAre(ops: TextOps, evidence: seq<Evidence>, findings: seq<Finding>, id: string)
    ensures id in OrderedIds(Flattened(PairsOf(ops, evidence, findings)))
            <==> exists p :: Linked(ops, evidence, findings, p)
                             && (p.malicious.findingId == id || p.behaviour.findingId == id)
  {
    hide PairsOf, Flattened, OrderedIds, FindingIds, Linked;
    var pairs := PairsOf(ops, evidence, findings);
    PairsAreLinks(ops, evidence, findings);
    OrderedIdsAre(Flattened(pairs));
    IdOfFinding(Flattened(pairs), id);
    forall f ensures f in Flattened(pairs) <==> exists p :: p in pairs && (f == p.malicious || f == p.behaviour) {
      FlattenedAre(pairs, f);
    }
    if p :| Linked(ops, evidence, findings, p) && (p.malicious.findingId == id || p.behaviour.findingId == id) {
      assert p in pairs;
      var f := if p.malicious.findingId == id then p.malicious else p.behaviour;
      assert f in Flattened(pairs);
    }
  }

  /** What a verdict rests on: both findings of every linked pair, else the malicious matches, else the
      findings of at least medium severity, else, for a benign verdict, the low ones. */
  lemma SupportMeans(ops: TextOps, evidence: seq<Evidence>, findings: seq<Finding>, completed: bool, noGaps: bool,
                     id: string)
    ensures var v := Decide(ops, evidence, findings, completed, noGaps);
            var matched := exists f :: f in findings && f.draft.MaliciousGrade();
            id in v.supporting <==>
              match v.disposition
              case Malicious =>
                exists p :: Linked(ops, evidence, findings, p)
                            && (p.malicious.findingId == id || p.behaviour.findingId == id)
              case Suspicious =>
                exists f :: f in findings && f.findingId == id
                            && (if matched then f.draft.MaliciousGrade() else AtLeastMedium(f))
              case Benign => exists f :: f in findings && f.findingId == id
              case Inconclusive => false
  {
    hide PairsOf, Picked, OrderedIds, Flattened, BenignEvidence, FindingIds, Linked;
    PairedIdsAre(ops, evidence, findings, id);
    PickedIdsAre(MaliciousGrade, findings, id);
    PickedIdsAre(Escalated, findings, id);
    PickedIdsAre(LowSeverity, findings, id);
    PicksExist(MaliciousGrade, findings);
    PicksExist(Escalated, findings);
  }

  // ----- knowledge alone decides nothing ------------------------------------------------------

  ghost predicate NothingObserved(evidence: seq<Evidence>) {
    forall e :: e in evidence ==> !Telemetry(e)
  }

  lemma NothingMatches(ops: TextOps, evidence: seq<Evidence>, indicator: string)
    requires NothingObserved(evidence)
    ensures Occurrences(ops, evidence, indicator) == []
  {
    hide Select, Telemetry, Observes;
    var q := ObservedAs(ops.Normalize(indicator));
    if Select(ops, evidence, q) != [] {
      var e := Select(ops, evidence, q)[0];
      assert e in Select(ops, evidence, q);
      Selected(ops, evidence, q, e);
    }
  }

  lemma NoDraft(ops: TextOps, evidence: seq<Evidence>, rule: Rule, key: RuleKey)
    requires NothingObserved(evidence) && Triggers(ops, evidence, rule, key)
    ensures DraftFor(ops, evidence, key).None?
  {
    hide Telemetry, Select, Occurrences;
    if rule.RuleIndicator? {
      NothingMatches(ops, evidence, key.group[0]);
    }
  }

  /** Without observed telemetry there is no finding and the verdict is inconclusive, whatever the
      knowledge base asserts: neither malicious nor benign reputation counts by itself. */
  lemma KnowledgeAloneIsInconclusive(ops: TextOps, evidence: seq<Evidence>, completed: bool, noGaps: bool)
    requires NothingObserved(evidence)
    ensures FindingsOf(ops, evidence) == []
    ensures VerdictOf(ops, evidence, completed, noGaps).disposition.Inconclusive?
  {
    hide AllKeys, DraftFor, Triggers, Telemetry, Select, BenignAmong, Occurrences;
    if Drafts(ops, evidence) != [] {
      var d := Drafts(ops, evidence)[0];
      assert d in Drafts(ops, evidence);
      DraftIsMade(ops, evidence, d);
      var rule := DraftTriggered(ops, evidence, d);
      NoDraft(ops, evidence, rule, d.key);
    }
    var items := Select(ops, evidence, OfType(IocReputation));
    if BenignEvidence(ops, evidence) != [] {
      var e := BenignEvidence(ops, evidence)[0];
      assert e in BenignEvidence(ops, evidence);
      BenignAre(ops, evidence, items, e);
      NothingMatches(ops, evidence, e.content[Indicator].s);
    }
  }

  /** A malicious verdict rests on an indicator with a malicious reputation record, on telemetry that observes
      it, and on a behaviour finding that is structurally linked to it. */
  lemma MaliciousIsObserved(ops: TextOps, evidence: seq<Evidence>, completed: bool, noGaps: bool)
    returns (reputation: Evidence, observation: Evidence, behaviour: Finding, indicator: string)
    requires UniqueIds(evidence) && VerdictOf(ops, evidence, completed, noGaps).disposition.Malicious?
    ensures reputation in evidence && HasReputation(reputation, "malicious")
    ensures indicator == ops.Normalize(ops.Stripped(reputation.content, Indicator))
    ensures observation in evidence && Telemetry(observation) && Observes(ops, observation, ops.Normalize(indicator))
    ensures behaviour in FindingsOf(ops, evidence) && behaviour.draft.Behaviour()
    ensures CitesLink(ops, evidence, behaviour, ops.Normalize(indicator), indicator)
  {
    hide FindingsOf, Picked, CrossSourcePairs, CitesLink, BenignEvidence, OrderedIds, Flattened;
    hide Telemetry, Observes, TextOps.Normalize, TextOps.Stripped, Select;
    var findings := FindingsOf(ops, evidence);
    var p := PairsOf(ops, evidence, findings)[0];
    assert p in PairsOf(ops, evidence, findings);
    CrossSourcePairsAre(ops, evidence, Picked(MaliciousGrade, findings), Picked(Behaviour, findings), p);
    PickedAre(MaliciousGrade, findings, p.malicious);
    PickedAre(Behaviour, findings, p.behaviour);
    behaviour := p.behaviour;
    var raw :| IsPair(ops, evidence, p, raw);
    indicator := raw;
    reputation, observation := IndicatorSources(ops, evidence, p.malicious, raw);
  }

  lemma IndicatorSources(ops: TextOps, evidence: seq<Evidence>, f: Finding, raw: string)
    returns (reputation: Evidence, observation: Evidence)
    requires UniqueIds(evidence) && f in FindingsOf(ops, evidence) && f.draft.MaliciousGrade()
             && raw in f.relatedIndicators
    ensures reputation in evidence && HasReputation(reputation, "malicious")
    ensures raw == ops.Normalize(ops.Stripped(reputation.content, Indicator))
    ensures observation in evidence && Telemetry(observation) && Observes(ops, observation, ops.Normalize(raw))
  {
    hide Drafts, FindingsFrom, AllKnown, Unique, DraftKeys, TextOps.Normalize, TextOps.Stripped;
    hide Telemetry, Observes, HasReputation, DraftFor;
    MaliciousIsIndicator(ops, evidence, f);
    FindingsAreGrounded(ops, evidence);
    var k :| 0 <= k < |FindingsOf(ops, evidence)| && FindingsOf(ops, evidence)[k] == f;
    FindingShape(ops, evidence, k);
    UniqueAre(f.draft.relatedIndicators);
    reputation, observation := DraftSources(ops, evidence, f.draft);
  }

  /** A malicious record and an observation behind the draft of an indicator match. */
  lemma DraftSources(ops: TextOps, evidence: seq<Evidence>, d: Draft)
    returns (reputation: Evidence, observation: Evidence)
    requires d in Drafts(ops, evidence) && d.key.IndicatorKey?
    ensures reputation in evidence && HasReputation(reputation, "malicious")
    ensures observation in evidence && Telemetry(observation)
    ensures var raw := ops.Normalize(ops.Stripped(reputation.content, Indicator));
            d.relatedIndicators == [raw] && Observes(ops, observation, ops.Normalize(raw))
  {
    hide Drafts, Select, TextOps.Normalize, TextOps.Stripped, Telemetry, Observes, HasReputation, DraftFor, Triggers;
    DraftIsMade(ops, evidence, d);
    var rule := DraftTriggered(ops, evidence, d);
    reputation := TriggeringReputation(ops, evidence, rule, d.key);
    var group := d.key.group;
    DraftIndicators(ops, evidence, d);
    var q := ObservedAs(ops.Normalize(group[0]));
    observation := Select(ops, evidence, q)[0];
    assert observation in Select(ops, evidence, q);
    Selected(ops, evidence, q, observation);
  }

  lemma TriggeringReputation(ops: TextOps, evidence: seq<Evidence>, rule: Rule, key: RuleKey) returns (e: Evidence)
    requires Triggers(ops, evidence, rule, key) && key.IndicatorKey?
    ensures e in evidence && HasReputation(e, "malicious")
    ensures key.group == [ops.Normalize(ops.Stripped(e.content, Indicator))]
  {
    hide HasReputation, TextOps.Normalize, TextOps.Stripped;
    e :| e in evidence && Grouped(ops, GroupingOf(rule), e)
      && key == KeyFromGroup(rule, GroupKey(ops, GroupingOf(rule), e));
  }

  lemma DraftIndicators(ops: TextOps, evidence: seq<Evidence>, d: Draft)
    requires d.key.IndicatorKey? && DraftFor(ops, evidence, d.key) == Some(d)
    ensures |d.key.group| == 1 && d.relatedIndicators == [d.key.group[0]]
    ensures Select(ops, evidence, ObservedAs(ops.Normalize(d.key.group[0]))) != []
  {
    hide Select, TextOps.Normalize, Targets, HasHash, EvidenceIds;
  }

  // ----- what a link and an allow-list match are ---------------------------------------------------

  /** The text of a field, whatever its type, as an indicator. */
  predicate ReadsAs(ops: TextOps, e: Evidence, field: Field, target: string) {
    ops.Normalize(ops.Rendered(e.content, field)) == target
  }

  predicate HexDigit(c: char) {
    '0' <= c <= '9' || 'a' <= c <= 'f' || 'A' <= c <= 'F'
  }

  lemma HexDigitsAre(c: char)
    ensures HexDigit(c) <==> c in "0123456789abcdefABCDEF"
  {
    var digits := "0123456789abcdefABCDEF";
    if HexDigit(c) {
      var k := if '0' <= c <= '9' then c as int - '0' as int
               else if 'a' <= c <= 'f' then 10 + c as int - 'a' as int
               else 16 + c as int - 'A' as int;
      assert digits[k] == c;
    }
  }

  /** A behaviour is linked to an indicator exactly when a cited item carries it: a hash of 64 hex digits by the
      recorded hash alone, anything else as destination, as answer, or on an item that names a script interpreter. */
  lemma LinkMeans(ops: TextOps, evidence: seq<Evidence>, b: Finding, target: string, raw: string)
    ensures CitesLink(ops, evidence, b, target, raw)
            <==> exists id :: id in b.evidenceIds && ItemById(evidence, id).Some?
                              && var e := ItemById(evidence, id).value;
                                 if |raw| == 64 && forall k :: 0 <= k < 64 ==> HexDigit(raw[k])
                                 then ReadsAs(ops, e, Sha256, target)
                                 else || ReadsAs(ops, e, DstIp, target) || ReadsAs(ops, e, Response, target)
                                      || (ops.casefold(ops.Rendered(e.content, ProcessName)) != ""
                                          && ops.casefold(ops.Rendered(e.content, ProcessName)) in SCRIPT_INTERPRETERS)
  {
    hide ItemById, TextOps.Normalize, TextOps.Rendered;
    forall k | 0 <= k < |raw| ensures HexDigit(raw[k]) <==> raw[k] in "0123456789abcdefABCDEF" {
      HexDigitsAre(raw[k]);
    }
    hide HexDigit;
    assert HashLike(raw) <==> |raw| == 64 && forall k :: 0 <= k < 64 ==> HexDigit(raw[k]);
  }

  /** An allow-list match is a benign reputation whose indicator some telemetry carries as an address, a name, an answer
      or a hash. */
  lemma AllowListMatchMeans(ops: TextOps, evidence: seq<Evidence>, e: Evidence)
    ensures BenignMatch(ops, evidence, e)
            <==> && HasReputation(e, "benign") && Indicator in e.content && e.content[Indicator].Text?
                 && var target := ops.Normalize(e.content[Indicator].s);
                    target != "" && exists o :: o in evidence && Telemetry(o) && CarriesIndicator(ops, o, target)
  {
    hide Select, Telemetry, HasReputation, TextOps.Normalize, Observes;
    if Indicator in e.content && e.content[Indicator].Text? {
      var target := ops.Normalize(e.content[Indicator].s);
      SelectionExists(ops, evidence, ObservedAs(target));
      forall o ensures Observes(ops, o, target) <==> CarriesIndicator(ops, o, target) {
        ObservesMeans(ops, o, target);
      }
    }
  }

  predicate CarriesIndicator(ops: TextOps, o: Evidence, target: string) {
    || NormalizesTo(ops, o, SrcIp, target) || NormalizesTo(ops, o, DstIp, target)
    || NormalizesTo(ops, o, Response, target) || NormalizesTo(ops, o, Field.Query, target)
    || NormalizesTo(ops, o, Sha256, target)
  }

  predicate NormalizesTo(ops: TextOps, o: Evidence, field: Field, target: string) {
    TextAt(o.content, field) != "" && ops.Normalize(TextAt(o.content, field)) == target
  }

  lemma ObservesMeans(ops: TextOps, o: Evidence, target: string)
    ensures Observes(ops, o, target) <==> CarriesIndicator(ops, o, target)
  {
    hide TextAt, TextOps.Normalize;
  }

  // ----- confidence -------------------------------------------------------------------------------

  ghost predicate CorrelatedAndRaised(f: Finding) {
    f.draft.findingType == CorrelatedAttackPattern && AtLeastMedium(f)
  }

  lemma CorrelatedExists(findings: seq<Finding>)
    ensures HasCorrelated(Picked(Escalated, findings)) <==> exists f :: f in findings && CorrelatedAndRaised(f)
  {
    hide Picked;
    forall f ensures f in Picked(Escalated, findings) <==> f in findings && AtLeastMedium(f) {
      PickedAre(Escalated, findings, f);
    }
  }

  /** The confidence of every verdict, finished run or not: high for a linked pair of a finished run, for a correlated
      finding of at least medium severity without any malicious match, and for a benign verdict without gaps; low
      exactly when inconclusive. */
  lemma ConfidenceMeans(ops: TextOps, evidence: seq<Evidence>, findings: seq<Finding>, completed: bool, noGaps: bool)
    ensures var v := Decide(ops, evidence, findings, completed, noGaps);
            var linked := exists p :: Linked(ops, evidence, findings, p);
            var matched := exists f :: f in findings && f.draft.MaliciousGrade();
            var correlated := exists f :: f in findings && CorrelatedAndRaised(f);
            && (v.confidence.HighConfidence?
                <==> (linked && completed) || (!matched && correlated) || (v.disposition.Benign? && noGaps))
            && (v.confidence.LowConfidence? <==> v.disposition.Inconclusive?)
  {
    hide CrossSourcePairs, Picked, OrderedIds, Flattened, BenignEvidence, HasCorrelated, CorrelatedAndRaised;
    PairsAreLinks(ops, evidence, findings);
    PicksExist(MaliciousGrade, findings);
    PicksExist(Escalated, findings);
    CorrelatedExists(findings);
    RaisedIsEscalated(findings);
    var pairs := PairsOf(ops, evidence, findings);
    if pairs != [] {
      assert pairs[0] in pairs;
      assert Linked(ops, evidence, findings, pairs[0]);
      assert pairs[0].malicious in findings;
    }
  }

  lemma RaisedIsEscalated(findings: seq<Finding>)
    ensures forall f :: f in findings && CorrelatedAndRaised(f) ==> Picks(Escalated, f)
  {
  }

  /** The counter-evidence is exactly the observed allow-list matches, and none for a benign verdict. */
  lemma CounterMeans(ops: TextOps, evidence: seq<Evidence>, findings: seq<Finding>, completed: bool, noGaps: bool,
                     id: string)
    ensures var v := Decide(ops, evidence, findings, completed, noGaps);
            id in v.counter
            <==> !v.disposition.Benign?
                 && exists e :: e in evidence && BenignMatch(ops, evidence, e) && e.evidenceId == id
  {
    hide PairsOf, Picked, OrderedIds, Flattened, Select, BenignAmong, BenignMatch, EvidenceIds;
    var benign := BenignEvidence(ops, evidence);
    forall e ensures e in benign <==> e in evidence && BenignMatch(ops, evidence, e) {
      BenignIsMatch(ops, evidence, e);
    }
    IdIn(benign, id);
    IdIn([], id);
  }

  lemma BenignIsMatch(ops: TextOps, evidence: seq<Evidence>, e: Evidence)
    ensures e in BenignEvidence(ops, evidence) <==> e in evidence && BenignMatch(ops, evidence, e)
  {
    hide Select, BenignAmong, Occurrences;
    Selected(ops, evidence, OfType(IocReputation), e);
    BenignAre(ops, evidence, Select(ops, evidence, OfType(IocReputation)), e);
  }

  lemma IdIn(items: seq<Evidence>, id: string)
    ensures id in EvidenceIds(items) <==> exists e :: e in items && e.evidenceId == id
  {
    if id in EvidenceIds(items) {
      var k :| 0 <= k < |items| && EvidenceIds(items)[k] == id;
      assert items[k] in items;
    }
    if e :| e in items && e.evidenceId == id {
      var k :| 0 <= k < |items| && items[k] == e;
      assert EvidenceIds(items)[k] == id;
    }
  }

  /** The rule recorded is that of the disposition. */
  lemma RuleMeans(ops: TextOps, evidence: seq<Evidence>, findings: seq<Finding>, completed: bool, noGaps: bool)
    ensures var v := Decide(ops, evidence, findings, completed, noGaps);
            && (v.rule.RuleMalicious? <==> v.disposition.Malicious?)
            && (v.rule.RuleSuspicious? <==> v.disposition.Suspicious?)
            && (v.rule.RuleBenign? <==> v.disposition.Benign?)
            && (v.rule.RuleInconclusive? <==> v.disposition.Inconclusive?)
  {
    hide PairsOf, Picked, OrderedIds, Flattened, BenignEvidence;
  }

  /** On the evidence's own findings a second pair is a different pair: the bar of an unfinished run. */
  lemma SecondPairIff(ops: TextOps, evidence: seq<Evidence>)
    requires UniqueIds(evidence)
    ensures |PairsOf(ops, evidence, FindingsOf(ops, evidence))| >= 2
            <==> exists p, q :: p != q && Linked(ops, evidence, FindingsOf(ops, evidence), p)
                                && Linked(ops, evidence, FindingsOf(ops, evidence), q)
  {
    hide FindingsOf, PairsOf, Linked;
    var findings := FindingsOf(ops, evidence);
    var pairs := PairsOf(ops, evidence, findings);
    PairsAreLinks(ops, evidence, findings);
    OwnPairsDistinct(ops, evidence);
    if |pairs| >= 2 {
      assert pairs[0] in pairs && pairs[1] in pairs && PairKeys(pairs)[0] != PairKeys(pairs)[1];
    }
    if p, q :| p != q && Linked(ops, evidence, findings, p) && Linked(ops, evidence, findings, q) {
      assert p in pairs && q in pairs;
    }
  }

  /** Which findings escape the documented cap: correlated ones, when no malicious indicator matched. */
  ghost predicate CapEscaped(findings: seq<Finding>) {
    && (forall f :: f in findings ==> !f.draft.MaliciousGrade())
    && exists f :: f in findings && f.draft.findingType == CorrelatedAttackPattern
                   && f.draft.severity.Rank() >= MEDIUM_RANK
  }

  /** An unfinished run's confidence stays at medium or below, as documented, if and only if a correlated
      finding does not stand without a malicious match. */
  lemma CapHoldsIff(ops: TextOps, evidence: seq<Evidence>, findings: seq<Finding>, noGaps: bool)
    ensures var v := Decide(ops, evidence, findings, false, noGaps);
            !v.confidence.HighConfidence? <==> !CapEscaped(findings)
  {
    hide CrossSourcePairs, Picked, OrderedIds, Flattened, BenignEvidence;
    var malicious, escalated := Picked(MaliciousGrade, findings), Picked(Escalated, findings);
    forall f ensures (f in malicious <==> f in findings && f.draft.MaliciousGrade())
                     && (f in escalated <==> f in findings && f.draft.severity.Rank() >= MEDIUM_RANK)
    {
      PickedAre(MaliciousGrade, findings, f);
      PickedAre(Escalated, findings, f);
    }
    if malicious == [] {
      NoPairs(ops, evidence, findings);
    } else {
      assert malicious[0] in malicious;
    }
    if CapEscaped(findings) {
      var f :| f in findings && f.draft.findingType == CorrelatedAttackPattern
        && f.draft.severity.Rank() >= MEDIUM_RANK;
      assert f in escalated;
    }
  }

  lemma NoPairs(ops: TextOps, evidence: seq<Evidence>, findings: seq<Finding>)
    requires Picked(MaliciousGrade, findings) == []
    ensures PairsOf(ops, evidence, findings) == []
  {
  }

  const PLAIN := TextOps((s: string) => s, (s: string) => s, (s: string) => None, (s: string) => false,
                         (v: Value) => "")

  const ORIGIN := SourceReference("search_network_activity", "TC-000001", "TR-1", "r", "ref")

  const LOOKUP_ITEM := Evidence("EV-000001", DnsQuery,
    map[RecordClass := Text(DNS_CLASS), RecordId := Text("DNS-1"), Host := Text("ws"), Response := Text("203.0.113.7")],
    ORIGIN, [TAG_TELEMETRY])

  const FLOW_ITEM := Evidence("EV-000002", NetworkConnection,
    map[RecordClass := Text(NETWORK_CLASS), RecordId := Text("NET-1"), SrcHost := Text("ws"),
        DstIp := Text("203.0.113.7")], ORIGIN, [TAG_TELEMETRY])

  /** The documented cap fails on a DNS answer and a flow to it alone: the run did not finish, yet the
      confidence is high. */
  lemma CapFails()
    ensures var evidence := [LOOKUP_ITEM, FLOW_ITEM];
            VerdictOf(PLAIN, evidence, false, false).confidence.HighConfidence?
  {
    hide FindingsOf, Decide;
    var evidence := [LOOKUP_ITEM, FLOW_ITEM];
    var d := CorrelationFires();
    var f := FindingOfDraft(PLAIN, evidence, d);
    forall g | g in FindingsOf(PLAIN, evidence) ensures !g.draft.MaliciousGrade() {
      NoMaliciousGrade(evidence, g);
    }
    CapHoldsIff(PLAIN, evidence, FindingsOf(PLAIN, evidence), false);
  }

  lemma FindingOfDraft(ops: TextOps, evidence: seq<Evidence>, d: Draft) returns (f: Finding)
    requires UniqueIds(evidence) && d in Drafts(ops, evidence)
    ensures f in FindingsOf(ops, evidence) && f.draft == d
  {
    hide Drafts, FindingsFrom, AllKnown, DraftKeys;
    FindingsAreGrounded(ops, evidence);
    var k :| 0 <= k < |Drafts(ops, evidence)| && Drafts(ops, evidence)[k] == d;
    f := FindingsOf(ops, evidence)[k];
  }

  lemma NoMaliciousGrade(evidence: seq<Evidence>, f: Finding)
    requires evidence == [LOOKUP_ITEM, FLOW_ITEM] && UniqueIds(evidence) && f in FindingsOf(PLAIN, evidence)
    ensures !f.draft.MaliciousGrade()
  {
    hide FindingsOf;
    if f.draft.MaliciousGrade() {
      MaliciousIsIndicator(PLAIN, evidence, f);
      var reputation, observation := IndicatorSources(PLAIN, evidence, f, f.relatedIndicators[0]);
    }
  }

  lemma CorrelationFires() returns (d: Draft)
    ensures var evidence := [LOOKUP_ITEM, FLOW_ITEM];
            && UniqueIds(evidence) && d in Drafts(PLAIN, evidence)
            && d.findingType == CorrelatedAttackPattern && d.severity.Rank() >= MEDIUM_RANK
  {
    var evidence := [LOOKUP_ITEM, FLOW_ITEM];
    assert LOOKUP_ITEM.evidenceId[8] != FLOW_ITEM.evidenceId[8];
    assert evidence[0] == LOOKUP_ITEM && evidence[1] == FLOW_ITEM;
    d := SampleDraft(evidence);
    hide AllKeys, Drafts, DraftFor, Select, DistinctRecordIds;
    var key := FlowKey(LOOKUP_ITEM.evidenceId);
    assert Matches(PLAIN, TriggerOf(RuleFlow), LOOKUP_ITEM);
    hide Matches;
    assert Triggers(PLAIN, evidence, RuleFlow, key);
    hide Triggers;
    AllKeysAre(PLAIN, evidence, key);
    DraftKnown(PLAIN, evidence, key);
    SampleCollected(evidence, d);
  }

  lemma SampleCollected(evidence: seq<Evidence>, d: Draft)
    requires d.key in AllKeys(PLAIN, evidence) && DraftFor(PLAIN, evidence, d.key) == Some(d)
    ensures d in Drafts(PLAIN, evidence)
  {
    hide AllKeys, DraftFor;
    CollectedAre(PLAIN, evidence, AllKeys(PLAIN, evidence), d);
  }

  lemma SampleDraft(evidence: seq<Evidence>) returns (d: Draft)
    requires LOOKUP_ITEM in evidence && FLOW_ITEM in evidence && UniqueIds(evidence)
    ensures DraftFor(PLAIN, evidence, FlowKey(LOOKUP_ITEM.evidenceId)) == Some(d)
    ensures d.findingType == CorrelatedAttackPattern && d.severity.Rank() >= MEDIUM_RANK
  {
    hide Select, DistinctRecordIds;
    var key := FlowKey(LOOKUP_ITEM.evidenceId);
    ItemByItsId(evidence, LOOKUP_ITEM);
    var q := FlowsFrom("203.0.113.7", "ws", "");
    assert Matches(PLAIN, q, FLOW_ITEM);
    Selected(PLAIN, evidence, q, FLOW_ITEM);
    var flows := Select(PLAIN, evidence, q);
    TwoRecords([LOOKUP_ITEM] + flows);
    var draft := DraftFor(PLAIN, evidence, key);
    assert draft.Some?;
    d := draft.value;
  }

  lemma TwoRecords(items: seq<Evidence>)
    requires LOOKUP_ITEM in items && FLOW_ITEM in items
    ensures |DistinctRecordIds(items)| >= 2
  {
    RecordIdsAre(items, "DNS-1");
    RecordIdsAre(items, "NET-1");
    assert TextAt(LOOKUP_ITEM.content, RecordId) == "DNS-1" && TextAt(FLOW_ITEM.content, RecordId) == "NET-1";
    assert "DNS-1"[0] != "NET-1"[0];
    SubsetIsShorter(["DNS-1", "NET-1"], DistinctRecordIds(items));
  }
}
