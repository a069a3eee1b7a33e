/** The verdict rules (app/verdict/engine.py, app/verdict/contracts.py). */
module Verdicts {
  import opened Contracts
  import opened EvidenceContracts
  import opened EvidenceIndexing
  import opened Extractor
  import opened FindingRules
  import opened Ordering
  import opened Queries
  import opened Summaries
  import opened TextOps

  datatype Disposition = Malicious | Suspicious | Benign | Inconclusive
  {
    /** How far a disposition escalates. */
    function Rank(): nat {
      match this
      case Malicious => 2
      case Suspicious => 1
      case Benign => 0
      case Inconclusive => 0
    }
  }

  datatype Confidence = LowConfidence | MediumConfidence | HighConfidence

  datatype VerdictRule = RuleMalicious | RuleSuspicious | RuleBenign | RuleInconclusive

  datatype Verdict = Verdict(
    disposition: Disposition, confidence: Confidence, supporting: seq<string>, counter: seq<string>, rule: VerdictRule)
  {
    /** The contract checked on construction. */
    ghost predicate Valid() {
      && (disposition.Malicious? || disposition.Suspicious? ==> supporting != [])
      && Distinct(supporting)
    }
  }

  datatype Pair = Pair(malicious: Finding, behaviour: Finding)

  const MEDIUM_RANK: nat := 1

  predicate Finished(run: RunRecord) {
    run.status == RuntimeStatus.Completed && run.stopReason == Some(StopReason.Completed)
  }

  // ----- structural links -----------------------------------------------------------------

  predicate HashLike(raw: string) {
    |raw| == 64 && forall k :: 0 <= k < |raw| ==> raw[k] in "0123456789abcdefABCDEF"
  }

  predicate FieldIs(ops: TextOps, e: Evidence, field: Field, target: string) {
    ops.Normalize(ops.Rendered(e.content, field)) == target
  }

  /** The item names a script interpreter as its process. */
  predicate ScriptProcess(ops: TextOps, e: Evidence) {
    var process := ops.casefold(ops.Rendered(e.content, ProcessName));
    process != "" && process in SCRIPT_INTERPRETERS
  }

  /** One item ties the indicator to behaviour: a hash by the recorded hash only, anything else by a flow
      destination, a DNS answer or a script interpreter. */
  predicate ItemLinks(ops: TextOps, e: Evidence, target: string, raw: string) {
    if HashLike(raw) then FieldIs(ops, e, Sha256, target)
    else FieldIs(ops, e, DstIp, target) || FieldIs(ops, e, Response, target) || ScriptProcess(ops, e)
  }

  ghost predicate CitesLink(ops: TextOps, evidence: seq<Evidence>, behaviour: Finding, target: string, raw: string) {
    exists id :: id in behaviour.evidenceIds && ItemById(evidence, id).Some?
                 && ItemLinks(ops, ItemById(evidence, id).value, target, raw)
  }

  /** The first scan stops at this item: any link but that of a script interpreter alone. */
  predicate LinksAtOnce(ops: TextOps, e: Evidence, target: string, raw: string) {
    if HashLike(raw) then FieldIs(ops, e, Sha256, target)
    else FieldIs(ops, e, DstIp, target) || FieldIs(ops, e, Response, target)
         || (FieldIs(ops, e, Query, target) && ScriptProcess(ops, e))
  }

  /** The first scan meets an unknown id before any link: the source raises. */
  ghost predicate MissesItem(ops: TextOps, evidence: seq<Evidence>, behaviour: Finding, target: string, raw: string) {
    var ids := behaviour.evidenceIds;
    exists n :: 0 <= n < |ids| && ItemById(evidence, ids[n]).None?
                && forall k :: 0 <= k < n ==> !LinksById(ops, evidence, ids[k], target, raw)
  }

  predicate LinksById(ops: TextOps, evidence: seq<Evidence>, id: string, target: string, raw: string) {
    ItemById(evidence, id).Some? && LinksAtOnce(ops, ItemById(evidence, id).value, target, raw)
  }

  /** Some comparison the pairing makes misses an item. */
  ghost predicate PairingFails(ops: TextOps, evidence: seq<Evidence>, malicious: seq<Finding>, behaviours: seq<Finding>)
  {
    exists m :: m in malicious && IndicatorsFail(ops, evidence, behaviours, m.relatedIndicators)
  }

  ghost predicate IndicatorsFail(ops: TextOps, evidence: seq<Evidence>, behaviours: seq<Finding>,
                                 indicators: seq<string>)
  {
    exists raw :: raw in indicators && ops.Normalize(raw) != "" && BehavioursFail(ops, evidence, behaviours, raw)
  }

  ghost predicate BehavioursFail(ops: TextOps, evidence: seq<Evidence>, behaviours: seq<Finding>, raw: string) {
    exists b :: b in behaviours && MissesItem(ops, evidence, b, ops.Normalize(raw), raw)
  }

  ghost function LinkedBehaviours(ops: TextOps, evidence: seq<Evidence>, malicious: Finding, behaviours: seq<Finding>,
                                  raw: string): seq<Pair>
  {
    if behaviours == [] then []
    else
      var last := behaviours[|behaviours| - 1];
      LinkedBehaviours(ops, evidence, malicious, behaviours[..|behaviours| - 1], raw)
      + if CitesLink(ops, evidence, last, ops.Normalize(raw), raw) then [Pair(malicious, last)] else []
  }

  ghost function IndicatorPairs(ops: TextOps, evidence: seq<Evidence>, malicious: Finding, behaviours: seq<Finding>,
                                indicators: seq<string>): seq<Pair>
  {
    if indicators == [] then []
    else
      var raw := indicators[|indicators| - 1];
      IndicatorPairs(ops, evidence, malicious, behaviours, indicators[..|indicators| - 1])
      + if ops.Normalize(raw) == "" then [] else LinkedBehaviours(ops, evidence, malicious, behaviours, raw)
  }

  /** Malicious findings with the behaviour findings they are structurally linked to. */
  ghost function CrossSourcePairs(ops: TextOps, evidence: seq<Evidence>, malicious: seq<Finding>,
                                  behaviours: seq<Finding>): seq<Pair>
  {
    if malicious == [] then []
    else
      var last := malicious[|malicious| - 1];
      CrossSourcePairs(ops, evidence, malicious[..|malicious| - 1], behaviours)
      + IndicatorPairs(ops, evidence, last, behaviours, last.relatedIndicators)
  }

  // ----- selections ---------------------------------------------------------------------------

  datatype Pick = MaliciousGrade | Behaviour | Escalated | LowSeverity

  predicate Picks(p: Pick, f: Finding) {
    match p
    case MaliciousGrade => f.draft.MaliciousGrade()
    case Behaviour => f.draft.Behaviour()
    case Escalated => f.draft.severity.Rank() >= MEDIUM_RANK
    case LowSeverity => f.draft.severity.Rank() < MEDIUM_RANK
  }

  function Picked(p: Pick, findings: seq<Finding>): seq<Finding> {
    if findings == [] then []
    else
      var last := findings[|findings| - 1];
      Picked(p, findings[..|findings| - 1]) + if Picks(p, last) then [last] else []
  }

  function FindingIds(findings: seq<Finding>): seq<string> {
    seq(|findings|, k requires 0 <= k < |findings| => findings[k].findingId)
  }

  /** Both findings of each pair, flattened. */
  function Flattened(pairs: seq<Pair>): seq<Finding> {
    if pairs == [] then []
    else Flattened(pairs[..|pairs| - 1]) + [pairs[|pairs| - 1].malicious, pairs[|pairs| - 1].behaviour]
  }

  /** The distinct finding ids in sorted order. */
  function OrderedIds(findings: seq<Finding>): seq<string> {
    SortBy(StringKey, Unique(FindingIds(findings)))
  }

  predicate BenignMatch(ops: TextOps, evidence: seq<Evidence>, e: Evidence) {
    && HasReputation(e, "benign") && Indicator in e.content && e.content[Indicator].Text?
    && Occurrences(ops, evidence, e.content[Indicator].s) != []
  }

  function BenignAmong(ops: TextOps, evidence: seq<Evidence>, items: seq<Evidence>): seq<Evidence> {
    if items == [] then []
    else
      var last := items[|items| - 1];
      BenignAmong(ops, evidence, items[..|items| - 1]) + if BenignMatch(ops, evidence, last) then [last] else []
  }

  /** The observed allow-list matches. */
  function BenignEvidence(ops: TextOps, evidence: seq<Evidence>): seq<Evidence> {
    BenignAmong(ops, evidence, Select(ops, evidence, OfType(IocReputation)))
  }

  // ----- the decision ------------------------------------------------------------------------------

  ghost function PairsOf(ops: TextOps, evidence: seq<Evidence>, findings: seq<Finding>): seq<Pair> {
    CrossSourcePairs(ops, evidence, Picked(MaliciousGrade, findings), Picked(Behaviour, findings))
  }

  predicate HasCorrelated(findings: seq<Finding>) {
    exists f :: f in findings && f.draft.findingType == CorrelatedAttackPattern
  }

  function DecideFrom(pairs: seq<Pair>, findings: seq<Finding>, benign: seq<Evidence>, completed: bool,
                      noGaps: bool): Verdict
  {
    var malicious, escalated := Picked(MaliciousGrade, findings), Picked(Escalated, findings);
    if pairs != [] && (completed || |pairs| >= 2) then
      Verdict(Malicious, if completed then HighConfidence else MediumConfidence, OrderedIds(Flattened(pairs)),
              EvidenceIds(benign), RuleMalicious)
    else if malicious != [] then
      Verdict(Suspicious, MediumConfidence, FindingIds(malicious), EvidenceIds(benign), RuleSuspicious)
    else if escalated != [] then
      Verdict(Suspicious, if HasCorrelated(escalated) then HighConfidence else MediumConfidence, FindingIds(escalated),
              EvidenceIds(benign), RuleSuspicious)
    else if benign != [] && completed then
      Verdict(Benign, if noGaps then HighConfidence else MediumConfidence, FindingIds(Picked(LowSeverity, findings)),
              [], RuleBenign)
    else
      Verdict(Inconclusive, LowConfidence, [], EvidenceIds(benign), RuleInconclusive)
  }

  ghost function Decide(ops: TextOps, evidence: seq<Evidence>, findings: seq<Finding>, completed: bool,
                        noGaps: bool): Verdict
  {
    DecideFrom(PairsOf(ops, evidence, findings), findings, BenignEvidence(ops, evidence), completed, noGaps)
  }

  /** Every cited id can be looked up. */
  ghost predicate Resolvable(evidence: seq<Evidence>, findings: seq<Finding>) {
    forall f :: f in findings ==> AllKnown(evidence, f.evidenceIds)
  }

  lemma {:induction false} PickedAre(p: Pick, findings: seq<Finding>, f: Finding)
    ensures f in Picked(p, findings) <==> f in findings && Picks(p, f)
  {
    if findings != [] {
      PickedAre(p, findings[..|findings| - 1], f);
      assert findings == findings[..|findings| - 1] + [findings[|findings| - 1]];
    }
  }

  // ----- the engine ----------------------------------------------------------------------------------

  class VerdictEngine {
    const ops: TextOps

    constructor (ops: TextOps)
      ensures this.ops == ops
    {
      this.ops := ops;
    }

    /** Two scans over the cited items, as the source makes them: hash, destination, answer or query first,
        then any script interpreter. Nothing is returned where the source raises for an unknown id. */
    method Links(index: EvidenceIndex, behaviour: Finding, target: string, raw: string) returns (linked: Option<bool>)
      requires index.Valid() && index.ops == ops
      ensures linked.None? <==> MissesItem(ops, index.evidence, behaviour, target, raw)
      ensures linked.Some? ==> (linked.value <==> CitesLink(ops, index.evidence, behaviour, target, raw))
    {
      hide EvidenceIndex.Valid, ItemById, FieldIs, ScriptProcess, HashLike;
      var ids := behaviour.evidenceIds;
      var hashLike := HashLike(raw);
      for n := 0 to |ids|
        invariant forall k :: 0 <= k < n ==> ItemById(index.evidence, ids[k]).Some?
                                             && !LinksById(ops, index.evidence, ids[k], target, raw)
      {
        assert ids[n] in ids;
        var found := index.Item(ids[n]);
        if found.None? {
          return None;
        }
        var item := found.value;
        if hashLike {
          if FieldIs(ops, item, Sha256, target) {
            return Some(true);
          }
          continue;
        }
        if FieldIs(ops, item, DstIp, target) {
          return Some(true);
        }
        if FieldIs(ops, item, Response, target) {
          return Some(true);
        }
        if FieldIs(ops, item, Query, target) {
          if ScriptProcess(ops, item) {
            return Some(true);
          }
        }
      }
      if hashLike {
        return Some(false);
      }
      for n := 0 to |ids|
        invariant forall k :: 0 <= k < n ==> !ScriptProcess(ops, ItemById(index.evidence, ids[k]).value)
      {
        assert ids[n] in ids;
        var item := index.Item(ids[n]).value;
        if ScriptProcess(ops, item) {
          return Some(true);
        }
      }
      return Some(false);
    }

    method PairIndicator(index: EvidenceIndex, malicious: Finding, behaviours: seq<Finding>, raw: string)
      returns (pairs: Option<seq<Pair>>)
      requires index.Valid() && index.ops == ops
      ensures pairs.None? <==> BehavioursFail(ops, index.evidence, behaviours, raw)
      ensures pairs.Some? ==> pairs.value == LinkedBehaviours(ops, index.evidence, malicious, behaviours, raw)
    {
      hide EvidenceIndex.Valid, MissesItem, CitesLink, TextOps.Normalize;
      var linked: seq<Pair> := [];
      for n := 0 to |behaviours|
        invariant linked == LinkedBehaviours(ops, index.evidence, malicious, behaviours[..n], raw)
        invariant forall k :: 0 <= k < n ==> !MissesItem(ops, index.evidence, behaviours[k], ops.Normalize(raw), raw)
      {
        assert behaviours[..n + 1][..n] == behaviours[..n];
        var links := Links(index, behaviours[n], ops.Normalize(raw), raw);
        if links.None? {
          return None;
        }
        if links.value {
          linked := linked + [Pair(malicious, behaviours[n])];
        }
      }
      assert behaviours[..|behaviours|] == behaviours;
      return Some(linked);
    }

    method PairIndicators(index: EvidenceIndex, malicious: Finding, behaviours: seq<Finding>, indicators: seq<string>)
      returns (pairs: Option<seq<Pair>>)
      requires index.Valid() && index.ops == ops
      ensures pairs.None? <==> IndicatorsFail(ops, index.evidence, behaviours, indicators)
      ensures pairs.Some? ==> pairs.value == IndicatorPairs(ops, index.evidence, malicious, behaviours, indicators)
    {
      hide EvidenceIndex.Valid, BehavioursFail, LinkedBehaviours, TextOps.Normalize;
      var all: seq<Pair> := [];
      for k := 0 to |indicators|
        invariant all == IndicatorPairs(ops, index.evidence, malicious, behaviours, indicators[..k])
        invariant forall j :: 0 <= j < k && ops.Normalize(indicators[j]) != "" ==>
                    !BehavioursFail(ops, index.evidence, behaviours, indicators[j])
      {
        assert indicators[..k + 1][..k] == indicators[..k];
        if ops.Normalize(indicators[k]) != "" {
          var more := PairIndicator(index, malicious, behaviours, indicators[k]);
          if more.None? {
            return None;
          }
          all := all + more.value;
        }
      }
      assert indicators[..|indicators|] == indicators;
      return Some(all);
    }

    method PairFindings(index: EvidenceIndex, malicious: seq<Finding>, behaviours: seq<Finding>)
      returns (pairs: Option<seq<Pair>>)
      requires index.Valid() && index.ops == ops
      ensures pairs.None? <==> PairingFails(ops, index.evidence, malicious, behaviours)
      ensures pairs.Some? ==> pairs.value == CrossSourcePairs(ops, index.evidence, malicious, behaviours)
    {
      hide EvidenceIndex.Valid, IndicatorsFail, IndicatorPairs;
      var all: seq<Pair> := [];
      for n := 0 to |malicious|
        invariant all == CrossSourcePairs(ops, index.evidence, malicious[..n], behaviours)
        invariant forall k :: 0 <= k < n ==>
                    !IndicatorsFail(ops, index.evidence, behaviours, malicious[k].relatedIndicators)
      {
        assert malicious[..n + 1][..n] == malicious[..n];
        var more := PairIndicators(index, malicious[n], behaviours, malicious[n].relatedIndicators);
        if more.None? {
          return None;
        }
        all := all + more.value;
      }
      assert malicious[..|malicious|] == malicious;
      return Some(all);
    }

    method ObservedBenignEvidence(index: EvidenceIndex) returns (observed: seq<Evidence>)
      requires index.Valid() && index.ops == ops
      ensures observed == BenignEvidence(ops, index.evidence)
    {
      hide EvidenceIndex.Valid, Occurrences, Select;
      observed := [];
      var items := index.ItemsOfType(IocReputation);
      for n := 0 to |items|
        invariant observed == BenignAmong(ops, index.evidence, items[..n])
      {
        assert items[..n + 1][..n] == items[..n];
        var item := items[n];
        if !HasReputation(item, "benign") {
          continue;
        }
        if Indicator in item.content && item.content[Indicator].Text? {
          var occurrences := index.ObservedOccurrences(item.content[Indicator].s);
          if occurrences != [] {
            observed := observed + [item];
          }
        }
      }
      assert items[..|items|] == items;
    }

    method Pick(p: Pick, findings: seq<Finding>) returns (picked: seq<Finding>)
      ensures picked == Picked(p, findings)
    {
      picked := [];
      for n := 0 to |findings|
        invariant picked == Picked(p, findings[..n])
      {
        assert findings[..n + 1][..n] == findings[..n];
        if Picks(p, findings[n]) {
          picked := picked + [findings[n]];
        }
      }
      assert findings[..|findings|] == findings;
    }

    /** The deterministic verdict: the first rule that matches. Nothing is returned where the source raises
        for a finding citing unknown evidence, which no finding of the engine does. */
    method Build(run: RunRecord, extraction: Extraction, summary: Summary, findings: seq<Finding>)
      returns (verdict: Option<Verdict>)
      requires extraction.Valid()
      ensures verdict.None? <==> PairingFails(ops, extraction.evidence, Picked(MaliciousGrade, findings),
                                              Picked(Behaviour, findings))
      ensures verdict.Some? ==>
                verdict.value
                == Decide(ops, extraction.evidence, findings, Finished(run), summary.informationGaps == [])
    {
      hide EvidenceIndex.Valid, Picked, CrossSourcePairs, BenignEvidence, PairingFails, OrderedIds;
      var index := new EvidenceIndex(ops, extraction.evidence);
      var completed := Finished(run);
      var benign := ObservedBenignEvidence(index);
      var malicious := Pick(MaliciousGrade, findings);
      var behaviours := Pick(Behaviour, findings);
      var found := PairFindings(index, malicious, behaviours);
      if found.None? {
        return None;
      }
      var pairs := found.value;
      if pairs != [] && (completed || |pairs| >= 2) {
        return Some(Verdict(Malicious, if completed then HighConfidence else MediumConfidence,
                            OrderedIds(Flattened(pairs)), EvidenceIds(benign), RuleMalicious));
      }
      if malicious != [] {
        return Some(Verdict(Suspicious, MediumConfidence, FindingIds(malicious), EvidenceIds(benign), RuleSuspicious));
      }
      var escalated := Pick(Escalated, findings);
      if escalated != [] {
        return Some(Verdict(Suspicious, if HasCorrelated(escalated) then HighConfidence else MediumConfidence,
                            FindingIds(escalated), EvidenceIds(benign), RuleSuspicious));
      }
      if benign != [] && completed {
        var low := Pick(LowSeverity, findings);
        return Some(Verdict(Benign, if summary.informationGaps == [] then HighConfidence else MediumConfidence,
                            FindingIds(low), [], RuleBenign));
      }
      return Some(Verdict(Inconclusive, LowConfidence, [], EvidenceIds(benign), RuleInconclusive));
    }
  }

  /** Findings that cite existing evidence never make the pairing fail. */
  lemma ResolvableNeverFails(ops: TextOps, evidence: seq<Evidence>, findings: seq<Finding>)
    requires Resolvable(evidence, findings)
    ensures !PairingFails(ops, evidence, Picked(MaliciousGrade, findings), Picked(Behaviour, findings))
  {
    hide ItemById, Picked, LinksById, TextOps.Normalize;
    forall b | b in Picked(Behaviour, findings) ensures AllKnown(evidence, b.evidenceIds) {
      PickedAre(Behaviour, findings, b);
    }
  }
}
