/** More evidence never lowers a finding or the verdict
    (app/findings/engine.py, app/verdict/engine.py). */
module Monotonicity {
  import opened Contracts
  import opened EvidenceContracts
  import opened EvidenceIndexing
  import opened FindingRules
  import opened FindingLaws
  import opened Ordering
  import opened Queries
  import opened TextOps
  import opened Verdicts

  // ----- growth -------------------------------------------------------------------------

  /** The same fact: id, type and content agree, and an observation stays one. */
  predicate Alike(e: Evidence, f: Evidence) {
    && f.evidenceId == e.evidenceId && f.evidenceType == e.evidenceType && f.content == e.content
    && (TAG_TELEMETRY in e.tags ==> TAG_TELEMETRY in f.tags)
  }

  /** Every item of `items` has its like in `more`. */
  ghost predicate Covers(items: seq<Evidence>, more: seq<Evidence>) {
    forall e :: e in items ==> exists f :: f in more && Alike(e, f)
  }

  /** The evidence `more` extends `evidence`: old ids and contents are unchanged; order, tags and
      additional items are free. */
  ghost predicate Grows(evidence: seq<Evidence>, more: seq<Evidence>) {
    UniqueIds(evidence) && UniqueIds(more) && Covers(evidence, more)
  }

  ghost predicate Subset<T>(a: seq<T>, b: seq<T>) {
    forall x :: x in a ==> x in b
  }

  /** Queries that no additional tag can switch off. */
  predicate Positive(q: Query) {
    match q
    case UnlinkedKnowledge => false
    case InGroup(g, _) => g.ProcessRule? || g.FlowRule? || g.MaliciousIndicators?
    case _ => true
  }

  lemma MatchKept(ops: TextOps, q: Query, e: Evidence, f: Evidence)
    requires Positive(q) && Alike(e, f) && Matches(ops, q, e)
    ensures Matches(ops, q, f)
  {
    hide TextOps.Normalize, TextOps.Stripped, TextOps.Rendered, TextOps.Fold;
  }

  lemma SelectCovers(ops: TextOps, evidence: seq<Evidence>, more: seq<Evidence>, q: Query)
    requires Covers(evidence, more) && Positive(q)
    ensures Covers(Select(ops, evidence, q), Select(ops, more, q))
  {
    hide Select, Matches, Alike;
    forall e | e in Select(ops, evidence, q) ensures exists f :: f in Select(ops, more, q) && Alike(e, f) {
      Selected(ops, evidence, q, e);
      var f :| f in more && Alike(e, f);
      MatchKept(ops, q, e, f);
      Selected(ops, more, q, f);
    }
  }

  lemma HitsCover(ops: TextOps, t: Table, evidence: seq<Evidence>, more: seq<Evidence>, key: string)
    requires Covers(evidence, more)
    ensures Covers(Hits(ops, t, evidence, key), Hits(ops, t, more, key))
  {
    hide Hits, KeysOf;
    forall e | e in Hits(ops, t, evidence, key) ensures exists f :: f in Hits(ops, t, more, key) && Alike(e, f) {
      HitsBelong(ops, t, evidence, key, e);
      var f :| f in more && Alike(e, f);
      SameKeys(ops, t, e, f);
      HitsBelong(ops, t, more, key, f);
    }
  }

  lemma SameKeys(ops: TextOps, t: Table, e: Evidence, f: Evidence)
    requires e.content == f.content
    ensures KeysOf(ops, t, e) == KeysOf(ops, t, f)
  {
  }

  lemma CoveredIds(items: seq<Evidence>, more: seq<Evidence>)
    requires Covers(items, more)
    ensures Subset(EvidenceIds(items), EvidenceIds(more))
    ensures items != [] ==> more != []
  {
    if items != [] { assert items[0] in items; }
    forall id | id in EvidenceIds(items) ensures id in EvidenceIds(more) {
      var k :| 0 <= k < |items| && EvidenceIds(items)[k] == id;
      assert items[k] in items;
      var f :| f in more && Alike(items[k], f);
      var j :| 0 <= j < |more| && more[j] == f;
      assert EvidenceIds(more)[j] == id;
    }
  }

  lemma SelectKept(ops: TextOps, evidence: seq<Evidence>, more: seq<Evidence>, q: Query)
    requires Covers(evidence, more) && Positive(q)
    ensures Covers(Select(ops, evidence, q), Select(ops, more, q))
    ensures Subset(EvidenceIds(Select(ops, evidence, q)), EvidenceIds(Select(ops, more, q)))
    ensures Select(ops, evidence, q) != [] ==> Select(ops, more, q) != []
  {
    hide Select, Covers;
    SelectCovers(ops, evidence, more, q);
    CoveredIds(Select(ops, evidence, q), Select(ops, more, q));
  }

  // ----- drafts only get stronger ------------------------------------------------------------

  /** The same conclusion, at least as severe and as well supported, on at least the same evidence. */
  ghost predicate Stronger(d: Draft, n: Draft) {
    && n.key == d.key && n.findingType == d.findingType
    && d.severity.Rank() <= n.severity.Rank() && d.support.Rank() <= n.support.Rank()
    && Subset(d.evidenceIds, n.evidenceIds)
    && (d.key.IndicatorKey? ==> n.relatedIndicators == d.relatedIndicators)
  }

  ghost predicate OnlyStronger(d: Option<Draft>, n: Option<Draft>) {
    d.Some? ==> n.Some? && Stronger(d.value, n.value)
  }

  lemma ProcessGrows(ops: TextOps, group: seq<string>, items: seq<Evidence>, more: seq<Evidence>)
    requires Covers(items, more)
    ensures OnlyStronger(ProcessDraft(ops, group, items), ProcessDraft(ops, group, more))
  {
    hide AnyMarker, TextOps.Stripped, NonEmpty, EvidenceIds, Covers;
    CoveredIds(items, more);
    LinesKept(ops, items, more, ENCODING_MARKERS);
    LinesKept(ops, items, more, HIDDEN_MARKERS);
    FoldersKept(ops, items, more);
  }

  lemma LinesKept(ops: TextOps, items: seq<Evidence>, more: seq<Evidence>, markers: seq<string>)
    requires Covers(items, more)
    ensures (exists e :: e in items && LineHas(ops, e, markers)) ==> exists f :: f in more && LineHas(ops, f, markers)
  {
    hide AnyMarker, TextOps.Stripped;
    if exists e :: e in items && LineHas(ops, e, markers) {
      var e :| e in items && LineHas(ops, e, markers);
      var f :| f in more && Alike(e, f);
      assert LineHas(ops, f, markers);
    }
  }

  lemma FoldersKept(ops: TextOps, items: seq<Evidence>, more: seq<Evidence>)
    requires Covers(items, more)
    ensures (exists e :: e in items && FromTempFolder(ops, e)) ==> exists f :: f in more && FromTempFolder(ops, f)
  {
    hide AnyMarker, TextOps.Stripped;
    if exists e :: e in items && FromTempFolder(ops, e) {
      var e :| e in items && FromTempFolder(ops, e);
      var f :| f in more && Alike(e, f);
      assert FromTempFolder(ops, f);
    }
  }

  lemma FileGrows(ops: TextOps, evidence: seq<Evidence>, more: seq<Evidence>, record: Evidence, twin: Evidence)
    requires Covers(evidence, more) && Alike(record, twin)
    ensures OnlyStronger(FileDraft(ops, evidence, record), FileDraft(ops, more, twin))
  {
    hide Select, Hits, AnyMarker, NonEmpty, EvidenceIds, Covers, TextOps.Stripped, TextOps.Normalize, TextOps.Fold;
    SameStripped(ops, record, twin);
    var sha256, path := ops.Stripped(record.content, Sha256), ops.Stripped(record.content, Path);
    SelectKept(ops, evidence, more, HashReputation(sha256, "malicious"));
    SelectKept(ops, evidence, more, HashReputation(sha256, "suspicious"));
    HitsCover(ops, ByPath, evidence, more, ops.Fold(path));
    SelectKept(ops, Hits(ops, ByPath, evidence, ops.Fold(path)), Hits(ops, ByPath, more, ops.Fold(path)),
               EndpointRecords);
  }

  lemma SameStripped(ops: TextOps, e: Evidence, f: Evidence)
    requires e.content == f.content
    ensures forall field :: ops.Stripped(e.content, field) == ops.Stripped(f.content, field)
  {
  }

  lemma NetworkGrows(ops: TextOps, evidence: seq<Evidence>, more: seq<Evidence>, group: seq<string>,
                     items: seq<Evidence>, now: seq<Evidence>)
    requires Covers(evidence, more) && Covers(items, now)
    ensures OnlyStronger(NetworkDraft(ops, evidence, group, items), NetworkDraft(ops, more, group, now))
  {
    hide Select, EvidenceIds, TextOps.Stripped, TextOps.Normalize;
    CoveredIds(items, now);
    if |group| == 3 {
      SelectKept(ops, evidence, more, AnswersTo(ops.Normalize(group[0])));
      if exists e :: e in items && ByInterpreter(ops, e) {
        var e :| e in items && ByInterpreter(ops, e);
        var f :| f in now && Alike(e, f);
        assert ByInterpreter(ops, f);
      }
    }
  }

  lemma OccurrencesKept(ops: TextOps, evidence: seq<Evidence>, more: seq<Evidence>, indicator: string)
    requires Covers(evidence, more)
    ensures Covers(Occurrences(ops, evidence, indicator), Occurrences(ops, more, indicator))
    ensures Subset(EvidenceIds(Occurrences(ops, evidence, indicator)), EvidenceIds(Occurrences(ops, more, indicator)))
    ensures Occurrences(ops, evidence, indicator) != [] ==> Occurrences(ops, more, indicator) != []
  {
    hide Select, TextOps.Normalize;
    SelectKept(ops, evidence, more, ObservedAs(ops.Normalize(indicator)));
  }

  lemma TargetsKept(ops: TextOps, items: seq<Evidence>, more: seq<Evidence>, field: Field, target: string)
    requires Covers(items, more)
    ensures (exists e :: e in items && Targets(ops, e, field, target)) ==>
            exists f :: f in more && Targets(ops, f, field, target)
  {
    hide TextOps.Stripped, TextOps.Normalize;
    if exists e :: e in items && Targets(ops, e, field, target) {
      var e :| e in items && Targets(ops, e, field, target);
      var f :| f in more && Alike(e, f);
      assert Targets(ops, f, field, target);
    }
  }

  lemma HashesKept(ops: TextOps, items: seq<Evidence>, more: seq<Evidence>, indicator: string)
    requires Covers(items, more)
    ensures (exists e :: e in items && HasHash(ops, e, indicator)) ==>
            exists f :: f in more && HasHash(ops, f, indicator)
  {
    hide TextOps.Stripped;
    if exists e :: e in items && HasHash(ops, e, indicator) {
      var e :| e in items && HasHash(ops, e, indicator);
      var f :| f in more && Alike(e, f);
      assert HasHash(ops, f, indicator);
    }
  }

  lemma IndicatorGrows(ops: TextOps, evidence: seq<Evidence>, more: seq<Evidence>, group: seq<string>,
                       reputations: seq<Evidence>, now: seq<Evidence>)
    requires Covers(evidence, more) && Covers(reputations, now)
    ensures OnlyStronger(IndicatorDraft(ops, evidence, group, reputations), IndicatorDraft(ops, more, group, now))
  {
    hide Occurrences, EvidenceIds, Targets, HasHash, Covers, TextOps.Normalize;
    CoveredIds(reputations, now);
    if |group| == 1 {
      OccurrencesKept(ops, evidence, more, group[0]);
      var observed, nowObserved := Occurrences(ops, evidence, group[0]), Occurrences(ops, more, group[0]);
      TargetsKept(ops, observed, nowObserved, DstIp, ops.Normalize(group[0]));
      TargetsKept(ops, observed, nowObserved, Response, ops.Normalize(group[0]));
      HashesKept(ops, observed, nowObserved, group[0]);
    }
  }

  lemma {:induction false} RecordIdsAre(items: seq<Evidence>, id: string)
    ensures Distinct(DistinctRecordIds(items))
    ensures id in DistinctRecordIds(items) <==> id != "" && exists e :: e in items && TextAt(e.content, RecordId) == id
  {
    hide TextAt;
    if items != [] {
      var before, last := items[..|items| - 1], items[|items| - 1];
      assert items == before + [last];
      RecordIdsAre(before, id);
      if id in DistinctRecordIds(before) {
        var e :| e in before && TextAt(e.content, RecordId) == id;
        assert e in items;
      } else if id != "" && TextAt(last.content, RecordId) == id {
        assert last in items;
      }
    }
  }

  lemma {:induction false} SubsetIsShorter<T>(a: seq<T>, b: seq<T>)
    requires Distinct(a) && Subset(a, b)
    ensures |a| <= |b|
  {
    if a != [] {
      var front, x := a[..|a| - 1], a[|a| - 1];
      assert x in a;
      var i :| 0 <= i < |b| && b[i] == x;
      var rest := b[..i] + b[i + 1..];
      forall y | y in front ensures y in rest {
        assert y in a;
        var j :| 0 <= j < |b| && b[j] == y;
        var k :| 0 <= k < |front| && front[k] == y;
        assert a[k] == y && j != i;
        assert rest[if j < i then j else j - 1] == y;
      }
      SubsetIsShorter(front, rest);
    }
  }

  lemma RecordCountKept(items: seq<Evidence>, more: seq<Evidence>)
    requires Covers(items, more)
    ensures |DistinctRecordIds(items)| <= |DistinctRecordIds(more)|
  {
    hide DistinctRecordIds, TextAt;
    RecordIdsAre(items, "");
    forall id | id in DistinctRecordIds(items) ensures id in DistinctRecordIds(more) {
      RecordIdsAre(items, id);
      RecordIdsAre(more, id);
      var e :| e in items && TextAt(e.content, RecordId) == id;
      var f :| f in more && Alike(e, f);
      assert TextAt(f.content, RecordId) == id;
    }
    SubsetIsShorter(DistinctRecordIds(items), DistinctRecordIds(more));
  }

  lemma FlowGrows(ops: TextOps, evidence: seq<Evidence>, more: seq<Evidence>, dns: Evidence, twin: Evidence)
    requires Covers(evidence, more) && Alike(dns, twin)
    ensures OnlyStronger(FlowDraft(ops, evidence, dns), FlowDraft(ops, more, twin))
  {
    hide Select, NonEmpty, EvidenceIds, DistinctRecordIds, TextOps.Stripped, TextOps.Normalize;
    SameStripped(ops, dns, twin);
    var resolved := ops.Stripped(dns.content, Response);
    var q := FlowsFrom(resolved, ops.Stripped(dns.content, Host), ops.Stripped(dns.content, ProcessName));
    SelectKept(ops, evidence, more, q);
    SelectKept(ops, evidence, more, InGroup(MaliciousIndicators, [ops.Normalize(resolved)]));
    var flows, now := Select(ops, evidence, q), Select(ops, more, q);
    forall e | e in [dns] + flows ensures exists f :: f in [twin] + now && Alike(e, f) {
      if e in flows {
        var f :| f in now && Alike(e, f);
        assert f in [twin] + now;
      } else {
        assert twin in [twin] + now;
      }
    }
    RecordCountKept([dns] + flows, [twin] + now);
  }

  lemma WriteGrows(ops: TextOps, evidence: seq<Evidence>, more: seq<Evidence>, record: Evidence, twin: Evidence)
    requires Covers(evidence, more) && Alike(record, twin)
    ensures OnlyStronger(WriteDraft(ops, evidence, record), WriteDraft(ops, more, twin))
  {
    hide Select, AnyMarker, NonEmpty, EvidenceIds, Covers, TextOps.Stripped, TextOps.Normalize;
    SameStripped(ops, record, twin);
    SelectKept(ops, evidence, more, WritesTo(ops.Stripped(record.content, Path)));
    SelectKept(ops, evidence, more,
               InGroup(MaliciousIndicators, [ops.Normalize(ops.Stripped(record.content, Sha256))]));
  }

  lemma TwinOf(evidence: seq<Evidence>, more: seq<Evidence>, id: string)
    requires Grows(evidence, more) && ItemById(evidence, id).Some?
    ensures ItemById(more, id).Some? && Alike(ItemById(evidence, id).value, ItemById(more, id).value)
  {
    var e := ItemById(evidence, id).value;
    var f :| f in more && Alike(e, f);
    ItemByItsId(more, f);
  }

  /** Under its rule key, a draft stays and only gets stronger. */
  lemma DraftGrows(ops: TextOps, evidence: seq<Evidence>, more: seq<Evidence>, key: RuleKey)
    requires Grows(evidence, more)
    ensures OnlyStronger(DraftFor(ops, evidence, key), DraftFor(ops, more, key))
  {
    hide Select, ProcessDraft, FileDraft, NetworkDraft, IndicatorDraft, FlowDraft, WriteDraft, ItemById, Covers;
    match key
    case ProcessKey(group) =>
      SelectKept(ops, evidence, more, InGroup(ProcessRule, group));
      ProcessGrows(ops, group, Select(ops, evidence, InGroup(ProcessRule, group)),
                   Select(ops, more, InGroup(ProcessRule, group)));
    case NetworkKey(group) =>
      SelectKept(ops, evidence, more, InGroup(FlowRule, group));
      NetworkGrows(ops, evidence, more, group, Select(ops, evidence, InGroup(FlowRule, group)),
                   Select(ops, more, InGroup(FlowRule, group)));
    case IndicatorKey(group) =>
      SelectKept(ops, evidence, more, InGroup(MaliciousIndicators, group));
      IndicatorGrows(ops, evidence, more, group, Select(ops, evidence, InGroup(MaliciousIndicators, group)),
                     Select(ops, more, InGroup(MaliciousIndicators, group)));
    case FileKey(id) =>
      if ItemById(evidence, id).Some? {
        TwinOf(evidence, more, id);
        FileGrows(ops, evidence, more, ItemById(evidence, id).value, ItemById(more, id).value);
      }
    case FlowKey(id) =>
      if ItemById(evidence, id).Some? {
        TwinOf(evidence, more, id);
        FlowGrows(ops, evidence, more, ItemById(evidence, id).value, ItemById(more, id).value);
      }
    case WriteKey(id) =>
      if ItemById(evidence, id).Some? {
        TwinOf(evidence, more, id);
        WriteGrows(ops, evidence, more, ItemById(evidence, id).value, ItemById(more, id).value);
      }
  }

  lemma TriggerKept(ops: TextOps, evidence: seq<Evidence>, more: seq<Evidence>, rule: Rule, key: RuleKey)
    requires Covers(evidence, more) && Triggers(ops, evidence, rule, key)
    ensures Triggers(ops, more, rule, key)
  {
    hide Matches, Grouped, GroupKey;
    if ByGroup(rule) {
      var g := GroupingOf(rule);
      var e :| e in evidence && Grouped(ops, g, e) && key == KeyFromGroup(rule, GroupKey(ops, g, e));
      var f :| f in more && Alike(e, f);
      SameGroup(ops, g, e, f);
    } else {
      var e :| e in evidence && Matches(ops, TriggerOf(rule), e) && key == KeyFromItem(rule, e.evidenceId);
      var f :| f in more && Alike(e, f);
      MatchKept(ops, TriggerOf(rule), e, f);
    }
  }

  lemma SameGroup(ops: TextOps, g: Grouping, e: Evidence, f: Evidence)
    requires Alike(e, f) && (g.ProcessRule? || g.FlowRule? || g.MaliciousIndicators?)
    ensures Grouped(ops, g, e) ==> Grouped(ops, g, f)
    ensures GroupKey(ops, g, e) == GroupKey(ops, g, f)
  {
  }

  /** Each old draft maps by its rule key to a new draft that is at least as strong. */
  lemma EveryDraftGrows(ops: TextOps, evidence: seq<Evidence>, more: seq<Evidence>, d: Draft) returns (n: Draft)
    requires Grows(evidence, more) && d in Drafts(ops, evidence)
    ensures n in Drafts(ops, more) && Stronger(d, n)
  {
    hide DraftFor, AllKeys, Triggers, Covers;
    CollectedAre(ops, evidence, AllKeys(ops, evidence), d);
    AllKeysAre(ops, evidence, d.key);
    var rule :| Triggers(ops, evidence, rule, d.key);
    TriggerKept(ops, evidence, more, rule, d.key);
    AllKeysAre(ops, more, d.key);
    DraftGrows(ops, evidence, more, d.key);
    n := DraftFor(ops, more, d.key).value;
    CollectedAre(ops, more, AllKeys(ops, more), n);
  }

  /** Each old finding maps to a new finding about the same key, at least as strong, citing at least the same
      evidence. */
  lemma EveryFindingGrows(ops: TextOps, evidence: seq<Evidence>, more: seq<Evidence>, f: Finding) returns (n: Finding)
    requires Grows(evidence, more) && f in FindingsOf(ops, evidence)
    ensures n in FindingsOf(ops, more) && Stronger(f.draft, n.draft) && Subset(f.evidenceIds, n.evidenceIds)
    ensures f.draft.key.IndicatorKey? ==> n.relatedIndicators == f.relatedIndicators
  {
    hide Drafts, FindingsFrom, AllKnown, Unique, DraftKeys;
    FindingsAreGrounded(ops, evidence);
    FindingsAreGrounded(ops, more);
    var before, after := FindingsOf(ops, evidence), FindingsOf(ops, more);
    var k :| 0 <= k < |before| && before[k] == f;
    assert f.draft in Drafts(ops, evidence);
    var d := EveryDraftGrows(ops, evidence, more, f.draft);
    var j :| 0 <= j < |Drafts(ops, more)| && Drafts(ops, more)[j] == d;
    n := after[j];
    FindingShape(ops, evidence, k);
    FindingShape(ops, more, j);
  }

  lemma FindingShape(ops: TextOps, evidence: seq<Evidence>, k: nat)
    requires k < |FindingsOf(ops, evidence)|
    ensures var f := FindingsOf(ops, evidence)[k]; f.relatedIndicators == Unique(f.draft.relatedIndicators)
  {
    hide Drafts, Unique;
    DraftsGrounded(ops, evidence);
    NothingPassedOver(evidence, Drafts(ops, evidence));
  }

  // ----- the pair list never shrinks -----------------------------------------------------------

  function PairKeys(pairs: seq<Pair>): seq<(RuleKey, RuleKey)> {
    seq(|pairs|, k requires 0 <= k < |pairs| => (pairs[k].malicious.draft.key, pairs[k].behaviour.draft.key))
  }

  ghost predicate IsPair(ops: TextOps, evidence: seq<Evidence>, p: Pair, raw: string) {
    && raw in p.malicious.relatedIndicators && ops.Normalize(raw) != ""
    && CitesLink(ops, evidence, p.behaviour, ops.Normalize(raw), raw)
  }

  lemma {:induction false} LinkedAre(ops: TextOps, evidence: seq<Evidence>, m: Finding, behaviours: seq<Finding>,
                                     raw: string, p: Pair)
    ensures p in LinkedBehaviours(ops, evidence, m, behaviours, raw)
            <==> p.malicious == m && p.behaviour in behaviours
                 && CitesLink(ops, evidence, p.behaviour, ops.Normalize(raw), raw)
  {
    hide CitesLink;
    if behaviours != [] {
      LinkedAre(ops, evidence, m, behaviours[..|behaviours| - 1], raw, p);
      assert behaviours == behaviours[..|behaviours| - 1] + [behaviours[|behaviours| - 1]];
    }
  }

  lemma {:induction false} IndicatorPairsAre(ops: TextOps, evidence: seq<Evidence>, m: Finding,
                                             behaviours: seq<Finding>, indicators: seq<string>, p: Pair)
    ensures p in IndicatorPairs(ops, evidence, m, behaviours, indicators)
            <==> p.malicious == m && p.behaviour in behaviours
                 && exists raw :: raw in indicators && ops.Normalize(raw) != ""
                                  && CitesLink(ops, evidence, p.behaviour, ops.Normalize(raw), raw)
  {
    hide CitesLink, LinkedBehaviours, TextOps.Normalize;
    if indicators != [] {
      var before, last := indicators[..|indicators| - 1], indicators[|indicators| - 1];
      assert indicators == before + [last];
      IndicatorPairsAre(ops, evidence, m, behaviours, before, p);
      LinkedAre(ops, evidence, m, behaviours, last, p);
    }
  }

  /** The pairs are exactly the linked combinations of a malicious and a behaviour finding. */
  lemma {:induction false} CrossSourcePairsAre(ops: TextOps, evidence: seq<Evidence>, malicious: seq<Finding>,
                                               behaviours: seq<Finding>, p: Pair)
    ensures p in CrossSourcePairs(ops, evidence, malicious, behaviours)
            <==> p.malicious in malicious && p.behaviour in behaviours && exists raw :: IsPair(ops, evidence, p, raw)
  {
    hide CitesLink, IndicatorPairs, TextOps.Normalize;
    if malicious != [] {
      var before, last := malicious[..|malicious| - 1], malicious[|malicious| - 1];
      assert malicious == before + [last];
      CrossSourcePairsAre(ops, evidence, before, behaviours, p);
      IndicatorPairsAre(ops, evidence, last, behaviours, last.relatedIndicators, p);
      if p.malicious == last && p in IndicatorPairs(ops, evidence, last, behaviours, last.relatedIndicators) {
        var raw :| raw in last.relatedIndicators && ops.Normalize(raw) != ""
                   && CitesLink(ops, evidence, p.behaviour, ops.Normalize(raw), raw);
        assert IsPair(ops, evidence, p, raw);
      }
    }
  }

  function FindingKeys(findings: seq<Finding>): seq<RuleKey> {
    seq(|findings|, k requires 0 <= k < |findings| => findings[k].draft.key)
  }

  lemma FrontKeys(findings: seq<Finding>)
    requires findings != [] && Distinct(FindingKeys(findings))
    ensures Distinct(FindingKeys(findings[..|findings| - 1]))
    ensures forall f :: f in findings[..|findings| - 1] ==> f.draft.key != findings[|findings| - 1].draft.key
  {
    var keys, front := FindingKeys(findings), FindingKeys(findings[..|findings| - 1]);
    forall j, k | 0 <= j < k < |front| ensures front[j] != front[k] {
      assert front[j] == keys[j] && front[k] == keys[k];
    }
    forall f | f in findings[..|findings| - 1] ensures f.draft.key != findings[|findings| - 1].draft.key {
      var i :| 0 <= i < |findings| - 1 && findings[..|findings| - 1][i] == f;
      assert keys[i] != keys[|findings| - 1];
    }
  }

  lemma {:induction false} PickedKeysDistinct(p: Pick, findings: seq<Finding>)
    requires Distinct(FindingKeys(findings))
    ensures Distinct(FindingKeys(Picked(p, findings)))
  {
    hide Picks;
    if findings != [] {
      var before, last := findings[..|findings| - 1], findings[|findings| - 1];
      FrontKeys(findings);
      PickedKeysDistinct(p, before);
      var inner := Picked(p, before);
      forall j | 0 <= j < |inner| ensures inner[j].draft.key != last.draft.key {
        PickedAre(p, before, inner[j]);
      }
      assert FindingKeys(inner + [last]) == FindingKeys(inner) + [last.draft.key];
      assert Picked(p, findings) == inner || Picked(p, findings) == inner + [last];
    }
  }

  lemma {:induction false} LinkedDistinct(ops: TextOps, evidence: seq<Evidence>, m: Finding, behaviours: seq<Finding>,
                                          raw: string)
    requires Distinct(FindingKeys(behaviours))
    ensures Distinct(PairKeys(LinkedBehaviours(ops, evidence, m, behaviours, raw)))
  {
    hide CitesLink;
    if behaviours != [] {
      var before, last := behaviours[..|behaviours| - 1], behaviours[|behaviours| - 1];
      FrontKeys(behaviours);
      LinkedDistinct(ops, evidence, m, before, raw);
      var inner := LinkedBehaviours(ops, evidence, m, before, raw);
      forall j | 0 <= j < |inner| ensures inner[j].behaviour.draft.key != last.draft.key {
        LinkedAre(ops, evidence, m, before, raw, inner[j]);
      }
      assert PairKeys(inner + [Pair(m, last)]) == PairKeys(inner) + [(m.draft.key, last.draft.key)];
      var all := LinkedBehaviours(ops, evidence, m, behaviours, raw);
      assert all == inner || all == inner + [Pair(m, last)];
    }
  }

  lemma {:induction false} PairsDistinct(ops: TextOps, evidence: seq<Evidence>, malicious: seq<Finding>,
                                         behaviours: seq<Finding>)
    requires Distinct(FindingKeys(malicious)) && Distinct(FindingKeys(behaviours))
    requires forall m :: m in malicious ==> |m.relatedIndicators| <= 1
    ensures Distinct(PairKeys(CrossSourcePairs(ops, evidence, malicious, behaviours)))
  {
    hide LinkedBehaviours, TextOps.Normalize;
    if malicious != [] {
      var before, last := malicious[..|malicious| - 1], malicious[|malicious| - 1];
      FrontKeys(malicious);
      PairsDistinct(ops, evidence, before, behaviours);
      var inner, tail := CrossSourcePairs(ops, evidence, before, behaviours),
                         IndicatorPairs(ops, evidence, last, behaviours, last.relatedIndicators);
      assert last in malicious;
      OnePairList(ops, evidence, last, behaviours);
      forall a, b | a in PairKeys(inner) && b in PairKeys(tail) ensures a != b {
        var i :| 0 <= i < |inner| && PairKeys(inner)[i] == a;
        var j :| 0 <= j < |tail| && PairKeys(tail)[j] == b;
        CrossSourcePairsAre(ops, evidence, before, behaviours, inner[i]);
        IndicatorPairsAre(ops, evidence, last, behaviours, last.relatedIndicators, tail[j]);
      }
      assert PairKeys(inner + tail) == PairKeys(inner) + PairKeys(tail);
      AppendDistinct(PairKeys(inner), PairKeys(tail));
    }
  }

  lemma OnePairList(ops: TextOps, evidence: seq<Evidence>, m: Finding, behaviours: seq<Finding>)
    requires Distinct(FindingKeys(behaviours)) && |m.relatedIndicators| <= 1
    ensures Distinct(PairKeys(IndicatorPairs(ops, evidence, m, behaviours, m.relatedIndicators)))
  {
    var indicators := m.relatedIndicators;
    var all := IndicatorPairs(ops, evidence, m, behaviours, indicators);
    if indicators == [] {
      assert PairKeys(all) == [];
    } else {
      hide LinkedBehaviours, TextOps.Normalize;
      var raw := indicators[0];
      assert indicators[..|indicators| - 1] == [];
      assert IndicatorPairs(ops, evidence, m, behaviours, []) == [];
      var linked := LinkedBehaviours(ops, evidence, m, behaviours, raw);
      LinkedDistinct(ops, evidence, m, behaviours, raw);
      if ops.Normalize(raw) == "" {
        assert all == [] && PairKeys(all) == [];
      } else {
        assert all == [] + linked == linked;
      }
    }
  }

  lemma MaliciousIsIndicator(ops: TextOps, evidence: seq<Evidence>, f: Finding)
    requires UniqueIds(evidence) && f in FindingsOf(ops, evidence) && f.draft.findingType == MaliciousIndicatorMatch
    ensures f.draft.key.IndicatorKey? && |f.relatedIndicators| == 1
  {
    hide Drafts, FindingsFrom, AllKnown, Unique, AllKeys;
    FindingsAreGrounded(ops, evidence);
    var k :| 0 <= k < |FindingsOf(ops, evidence)| && FindingsOf(ops, evidence)[k] == f;
    FindingShape(ops, evidence, k);
    DraftIsMade(ops, evidence, f.draft);
    OneIndicator(ops, evidence, f.draft);
  }

  lemma OneIndicator(ops: TextOps, evidence: seq<Evidence>, d: Draft)
    requires DraftFor(ops, evidence, d.key) == Some(d) && d.findingType == MaliciousIndicatorMatch
    ensures d.key.IndicatorKey? && |Unique(d.relatedIndicators)| == 1
  {
    hide Select, Hits, AnyMarker, NonEmpty, EvidenceIds, Occurrences, DistinctRecordIds, ItemById;
    hide TextOps.Stripped, TextOps.Normalize, LineHas, FromTempFolder, ByInterpreter;
    if d.key.IndicatorKey? {
      var one := d.relatedIndicators;
      assert |one| == 1 && one[..0] == [];
      assert Unique(one) == [one[0]];
    }
  }

  ghost predicate KeysUnique(findings: seq<Finding>) {
    Distinct(FindingKeys(findings))
  }

  lemma FindingKeysDistinct(ops: TextOps, evidence: seq<Evidence>)
    requires UniqueIds(evidence)
    ensures KeysUnique(FindingsOf(ops, evidence))
  {
    hide Drafts, FindingsFrom, AllKnown;
    FindingsAreGrounded(ops, evidence);
    assert FindingKeys(FindingsOf(ops, evidence)) == DraftKeys(Drafts(ops, evidence));
  }

  lemma PairKept(ops: TextOps, evidence: seq<Evidence>, more: seq<Evidence>, p: Pair) returns (n: Pair)
    requires Grows(evidence, more) && p in PairsOf(ops, evidence, FindingsOf(ops, evidence))
    ensures n in PairsOf(ops, more, FindingsOf(ops, more))
    ensures n.malicious.draft.key == p.malicious.draft.key && n.behaviour.draft.key == p.behaviour.draft.key
  {
    hide FindingsOf, Picked, CrossSourcePairs, CitesLink, Covers, TextOps.Normalize;
    var findings, now := FindingsOf(ops, evidence), FindingsOf(ops, more);
    CrossSourcePairsAre(ops, evidence, Picked(MaliciousGrade, findings), Picked(Behaviour, findings), p);
    PickedAre(MaliciousGrade, findings, p.malicious);
    PickedAre(Behaviour, findings, p.behaviour);
    var m := EveryFindingGrows(ops, evidence, more, p.malicious);
    var b := EveryFindingGrows(ops, evidence, more, p.behaviour);
    MaliciousIsIndicator(ops, evidence, p.malicious);
    n := Pair(m, b);
    PickedAre(MaliciousGrade, now, m);
    PickedAre(Behaviour, now, b);
    var raw :| IsPair(ops, evidence, p, raw);
    LinkKept(ops, evidence, more, p.behaviour, b, ops.Normalize(raw), raw);
    assert IsPair(ops, more, n, raw);
    CrossSourcePairsAre(ops, more, Picked(MaliciousGrade, now), Picked(Behaviour, now), n);
  }

  lemma LinkKept(ops: TextOps, evidence: seq<Evidence>, more: seq<Evidence>, f: Finding, n: Finding, target: string,
                 raw: string)
    requires Grows(evidence, more) && Subset(f.evidenceIds, n.evidenceIds)
    requires CitesLink(ops, evidence, f, target, raw)
    ensures CitesLink(ops, more, n, target, raw)
  {
    hide ItemById, Covers, HashLike, TextOps.Normalize, TextOps.Rendered;
    var id :| id in f.evidenceIds && ItemById(evidence, id).Some?
              && ItemLinks(ops, ItemById(evidence, id).value, target, raw);
    TwinOf(evidence, more, id);
    assert id in n.evidenceIds && ItemLinks(ops, ItemById(more, id).value, target, raw);
  }

  /** No two pairs of the evidence's own findings are about the same two keys. */
  lemma OwnPairsDistinct(ops: TextOps, evidence: seq<Evidence>)
    requires UniqueIds(evidence)
    ensures Distinct(PairKeys(PairsOf(ops, evidence, FindingsOf(ops, evidence))))
  {
    hide FindingsOf, Picked, CrossSourcePairs, Picks;
    var findings := FindingsOf(ops, evidence);
    FindingKeysDistinct(ops, evidence);
    PickedKeysDistinct(MaliciousGrade, findings);
    PickedKeysDistinct(Behaviour, findings);
    forall m | m in Picked(MaliciousGrade, findings) ensures |m.relatedIndicators| <= 1 {
      SingleIndicator(ops, evidence, m);
    }
    PairsDistinct(ops, evidence, Picked(MaliciousGrade, findings), Picked(Behaviour, findings));
  }

  /** The number of cross-source pairs never goes down. */
  lemma PairsNeverShrink(ops: TextOps, evidence: seq<Evidence>, more: seq<Evidence>)
    requires Grows(evidence, more)
    ensures |PairsOf(ops, evidence, FindingsOf(ops, evidence))| <= |PairsOf(ops, more, FindingsOf(ops, more))|
  {
    hide FindingsOf, Picked, CrossSourcePairs, Covers, Picks;
    var findings := FindingsOf(ops, evidence);
    var pairs, now := PairsOf(ops, evidence, findings), PairsOf(ops, more, FindingsOf(ops, more));
    OwnPairsDistinct(ops, evidence);
    forall key | key in PairKeys(pairs) ensures key in PairKeys(now) {
      var k :| 0 <= k < |pairs| && PairKeys(pairs)[k] == key;
      var n := PairKept(ops, evidence, more, pairs[k]);
      var j :| 0 <= j < |now| && now[j] == n;
      assert PairKeys(now)[j] == key;
    }
    SubsetIsShorter(PairKeys(pairs), PairKeys(now));
  }

  lemma SingleIndicator(ops: TextOps, evidence: seq<Evidence>, m: Finding)
    requires UniqueIds(evidence) && m in Picked(MaliciousGrade, FindingsOf(ops, evidence))
    ensures |m.relatedIndicators| <= 1
  {
    hide FindingsOf, Picked;
    PickedAre(MaliciousGrade, FindingsOf(ops, evidence), m);
    MaliciousIsIndicator(ops, evidence, m);
  }

  // ----- the verdict ---------------------------------------------------------------------------

  ghost function VerdictOf(ops: TextOps, evidence: seq<Evidence>, completed: bool, noGaps: bool): Verdict {
    Decide(ops, evidence, FindingsOf(ops, evidence), completed, noGaps)
  }

  lemma PickKept(ops: TextOps, evidence: seq<Evidence>, more: seq<Evidence>, p: Pick)
    requires Grows(evidence, more) && (p.MaliciousGrade? || p.Escalated?)
    ensures Picked(p, FindingsOf(ops, evidence)) != [] ==> Picked(p, FindingsOf(ops, more)) != []
  {
    hide FindingsOf, Picked, Covers;
    var picked := Picked(p, FindingsOf(ops, evidence));
    if picked != [] {
      assert picked[0] in picked;
      PickedAre(p, FindingsOf(ops, evidence), picked[0]);
      var n := EveryFindingGrows(ops, evidence, more, picked[0]);
      PickedAre(p, FindingsOf(ops, more), n);
    }
  }

  lemma PairsNeedMalicious(ops: TextOps, evidence: seq<Evidence>, findings: seq<Finding>)
    ensures PairsOf(ops, evidence, findings) != [] ==> Picked(MaliciousGrade, findings) != []
  {
    hide Picked, LinkedBehaviours;
  }

  /** More evidence never lowers the disposition, whether the run is judged as completed both times, neither
      time, or only with the larger evidence. */
  lemma VerdictIsMonotone(ops: TextOps, evidence: seq<Evidence>, more: seq<Evidence>, completed: bool,
                          laterCompleted: bool, gaps: bool, moreGaps: bool)
    requires Grows(evidence, more) && (completed ==> laterCompleted)
    ensures VerdictOf(ops, evidence, completed, gaps).disposition.Rank()
            <= VerdictOf(ops, more, laterCompleted, moreGaps).disposition.Rank()
  {
    hide FindingsOf, Picked, CrossSourcePairs, Covers, BenignEvidence, OrderedIds, Flattened;
    PairsNeverShrink(ops, evidence, more);
    PickKept(ops, evidence, more, MaliciousGrade);
    PickKept(ops, evidence, more, Escalated);
    PairsNeedMalicious(ops, evidence, FindingsOf(ops, evidence));
  }

  lemma {:induction false} BenignAre(ops: TextOps, evidence: seq<Evidence>, items: seq<Evidence>, e: Evidence)
    ensures e in BenignAmong(ops, evidence, items) <==> e in items && BenignMatch(ops, evidence, e)
  {
    hide BenignMatch;
    if items != [] {
      BenignAre(ops, evidence, items[..|items| - 1], e);
      assert items == items[..|items| - 1] + [items[|items| - 1]];
    }
  }

  lemma BenignKept(ops: TextOps, evidence: seq<Evidence>, more: seq<Evidence>)
    requires Grows(evidence, more)
    ensures BenignEvidence(ops, evidence) != [] ==> BenignEvidence(ops, more) != []
  {
    hide Select, BenignAmong, Occurrences, HasReputation;
    var benign := BenignEvidence(ops, evidence);
    if benign != [] {
      var e := benign[0];
      assert e in benign;
      BenignAre(ops, evidence, Select(ops, evidence, OfType(IocReputation)), e);
      Selected(ops, evidence, OfType(IocReputation), e);
      var f :| f in more && Alike(e, f);
      Selected(ops, more, OfType(IocReputation), f);
      OccurrencesKept(ops, evidence, more, e.content[Indicator].s);
      SameReputation(e, f);
      BenignAre(ops, more, Select(ops, more, OfType(IocReputation)), f);
    }
  }

  lemma SameReputation(e: Evidence, f: Evidence)
    requires Alike(e, f)
    ensures HasReputation(e, "benign") <==> HasReputation(f, "benign")
  {
  }

  /** The order of the evidence does not matter for the disposition. */
  lemma OrderIsIrrelevant(ops: TextOps, evidence: seq<Evidence>, shuffled: seq<Evidence>, completed: bool, gaps: bool,
                          moreGaps: bool)
    requires UniqueIds(evidence) && UniqueIds(shuffled) && multiset(evidence) == multiset(shuffled)
    ensures VerdictOf(ops, evidence, completed, gaps).disposition
            == VerdictOf(ops, shuffled, completed, moreGaps).disposition
  {
    hide FindingsOf, Picked, CrossSourcePairs, BenignEvidence, OrderedIds, Flattened;
    forall e ensures e in evidence <==> e in shuffled {
      assert e in multiset(evidence) <==> e in multiset(shuffled);
    }
    assert Grows(evidence, shuffled) && Grows(shuffled, evidence);
    VerdictIsMonotone(ops, evidence, shuffled, completed, completed, gaps, moreGaps);
    VerdictIsMonotone(ops, shuffled, evidence, completed, completed, moreGaps, gaps);
    BenignKept(ops, evidence, shuffled);
    BenignKept(ops, shuffled, evidence);
  }
}
