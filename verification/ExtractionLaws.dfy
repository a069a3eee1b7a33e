/** What holds of every extraction, and what survives when a run gains results
    (app/evidence/extractor.py, app/evidence/dedup.py). */
module ExtractionLaws {
  import opened Contracts
  import opened EvidenceContracts
  import opened Dedup
  import opened EvidenceIndexing
  import opened Extractor
  import opened Queries
  import opened TextOps

  // ----- every occurrence is shaped and resolves -----------------------------------------

  const CLASSES := {ENDPOINT_CLASS, NETWORK_CLASS, DNS_CLASS, FILE_CLASS, CTI_CLASS, ATTACK_CLASS, REPUTATION_CLASS}

  function AsEvidence(o: Occurrence): Evidence {
    Evidence("", o.evidenceType, o.content, o.reference, o.tags)
  }

  /** Type, tags and record class agree, the identity starts with the record class, and there is one path. */
  predicate ShapedOccurrence(o: Occurrence) {
    && Shaped(AsEvidence(o)) && OnePath(o.content)
    && TextAt(o.content, RecordClass) != "" && TextAt(o.content, RecordClass) <= o.identity
  }

  /** The reference names a successful result and the call that it answers. */
  ghost predicate Resolves(reference: SourceReference, calls: seq<ToolCall>, results: seq<ToolResult>) {
    exists call, result ::
      && call in calls && result in results && result.success && result.callId == call.callId
      && reference.callId == call.callId && reference.resultId == result.resultId
      && reference.sourceName == call.toolName
  }

  ghost predicate Sound(occs: seq<Occurrence>, calls: seq<ToolCall>, results: seq<ToolResult>) {
    forall o :: o in occs ==> ShapedOccurrence(o) && Resolves(o.reference, calls, results)
  }

  lemma TagsApart(toolName: string, linked: bool, extra: string)
    requires extra == TAG_KNOWLEDGE_REFERENCE || (extra != "" && extra[0] == 'r')
    ensures TAG_TELEMETRY !in KnowledgeTags(toolName, linked, extra)
    ensures TAG_UNLINKED !in TelemetryTags(toolName)
    ensures TAG_UNLINKED in KnowledgeTags(toolName, linked, extra) <==> !linked
    ensures TAG_CASE_LINKED in KnowledgeTags(toolName, linked, extra) <==> linked
  {
    var tool := "tool:" + toolName;
    assert tool[0] == 't' && TAG_TELEMETRY[0] == 's' && TAG_UNLINKED[0] == 'u' && TAG_KNOWLEDGE_REFERENCE[0] == 'k';
    assert TAG_CASE_LINKED[0] == 'c' && TAG_KNOWLEDGE[0] == 's' && |TAG_KNOWLEDGE| == |TAG_TELEMETRY|;
    assert TAG_KNOWLEDGE[13] == 'k' && TAG_TELEMETRY[13] == 't';
    var tags := KnowledgeTags(toolName, linked, extra);
    assert tags[0] == TAG_KNOWLEDGE && tags[1] == tool && tags[2] == extra;
    assert tags[3] == if linked then TAG_CASE_LINKED else TAG_UNLINKED;
  }

  predicate IsKnowledge(c: Collection) {
    c.FileReputations? || c.IndicatorReputations? || c.CtiRecords? || c.AttackTechniques?
  }

  lemma TelemetryIsShaped(k: CaseContext, c: Collection, techniques: set<string>, call: ToolCall, result: ToolResult,
                          raw: Value)
    requires !IsKnowledge(c) && ReadRecord(k, c, techniques, call, result, raw).Accepted?
    ensures ShapedOccurrence(ReadRecord(k, c, techniques, call, result, raw).occurrence)
  {
    hide EndpointContent, NetworkContent, DnsContent, FileContent, TelemetryRef, EndpointType, OnePath;
    TagsApart(call.toolName, true, TAG_KNOWLEDGE_REFERENCE);
  }

  lemma KnowledgeIsShaped(k: CaseContext, c: Collection, techniques: set<string>, call: ToolCall, result: ToolResult,
                          raw: Value)
    requires IsKnowledge(c) && ReadRecord(k, c, techniques, call, result, raw).Accepted?
    ensures ShapedOccurrence(ReadRecord(k, c, techniques, call, result, raw).occurrence)
  {
    hide ReputationContent, CtiContent, TechniqueContent, KnowledgeRef, OnePath;
    var o := ReadRecord(k, c, techniques, call, result, raw).occurrence;
    if c.FileReputations? || c.IndicatorReputations? {
      var extra := o.tags[2];
      assert extra[0] == 'r';
      TagsApart(call.toolName, TAG_CASE_LINKED == o.tags[3], extra);
    } else {
      TagsApart(call.toolName, true, TAG_KNOWLEDGE_REFERENCE);
      TagsApart(call.toolName, false, TAG_KNOWLEDGE_REFERENCE);
    }
  }

  lemma ReadingIsShaped(k: CaseContext, c: Collection, techniques: set<string>, call: ToolCall, result: ToolResult,
                        raw: Value)
    requires ReadRecord(k, c, techniques, call, result, raw).Accepted?
    ensures ShapedOccurrence(ReadRecord(k, c, techniques, call, result, raw).occurrence)
  {
    hide ReadRecord, ShapedOccurrence;
    if IsKnowledge(c) {
      KnowledgeIsShaped(k, c, techniques, call, result, raw);
    } else {
      TelemetryIsShaped(k, c, techniques, call, result, raw);
    }
  }

  lemma ReadingRefers(k: CaseContext, c: Collection, techniques: set<string>, call: ToolCall, result: ToolResult,
                      raw: Value)
    requires ReadRecord(k, c, techniques, call, result, raw).Accepted?
    ensures var reference := ReadRecord(k, c, techniques, call, result, raw).occurrence.reference;
            reference.callId == call.callId && reference.resultId == result.resultId
              && reference.sourceName == call.toolName
  {
  }

  lemma {:induction false} RecordsAreSound(k: CaseContext, c: Collection, i: Intake, call: ToolCall, result: ToolResult,
                                           raws: seq<Value>, calls: seq<ToolCall>, results: seq<ToolResult>)
    requires Sound(i.occs, calls, results)
    requires call in calls && result in results && result.success && result.callId == call.callId
    ensures Sound(TakeRecords(k, c, i, call, result, raws).occs, calls, results)
  {
    hide ReadRecord, ShapedOccurrence;
    if raws != [] {
      var last := |raws| - 1;
      RecordsAreSound(k, c, i, call, result, raws[..last], calls, results);
      var before := TakeRecords(k, c, i, call, result, raws[..last]);
      if ReadRecord(k, c, before.techniques, call, result, raws[last]).Accepted? {
        ReadingIsShaped(k, c, before.techniques, call, result, raws[last]);
        ReadingRefers(k, c, before.techniques, call, result, raws[last]);
      }
    }
  }

  lemma {:induction false} CollectionsAreSound(k: CaseContext, cs: seq<Collection>, i: Intake, call: ToolCall,
                                               result: ToolResult, payload: map<string, Value>,
                                               calls: seq<ToolCall>, results: seq<ToolResult>)
    requires Sound(i.occs, calls, results)
    requires call in calls && result in results && result.success && result.callId == call.callId
    ensures Sound(TakeCollections(k, cs, i, call, result, payload).occs, calls, results)
  {
    hide TakeRecords, ShapedOccurrence, Resolves;
    if cs != [] {
      var last := |cs| - 1;
      CollectionsAreSound(k, cs[..last], i, call, result, payload, calls, results);
      var key := cs[last].Key();
      if key in payload && payload[key].Items? {
        RecordsAreSound(k, cs[last], TakeCollections(k, cs[..last], i, call, result, payload), call, result,
                        payload[key].xs, calls, results);
      }
    }
  }

  lemma {:induction false} ResultsAreSound(k: CaseContext, calls: seq<ToolCall>, results: seq<ToolResult>)
    ensures Sound(TakeResults(k, calls, results).occs, calls, results)
  {
    hide TakeCollections, ShapedOccurrence, CollectionsOf;
    if results != [] {
      var before, last := results[..|results| - 1], results[|results| - 1];
      ResultsAreSound(k, calls, before);
      var i := TakeResults(k, calls, before);
      SoundWithMore(i.occs, calls, before, results);
      var found := CallOf(calls, last.callId);
      if found.Some? && last.success && CollectionsOf(found.value.toolName).Some? && last.data.Object? {
        CollectionsAreSound(k, CollectionsOf(found.value.toolName).value, i, found.value, last, last.data.fields,
                            calls, results);
      }
    }
  }

  lemma SoundWithMore(occs: seq<Occurrence>, calls: seq<ToolCall>, results: seq<ToolResult>, more: seq<ToolResult>)
    requires Sound(occs, calls, results) && results <= more
    ensures Sound(occs, calls, more)
  {
    hide ShapedOccurrence;
    forall o | o in occs ensures Resolves(o.reference, calls, more) {
      var call, result :|
        && call in calls && result in results && result.success && result.callId == call.callId
        && o.reference.callId == call.callId && o.reference.resultId == result.resultId
        && o.reference.sourceName == call.toolName;
      assert result in more;
    }
  }

  // ----- from occurrences to items -----------------------------------------------------------

  lemma ClassByFirstLetter(a: string, b: string)
    requires a in CLASSES && b in CLASSES && a[0] == b[0]
    ensures a == b
  {
    ClassesDiffer();
  }

  lemma ShapedClass(e: Evidence)
    requires Shaped(e)
    ensures ClassOf(e) in CLASSES
    ensures TAG_TELEMETRY in e.tags <==> ClassOf(e) in {ENDPOINT_CLASS, NETWORK_CLASS, DNS_CLASS, FILE_CLASS}
  {
    ClassesDiffer();
  }

  lemma SameIdentitySameClass(a: Occurrence, b: Occurrence)
    requires ShapedOccurrence(a) && ShapedOccurrence(b) && a.identity == b.identity
    ensures TextAt(a.content, RecordClass) == TextAt(b.content, RecordClass)
    ensures TAG_TELEMETRY in a.tags <==> TAG_TELEMETRY in b.tags
  {
    ShapedClass(AsEvidence(a));
    ShapedClass(AsEvidence(b));
    ClassByFirstLetter(TextAt(a.content, RecordClass), TextAt(b.content, RecordClass));
  }

  /** Records of different classes never share an identity, so an item keeps the shape of its records
      although its tags are the union of theirs. */
  lemma ItemIsShaped(occs: seq<Occurrence>, k: nat)
    requires k < |Identities(occs)| && forall o :: o in occs ==> ShapedOccurrence(o)
    ensures Shaped(Item(occs, k))
  {
    hide Identities, Of, ShapedOccurrence, Shaped;
    var identity := Identities(occs)[k];
    var same := Of(occs, identity);
    OfKnown(occs, identity);
    ItemIsFaithful(occs, k);
    var item := Item(occs, k);
    assert same[0] in same;
    forall j | 0 <= j < |same|
      ensures (TAG_TELEMETRY in same[j].tags <==> TAG_TELEMETRY in same[0].tags)
              && (TAG_TELEMETRY in same[j].tags ==> TAG_UNLINKED !in same[j].tags)
    {
      assert same[j] in same;
      SameIdentitySameClass(same[j], same[0]);
      TelemetryIsLinked(same[j]);
    }
    assert TAG_TELEMETRY in item.tags <==> TAG_TELEMETRY in same[0].tags;
    assert TAG_TELEMETRY in item.tags ==> TAG_UNLINKED !in item.tags;
    ShapeFromFirst(same[0], item);
  }

  lemma TelemetryIsLinked(o: Occurrence)
    requires ShapedOccurrence(o)
    ensures TAG_TELEMETRY in o.tags ==> TAG_UNLINKED !in o.tags
  {
  }

  lemma ShapeFromFirst(o: Occurrence, e: Evidence)
    requires ShapedOccurrence(o) && e.content == o.content && e.evidenceType == o.evidenceType
    requires TAG_TELEMETRY in e.tags <==> TAG_TELEMETRY in o.tags
    requires TAG_TELEMETRY in e.tags ==> TAG_UNLINKED !in e.tags
    ensures Shaped(e)
  {
  }

  /** Every extraction satisfies its contract and conserves the raw records; every item is shaped; every
      source reference names a successful result of the run and the existing call it answers. */
  lemma ExtractionIsSound(k: CaseContext, calls: seq<ToolCall>, results: seq<ToolResult>, extraction: Extraction)
    requires Built(extraction, TakeResults(k, calls, results).occs)
    ensures extraction.Valid()
    ensures extraction.DuplicateHitCount() == extraction.candidateCount - |extraction.evidence|
    ensures forall e :: e in extraction.evidence ==> Shaped(e)
    ensures forall id, r :: id in extraction.sources && r in extraction.sources[id] ==> Resolves(r, calls, results)
  {
    hide Identities, Of, Shaped, ShapedOccurrence, Resolves, Item, Sources, EvidenceId;
    var occs := TakeResults(k, calls, results).occs;
    ResultsAreSound(k, calls, results);
    BuiltIsValid(extraction, occs);
    SourcesConserved(extraction, occs);
    forall e | e in extraction.evidence ensures Shaped(e) {
      var n :| 0 <= n < |extraction.evidence| && extraction.evidence[n] == e;
      ItemIsShaped(occs, n);
    }
    forall id, r | id in extraction.sources && r in extraction.sources[id] ensures Resolves(r, calls, results) {
      var n :| 0 <= n < |Identities(occs)| && id == EvidenceId(n);
      var o := SourceOccurrence(occs, n, r);
    }
  }

  lemma SourceOccurrence(occs: seq<Occurrence>, n: nat, r: SourceReference) returns (o: Occurrence)
    requires n < |Identities(occs)| && r in Sources(occs, n)
    ensures o in occs && o.reference == r
  {
    var same := Of(occs, Identities(occs)[n]);
    assert r in multiset(Sources(occs, n));
    assert r in References(same);
    var j :| 0 <= j < |same| && References(same)[j] == r;
    OfKnown(occs, Identities(occs)[n]);
    o := same[j];
  }

  // ----- lookups in an extraction ----------------------------------------------------------------

  /** An item with at most one path is filed at most once under any key of any table. */
  lemma FiledOnce(ops: TextOps, t: Table, e: Evidence, key: string)
    requires OnePath(e.content)
    ensures Filing(KeysOf(ops, t, e), key) <= 1
  {
    FilingAtMost(KeysOf(ops, t, e), key);
  }

  /** Of extracted evidence every lookup, by path too, is the filtered evidence list: no item comes twice. */
  lemma LookupsAreFilters(k: CaseContext, calls: seq<ToolCall>, results: seq<ToolResult>, extraction: Extraction,
                          ops: TextOps, t: Table, key: string)
    requires Built(extraction, TakeResults(k, calls, results).occs)
    ensures Hits(ops, t, extraction.evidence, key) == Having(ops, t, extraction.evidence, key)
  {
    hide Identities, Of, ShapedOccurrence, Resolves, Item, KeysOf, Hits, Having, Filing, OnePath;
    var occs := TakeResults(k, calls, results).occs;
    ResultsAreSound(k, calls, results);
    forall e | e in extraction.evidence ensures Filing(KeysOf(ops, t, e), key) <= 1 {
      var n :| 0 <= n < |extraction.evidence| && extraction.evidence[n] == e;
      ItemHasOnePath(occs, n);
      FiledOnce(ops, t, e, key);
    }
    LookupIsFilterIff(ops, t, extraction.evidence, key);
  }

  lemma ItemHasOnePath(occs: seq<Occurrence>, n: nat)
    requires n < |Identities(occs)| && forall o :: o in occs ==> ShapedOccurrence(o)
    ensures OnePath(Item(occs, n).content)
  {
    hide Identities, Of, Item, Sources, Shaped;
    ItemIsFaithful(occs, n);
    var same := Of(occs, Identities(occs)[n]);
    OfKnown(occs, Identities(occs)[n]);
    assert same[0] in same;
  }

  // ----- accounting ---------------------------------------------------------------------------

  function InvalidCount(warnings: seq<Warning>): nat {
    if warnings == [] then 0
    else InvalidCount(warnings[..|warnings| - 1]) + if warnings[|warnings| - 1].InvalidRecord? then 1 else 0
  }

  /** The number of raw records in the lists a payload is expected to carry. */
  function RawRecords(cs: seq<Collection>, payload: map<string, Value>): nat {
    if cs == [] then 0
    else
      var key := cs[|cs| - 1].Key();
      RawRecords(cs[..|cs| - 1], payload) + if key in payload && payload[key].Items? then |payload[key].xs| else 0
  }

  function RawRecordsOf(calls: seq<ToolCall>, results: seq<ToolResult>): nat {
    if results == [] then 0
    else
      var last := results[|results| - 1];
      var found := CallOf(calls, last.callId);
      RawRecordsOf(calls, results[..|results| - 1])
      + if found.Some? && last.success && CollectionsOf(found.value.toolName).Some? && last.data.Object?
        then RawRecords(CollectionsOf(found.value.toolName).value, last.data.fields) else 0
  }

  function Seen(i: Intake): nat {
    |i.occs| + InvalidCount(i.warnings)
  }

  lemma {:induction false} RecordsAccounted(k: CaseContext, c: Collection, i: Intake, call: ToolCall,
                                            result: ToolResult, raws: seq<Value>)
    ensures Seen(TakeRecords(k, c, i, call, result, raws)) == Seen(i) + |raws|
  {
    hide ReadRecord;
    if raws != [] {
      var last := |raws| - 1;
      RecordsAccounted(k, c, i, call, result, raws[..last]);
      var before := TakeRecords(k, c, i, call, result, raws[..last]);
      assert (before.warnings + [InvalidRecord(result.resultId, c.Key())])[..|before.warnings|] == before.warnings;
    }
  }

  lemma {:induction false} CollectionsAccounted(k: CaseContext, cs: seq<Collection>, i: Intake, call: ToolCall,
                                                result: ToolResult, payload: map<string, Value>)
    ensures Seen(TakeCollections(k, cs, i, call, result, payload)) == Seen(i) + RawRecords(cs, payload)
  {
    hide TakeRecords;
    if cs != [] {
      var last := |cs| - 1;
      CollectionsAccounted(k, cs[..last], i, call, result, payload);
      var before := TakeCollections(k, cs[..last], i, call, result, payload);
      var key := cs[last].Key();
      if key in payload && payload[key].Items? {
        RecordsAccounted(k, cs[last], before, call, result, payload[key].xs);
      } else {
        assert (before.warnings + [MissingList(result.resultId, key)])[..|before.warnings|] == before.warnings;
      }
    }
  }

  /** Every raw record of a readable list is either one candidate or one invalid-record warning. */
  lemma {:induction false} EveryRawRecordIsAccounted(k: CaseContext, calls: seq<ToolCall>, results: seq<ToolResult>)
    ensures var i := TakeResults(k, calls, results);
            |i.occs| + InvalidCount(i.warnings) == RawRecordsOf(calls, results)
  {
    hide TakeCollections, CollectionsOf;
    if results != [] {
      var before, last := results[..|results| - 1], results[|results| - 1];
      EveryRawRecordIsAccounted(k, calls, before);
      var i := TakeResults(k, calls, before);
      var found := CallOf(calls, last.callId);
      if found.None? || !last.success {
        assert (i.warnings + [NoCallFound(last.resultId)])[..|i.warnings|] == i.warnings;
      } else if CollectionsOf(found.value.toolName).None? {
        assert (i.warnings + [NoEvidenceMapping(last.resultId)])[..|i.warnings|] == i.warnings;
      } else if !last.data.Object? {
        assert (i.warnings + [UnsupportedPayload(last.resultId)])[..|i.warnings|] == i.warnings;
      } else {
        CollectionsAccounted(k, CollectionsOf(found.value.toolName).value, i, found.value, last, last.data.fields);
      }
    }
  }

  // ----- a run gains results ---------------------------------------------------------------------

  /** The same records, with case links only gained. */
  ghost predicate Relinked(a: seq<Occurrence>, b: seq<Occurrence>) {
    && SameRecords(a, b)
    && forall n :: 0 <= n < |a| ==> TAG_CASE_LINKED in a[n].tags ==> TAG_CASE_LINKED in b[n].tags
  }

  ghost predicate Ahead(i: Intake, j: Intake) {
    Relinked(i.occs, j.occs) && i.techniques <= j.techniques && i.warnings == j.warnings
  }

  ghost predicate WiderCase(k: CaseContext, m: CaseContext) {
    m == k.(indicators := m.indicators) && k.indicators <= m.indicators
  }

  ghost predicate AheadReading(a: Reading, b: Reading) {
    match (a, b)
    case (Rejected, Rejected) => true
    case (Accepted(o, t), Accepted(p, u)) =>
      && o == p.(tags := o.tags) && t <= u
      && (TAG_CASE_LINKED in o.tags ==> TAG_CASE_LINKED in p.tags)
    case _ => false
  }

  lemma ReadingAhead(k: CaseContext, m: CaseContext, c: Collection, t: set<string>, u: set<string>, call: ToolCall,
                     result: ToolResult, raw: Value)
    requires WiderCase(k, m) && t <= u
    ensures AheadReading(ReadRecord(k, c, t, call, result, raw), ReadRecord(m, c, u, call, result, raw))
  {
    hide EndpointContent, NetworkContent, DnsContent, FileContent, ReputationContent, CtiContent, TechniqueContent;
    hide TelemetryRef, KnowledgeRef, EndpointType;
    if (c.FileReputations? || c.IndicatorReputations?) && k.schemas.reputation(raw).Some? {
      var extra := "reputation:" + k.schemas.reputation(raw).value.reputation;
      assert extra[0] == 'r';
      TagsApart(call.toolName, true, extra);
      TagsApart(call.toolName, false, extra);
    } else {
      TagsApart(call.toolName, true, TAG_KNOWLEDGE_REFERENCE);
      TagsApart(call.toolName, false, TAG_KNOWLEDGE_REFERENCE);
    }
  }

  lemma {:induction false} RecordsAhead(k: CaseContext, m: CaseContext, c: Collection, i: Intake, j: Intake,
                                        call: ToolCall, result: ToolResult, raws: seq<Value>)
    requires WiderCase(k, m) && Ahead(i, j)
    ensures Ahead(TakeRecords(k, c, i, call, result, raws), TakeRecords(m, c, j, call, result, raws))
  {
    hide ReadRecord;
    if raws != [] {
      var last := |raws| - 1;
      RecordsAhead(k, m, c, i, j, call, result, raws[..last]);
      ReadingAhead(k, m, c, TakeRecords(k, c, i, call, result, raws[..last]).techniques,
                   TakeRecords(m, c, j, call, result, raws[..last]).techniques, call, result, raws[last]);
    }
  }

  lemma {:induction false} CollectionsAhead(k: CaseContext, m: CaseContext, cs: seq<Collection>, i: Intake, j: Intake,
                                            call: ToolCall, result: ToolResult, payload: map<string, Value>)
    requires WiderCase(k, m) && Ahead(i, j)
    ensures Ahead(TakeCollections(k, cs, i, call, result, payload), TakeCollections(m, cs, j, call, result, payload))
  {
    hide TakeRecords;
    if cs != [] {
      var last := |cs| - 1;
      CollectionsAhead(k, m, cs[..last], i, j, call, result, payload);
      var key := cs[last].Key();
      if key in payload && payload[key].Items? {
        RecordsAhead(k, m, cs[last], TakeCollections(k, cs[..last], i, call, result, payload),
                     TakeCollections(m, cs[..last], j, call, result, payload), call, result, payload[key].xs);
      }
    }
  }

  /** The calls of the results at hand are found in both runs. */
  ghost predicate SameCalls(calls: seq<ToolCall>, later: seq<ToolCall>, results: seq<ToolResult>) {
    forall r :: r in results ==> CallOf(calls, r.callId) == CallOf(later, r.callId)
  }

  lemma {:induction false} ResultsAhead(k: CaseContext, m: CaseContext, calls: seq<ToolCall>, later: seq<ToolCall>,
                                        results: seq<ToolResult>)
    requires WiderCase(k, m) && SameCalls(calls, later, results)
    ensures Ahead(TakeResults(k, calls, results), TakeResults(m, later, results))
  {
    hide TakeCollections, CollectionsOf, CallOf;
    if results != [] {
      var before, last := results[..|results| - 1], results[|results| - 1];
      ResultsAhead(k, m, calls, later, before);
      var found := CallOf(calls, last.callId);
      assert found == CallOf(later, last.callId);
      if found.Some? && CollectionsOf(found.value.toolName).Some? && last.data.Object? {
        CollectionsAhead(k, m, CollectionsOf(found.value.toolName).value, TakeResults(k, calls, before),
                         TakeResults(m, later, before), found.value, last, last.data.fields);
      }
    }
  }

  lemma {:induction false} MoreResults(k: CaseContext, calls: seq<ToolCall>, results: seq<ToolResult>,
                                       more: seq<ToolResult>)
    ensures TakeResults(k, calls, results).occs <= TakeResults(k, calls, results + more).occs
  {
    hide TakeResult, CallOf;
    if more == [] {
      assert results + more == results;
    } else {
      MoreResults(k, calls, results, more[..|more| - 1]);
      assert (results + more)[..|results + more| - 1] == results + more[..|more| - 1];
    }
  }

  lemma {:induction false} IndicatorsGrow(k: CaseContext, alert: Alert, calls: seq<ToolCall>, later: seq<ToolCall>,
                                          results: seq<ToolResult>, more: seq<ToolResult>)
    requires SameCalls(calls, later, results)
    ensures CaseIndicators(k.ops, alert, calls, results) <= CaseIndicators(k.ops, alert, later, results + more)
    decreases |more|, |results|
  {
    hide ResultIndicators, CallOf;
    if more != [] {
      IndicatorsGrow(k, alert, calls, later, results, more[..|more| - 1]);
      assert (results + more)[..|results + more| - 1] == results + more[..|more| - 1];
    } else {
      assert results + more == results;
      if results != [] {
        var before := results[..|results| - 1];
        IndicatorsGrow(k, alert, calls, later, before, []);
        assert before + [] == before;
      }
    }
  }

  /** A later run: more results, and more calls that leave the calls of the old results in place. */
  ghost predicate Continues(run: RunRecord, later: RunRecord) {
    && later.alert == run.alert
    && run.results <= later.results
    && SameCalls(run.calls, later.calls, run.results)
  }

  lemma ContinuationTakesMore(x: DeterministicEvidenceExtractor, run: RunRecord, later: RunRecord)
    returns (relinked: seq<Occurrence>, more: seq<Occurrence>)
    requires Continues(run, later)
    ensures Relinked(TakeResults(x.ContextOf(run), run.calls, run.results).occs, relinked)
    ensures TakeResults(x.ContextOf(later), later.calls, later.results).occs == relinked + more
  {
    hide TakeResults, CaseIndicators;
    var k, m := x.ContextOf(run), x.ContextOf(later);
    var rest := later.results[|run.results|..];
    assert later.results == run.results + rest;
    IndicatorsGrow(k, run.alert, run.calls, later.calls, run.results, rest);
    ResultsAhead(k, m, run.calls, later.calls, run.results);
    MoreResults(m, later.calls, run.results, rest);
    relinked := TakeResults(m, later.calls, run.results).occs;
    more := TakeResults(m, later.calls, later.results).occs[|relinked|..];
  }

  /** Appending tool results to a run never renumbers or re-identifies evidence: every old item keeps its
      position, id, type and content; its references only grow and its case link is never lost. */
  lemma ExtractionIsStable(x: DeterministicEvidenceExtractor, run: RunRecord, later: RunRecord, extraction: Extraction,
                           extended: Extraction, n: nat)
    requires Continues(run, later) && n < |extraction.evidence|
    requires Built(extraction, TakeResults(x.ContextOf(run), run.calls, run.results).occs)
    requires Built(extended, TakeResults(x.ContextOf(later), later.calls, later.results).occs)
    ensures |extraction.evidence| <= |extended.evidence|
    ensures var before, after := extraction.evidence[n], extended.evidence[n];
            && after == before.(tags := after.tags, provenance := after.provenance)
            && (TAG_CASE_LINKED in before.tags ==> TAG_CASE_LINKED in after.tags)
            && before.evidenceId in extraction.sources && after.evidenceId in extended.sources
            && multiset(extraction.sources[before.evidenceId]) <= multiset(extended.sources[after.evidenceId])
  {
    hide TakeResults, Identities, Item, Sources, EvidenceId;
    var occs := TakeResults(x.ContextOf(run), run.calls, run.results).occs;
    var relinked, more := ContinuationTakesMore(x, run, later);
    EvidenceIsStable(occs, relinked, more);
    LinkIsKept(occs, relinked, more, n);
    IdsDense(occs);
    IdsDense(relinked + more);
  }

  lemma LinkIsKept(occs: seq<Occurrence>, relinked: seq<Occurrence>, more: seq<Occurrence>, n: nat)
    requires Relinked(occs, relinked) && n < |Identities(occs)| && Identities(occs) <= Identities(relinked + more)
    ensures TAG_CASE_LINKED in Item(occs, n).tags ==> TAG_CASE_LINKED in Item(relinked + more, n).tags
  {
    hide Identities;
    var identity := Identities(occs)[n];
    assert Identities(relinked + more)[n] == identity;
    RelinkedOf(occs, relinked, identity);
    OfAppend(relinked, more, identity);
    ItemIsFaithful(occs, n);
    ItemIsFaithful(relinked + more, n);
    var same, now := Of(occs, identity), Of(relinked + more, identity);
    if TAG_CASE_LINKED in Item(occs, n).tags {
      var j :| 0 <= j < |same| && TAG_CASE_LINKED in same[j].tags;
      assert now[j] == Of(relinked, identity)[j];
      assert TAG_CASE_LINKED in now[j].tags;
    }
  }

  lemma {:induction false} RelinkedOf(a: seq<Occurrence>, b: seq<Occurrence>, identity: string)
    requires Relinked(a, b)
    ensures Relinked(Of(a, identity), Of(b, identity))
  {
    if a != [] {
      RelinkedOf(a[..|a| - 1], b[..|b| - 1], identity);
    }
  }
}
