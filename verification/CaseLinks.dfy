/** Which ATT&CK knowledge is linked to the case (app/evidence/extractor.py). */
module CaseLinks {
  import opened Contracts
  import opened Dedup
  import opened EvidenceContracts
  import opened ExtractionLaws
  import opened Extractor
  import opened TextOps

  predicate Lists(o: Occurrence, technique: string) {
    && TechniqueIds in o.content && o.content[TechniqueIds].Items?
    && Text(technique) in o.content[TechniqueIds].xs
  }

  /** A threat-intelligence record that is linked to the case and lists the technique. */
  predicate LinkedReport(o: Occurrence, technique: string) {
    o.evidenceType == ThreatIntelligence && TAG_CASE_LINKED in o.tags && Lists(o, technique)
  }

  ghost predicate ReportedBefore(occs: seq<Occurrence>, n: nat, technique: string)
    requires n <= |occs|
  {
    exists m :: 0 <= m < n && LinkedReport(occs[m], technique)
  }

  /** A technique is linked exactly when a linked report before it lists it. */
  ghost predicate LinksFollow(occs: seq<Occurrence>) {
    forall n :: 0 <= n < |occs| && occs[n].evidenceType == AttackKnowledge ==>
      (TAG_CASE_LINKED in occs[n].tags <==> ReportedBefore(occs, n, TextAt(occs[n].content, TechniqueId)))
  }

  ghost predicate Tracked(i: Intake) {
    && LinksFollow(i.occs)
    && forall t :: t in i.techniques <==> ReportedBefore(i.occs, |i.occs|, t)
  }

  /** What one record contributes. */
  ghost predicate Contributes(techniques: set<string>, reading: Reading) {
    reading.Accepted? ==>
      && (reading.occurrence.evidenceType == AttackKnowledge ==>
            (TAG_CASE_LINKED in reading.occurrence.tags
             <==> TextAt(reading.occurrence.content, TechniqueId) in techniques))
      && forall t :: t in reading.techniques <==> LinkedReport(reading.occurrence, t)
  }

  lemma TextsHold(xs: seq<string>, t: string)
    ensures Text(t) in Texts(xs).xs <==> t in xs
  {
    var ys := Texts(xs).xs;
    if t in xs {
      var k :| 0 <= k < |xs| && xs[k] == t;
      assert ys[k] == Text(t);
    }
    if Text(t) in ys {
      var k :| 0 <= k < |ys| && ys[k] == Text(t);
      assert xs[k] == t;
    }
  }

  lemma CtiContributes(k: CaseContext, techniques: set<string>, call: ToolCall, result: ToolResult, raw: Value)
    ensures Contributes(techniques, ReadCti(k, call, result, raw))
  {
    hide IsCaseLinked, KnowledgeTags;
    TagsApart(call.toolName, true, TAG_KNOWLEDGE_REFERENCE);
    TagsApart(call.toolName, false, TAG_KNOWLEDGE_REFERENCE);
    match k.schemas.cti(raw)
    case None =>
    case Some(r) =>
      assert CtiContent(r)[TechniqueIds] == Texts(r.techniqueIds);
      forall t ensures Text(t) in Texts(r.techniqueIds).xs <==> t in r.techniqueIds {
        TextsHold(r.techniqueIds, t);
      }
  }

  lemma TechniqueContributes(k: CaseContext, techniques: set<string>, call: ToolCall, result: ToolResult, raw: Value)
    ensures Contributes(techniques, ReadTechnique(k, techniques, call, result, raw))
  {
    hide KnowledgeTags;
    TagsApart(call.toolName, true, TAG_KNOWLEDGE_REFERENCE);
    TagsApart(call.toolName, false, TAG_KNOWLEDGE_REFERENCE);
    match k.schemas.technique(raw)
    case None =>
    case Some(r) =>
      assert TextAt(TechniqueContent(r), TechniqueId) == r.techniqueId;
  }

  lemma ReadingContributes(k: CaseContext, c: Collection, techniques: set<string>, call: ToolCall, result: ToolResult,
                           raw: Value)
    ensures Contributes(techniques, ReadRecord(k, c, techniques, call, result, raw))
  {
    hide EndpointContent, NetworkContent, DnsContent, FileContent, ReputationContent, ReadCti, ReadTechnique;
    hide TelemetryRef, KnowledgeRef, KnowledgeTags, TelemetryTags;
    match c
    case CtiRecords => CtiContributes(k, techniques, call, result, raw);
    case AttackTechniques => TechniqueContributes(k, techniques, call, result, raw);
    case _ =>
  }

  lemma OneMoreTracked(i: Intake, reading: Reading)
    requires Tracked(i) && reading.Accepted? && Contributes(i.techniques, reading)
    ensures Tracked(Intake(i.occs + [reading.occurrence], i.warnings, i.techniques + reading.techniques))
  {
    hide LinkedReport;
    var before, after, o := i.occs, i.occs + [reading.occurrence], reading.occurrence;
    forall n, t | 0 <= n <= |before| ensures ReportedBefore(after, n, t) <==> ReportedBefore(before, n, t) {
      if ReportedBefore(before, n, t) {
        var m :| 0 <= m < n && LinkedReport(before[m], t);
        assert LinkedReport(after[m], t);
      }
      if ReportedBefore(after, n, t) {
        var m :| 0 <= m < n && LinkedReport(after[m], t);
        assert LinkedReport(before[m], t);
      }
    }
    forall t ensures ReportedBefore(after, |after|, t) <==> ReportedBefore(before, |before|, t) || LinkedReport(o, t) {
      if LinkedReport(o, t) {
        assert LinkedReport(after[|before|], t);
      }
      if ReportedBefore(before, |before|, t) {
        var m :| 0 <= m < |before| && LinkedReport(before[m], t);
        assert LinkedReport(after[m], t);
      }
      if ReportedBefore(after, |after|, t) {
        var m :| 0 <= m < |after| && LinkedReport(after[m], t);
        assert m < |before| ==> LinkedReport(before[m], t);
      }
    }
  }

  lemma {:induction false} RecordsTracked(k: CaseContext, c: Collection, i: Intake, call: ToolCall, result: ToolResult,
                                          raws: seq<Value>)
    requires Tracked(i)
    ensures Tracked(TakeRecords(k, c, i, call, result, raws))
  {
    hide ReadRecord, LinksFollow, ReportedBefore, LinkedReport;
    if raws != [] {
      var last := |raws| - 1;
      RecordsTracked(k, c, i, call, result, raws[..last]);
      var before := TakeRecords(k, c, i, call, result, raws[..last]);
      ReadingContributes(k, c, before.techniques, call, result, raws[last]);
      var reading := ReadRecord(k, c, before.techniques, call, result, raws[last]);
      if reading.Accepted? {
        OneMoreTracked(before, reading);
      }
    }
  }

  lemma {:induction false} CollectionsTracked(k: CaseContext, cs: seq<Collection>, i: Intake, call: ToolCall,
                                              result: ToolResult, payload: map<string, Value>)
    requires Tracked(i)
    ensures Tracked(TakeCollections(k, cs, i, call, result, payload))
  {
    hide TakeRecords, LinksFollow, ReportedBefore;
    if cs != [] {
      var last := |cs| - 1;
      CollectionsTracked(k, cs[..last], i, call, result, payload);
      var key := cs[last].Key();
      if key in payload && payload[key].Items? {
        RecordsTracked(k, cs[last], TakeCollections(k, cs[..last], i, call, result, payload), call, result,
                       payload[key].xs);
      }
    }
  }

  /** In every extraction an ATT&CK record is linked to the case if and only if a case-linked report taken
      before it lists its technique: knowledge never links itself. */
  lemma {:induction false} TechniquesFollowReports(k: CaseContext, calls: seq<ToolCall>, results: seq<ToolResult>)
    ensures LinksFollow(TakeResults(k, calls, results).occs)
    ensures forall t :: t in TakeResults(k, calls, results).techniques
                        <==> exists m :: 0 <= m < |TakeResults(k, calls, results).occs|
                                         && LinkedReport(TakeResults(k, calls, results).occs[m], t)
  {
    hide TakeCollections, CollectionsOf, LinkedReport;
    if results != [] {
      var before, last := results[..|results| - 1], results[|results| - 1];
      TechniquesFollowReports(k, calls, before);
      var i := TakeResults(k, calls, before);
      assert Tracked(i);
      var found := CallOf(calls, last.callId);
      if found.Some? && last.success && CollectionsOf(found.value.toolName).Some? && last.data.Object? {
        CollectionsTracked(k, CollectionsOf(found.value.toolName).value, i, found.value, last, last.data.fields);
      }
      assert Tracked(TakeResults(k, calls, results));
    }
  }

  // ----- the case's indicators ----------------------------------------------------------------------

  /** The text fields of telemetry records that name something of the case, by tool and list. */
  predicate IndicatorPlace(toolName: string, list: string, key: string) {
    || (toolName == SEARCH_ENDPOINT && list == "items"
        && key in {"host", "user", "process_name", "parent_process_name", "file_path", "sha256"})
    || (toolName == SEARCH_NETWORK && list == "network_events"
        && key in {"src_ip", "dst_ip", "src_host", "process_name"})
    || (toolName == SEARCH_NETWORK && list == "dns_events"
        && key in {"query", "host", "src_ip", "response", "process_name"})
    || (toolName == LOOKUP_FILE && list == "files" && key in {"file_name", "path", "sha256", "host"})
  }

  predicate RecordSays(ops: TextOps, raw: Value, key: string, x: string) {
    && raw.Object? && key in raw.fields && raw.fields[key].Text? && raw.fields[key].s != ""
    && ops.casefold(raw.fields[key].s) == x
  }

  /** A successful result of the run carries a record that says `x` in one of those fields. */
  predicate SaysAt(ops: TextOps, calls: seq<ToolCall>, result: ToolResult, call: ToolCall, list: string, key: string,
                   raw: Value, x: string)
  {
    && result.success && CallOf(calls, result.callId) == Some(call) && IndicatorPlace(call.toolName, list, key)
    && result.data.Object? && list in result.data.fields && result.data.fields[list].Items?
    && raw in result.data.fields[list].xs && RecordSays(ops, raw, key, x)
  }

  ghost predicate ResultSays(ops: TextOps, calls: seq<ToolCall>, result: ToolResult, x: string) {
    exists call, list, key, raw :: SaysAt(ops, calls, result, call, list, key, raw, x)
  }

  ghost predicate AlertSays(ops: TextOps, alert: Alert, x: string) {
    exists o :: o in {alert.srcIp, alert.dstIp, alert.host, alert.user, alert.processName} && o.Some? && o.value != ""
                && ops.casefold(o.value) == x
  }

  lemma RecordIndicatorsAre(ops: TextOps, raw: Value, keys: set<string>, x: string)
    ensures x in RecordIndicators(ops, raw, keys) <==> exists key :: key in keys && RecordSays(ops, raw, key, x)
  {
  }

  lemma {:induction false} ListIndicatorsAre(ops: TextOps, raws: seq<Value>, keys: set<string>, x: string)
    ensures x in ListIndicators(ops, raws, keys)
            <==> exists raw, key :: raw in raws && key in keys && RecordSays(ops, raw, key, x)
  {
    hide RecordSays, RecordIndicators;
    if raws != [] {
      var before, last := raws[..|raws| - 1], raws[|raws| - 1];
      assert raws == before + [last];
      ListIndicatorsAre(ops, before, keys, x);
      RecordIndicatorsAre(ops, last, keys, x);
      if x in ListIndicators(ops, raws, keys) && x !in ListIndicators(ops, before, keys) {
        var key :| key in keys && RecordSays(ops, last, key, x);
        assert last in raws;
      }
    }
  }

  ghost predicate ListSays(ops: TextOps, payload: map<string, Value>, list: string, keys: set<string>, x: string) {
    list in payload && payload[list].Items?
    && exists raw, key :: raw in payload[list].xs && key in keys && RecordSays(ops, raw, key, x)
  }

  lemma {:induction false} PayloadIndicatorsAre(ops: TextOps, payload: map<string, Value>,
                                                lists: seq<(string, set<string>)>, x: string)
    ensures x in PayloadIndicators(ops, payload, lists)
            <==> exists l :: l in lists && ListSays(ops, payload, l.0, l.1, x)
  {
    hide RecordSays, ListIndicators;
    if lists != [] {
      var before, last := lists[..|lists| - 1], lists[|lists| - 1];
      assert lists == before + [last];
      PayloadIndicatorsAre(ops, payload, before, x);
      if last.0 in payload && payload[last.0].Items? {
        ListIndicatorsAre(ops, payload[last.0].xs, last.1, x);
      }
      assert last in lists;
    }
  }

  /** The fields that contribute are exactly the places listed above. */
  lemma PlacesAre(toolName: string, list: string, key: string)
    ensures IndicatorPlace(toolName, list, key)
            <==> exists l :: l in IndicatorFields(toolName) && l.0 == list && key in l.1
  {
    var fields := IndicatorFields(toolName);
    PlacesDiffer();
    if IndicatorPlace(toolName, list, key) {
      if list == "dns_events" {
        assert fields[1] in fields && fields[1].0 == list && key in fields[1].1;
      } else {
        assert fields[0] in fields && fields[0].0 == list && key in fields[0].1;
      }
    }
  }

  lemma PlacesDiffer()
    ensures SEARCH_ENDPOINT != SEARCH_NETWORK && SEARCH_ENDPOINT != LOOKUP_FILE && SEARCH_NETWORK != LOOKUP_FILE
    ensures "items" != "dns_events" && "network_events" != "dns_events" && "files" != "dns_events"
  {
    assert SEARCH_ENDPOINT[7] == 'e' && SEARCH_NETWORK[7] == 'n' && LOOKUP_FILE[0] == 'l' && SEARCH_ENDPOINT[0] == 's';
    assert SEARCH_NETWORK[0] == 's' && "items"[0] == 'i' && "network_events"[0] == 'n' && "files"[0] == 'f';
    assert "dns_events"[0] == 'd';
  }

  lemma ResultIndicatorsAre(ops: TextOps, calls: seq<ToolCall>, result: ToolResult, x: string)
    ensures x in ResultIndicators(ops, CallOf(calls, result.callId), result) <==> ResultSays(ops, calls, result, x)
  {
    hide RecordSays, IndicatorPlace, IndicatorFields, PayloadIndicators, CallOf;
    var found := CallOf(calls, result.callId);
    if found.Some? && result.success && result.data.Object? {
      var payload, lists := result.data.fields, IndicatorFields(found.value.toolName);
      PayloadIndicatorsAre(ops, payload, lists, x);
      if l :| l in lists && ListSays(ops, payload, l.0, l.1, x) {
        var raw, key :| raw in payload[l.0].xs && key in l.1 && RecordSays(ops, raw, key, x);
        PlacesAre(found.value.toolName, l.0, key);
        assert SaysAt(ops, calls, result, found.value, l.0, key, raw, x);
      }
      if call, list, key, raw :| SaysAt(ops, calls, result, call, list, key, raw, x) {
        PlacesAre(call.toolName, list, key);
        var l :| l in lists && l.0 == list && key in l.1;
        assert ListSays(ops, payload, l.0, l.1, x);
      }
    }
  }

  /** A folded text is one of the case's indicators exactly when the alert names it or a telemetry record of the run
      does, never because a knowledge record does. */
  lemma {:induction false} CaseIndicatorsAre(ops: TextOps, alert: Alert, calls: seq<ToolCall>, results: seq<ToolResult>,
                                             x: string)
    ensures x in CaseIndicators(ops, alert, calls, results)
            <==> AlertSays(ops, alert, x) || exists result :: result in results && ResultSays(ops, calls, result, x)
  {
    hide ResultSays, ResultIndicators, CallOf;
    if results != [] {
      var before, last := results[..|results| - 1], results[|results| - 1];
      assert results == before + [last];
      CaseIndicatorsAre(ops, alert, calls, before, x);
      ResultIndicatorsAre(ops, calls, last, x);
      assert last in results;
    }
  }
}
